/** A stage of the network: `ResNet_32x32._make_layer` and the `nn.Sequential`
    that runs its blocks one after the other on `(x, meta)`. */
module Stage {
  import opened Wrappers
  import opened Block

  /** A stage always holds its first block, so it has `max(blocks, 1)` of them. */
  function Max1(n: int): nat {
    if n > 1 then n else 1
  }

  /** The first block of a stage needs a projection shortcut when it changes
      the spatial stride or the channel count. */
  predicate NeedsShortcut(inplanes: nat, planes: nat, stride: nat) {
    stride != 1 || inplanes != planes * Expansion
  }

  /** The shortcut `_make_layer` hands to a stage's first block: a strided 1x1
      convolution and a norm onto `planes * Expansion` channels when needed,
      none otherwise. */
  function ShortcutFor(inplanes: nat, planes: nat, stride: nat): (r: Option<Shortcut>)
    ensures r.Some? <==> NeedsShortcut(inplanes, planes, stride)
    ensures r.Some? ==> r.value.conv.kernelSize == 1 && r.value.conv.stride == stride
    ensures Identity(r, inplanes) == Success(planes * Expansion)
  {
    if NeedsShortcut(inplanes, planes, stride) then
      Some(Shortcut(Conv(inplanes, planes * Expansion, 1, stride), planes * Expansion))
    else
      None
  }

  /** The blocks appended by the loop `for i in range(1, blocks)`: `count`
      default blocks reading `width` channels. */
  function RepeatBlocks(width: nat, planes: nat, count: nat, sparse: bool): (r: seq<BlockSpec>)
    ensures |r| == count
    ensures forall i :: 0 <= i < |r| ==>
      && IsBasicBlock(r[i])
      && r[i].inplanes == width && r[i].planes == planes
      && r[i].stride == 1 && r[i].downsample.None?
      && (r[i].mode.Sparse? <==> sparse)
  {
    if count == 0 then []
    else [NewBlock(width, planes, 1, None, sparse)] + RepeatBlocks(width, planes, count - 1, sparse)
  }

  /** A stage plan, and the value of the running `inplanes` counter after it. */
  datatype LayerPlan = LayerPlan(layer: seq<BlockSpec>, inplanes: nat)

  /** Every block of `blocks` is a basic block whose identity branch matches its
      output width, and carries the `sparse` flag. */
  predicate AllBuilt(blocks: seq<BlockSpec>, sparse: bool) {
    forall i :: 0 <= i < |blocks| ==>
      IsBasicBlock(blocks[i]) && ResidualCompatible(blocks[i]) && (blocks[i].mode.Sparse? <==> sparse)
  }

  /** `_make_layer(block, planes, blocks, stride)` with the running counter `inplanes`. */
  function MakeLayer(inplanes: nat, planes: nat, blocks: int, stride: nat, sparse: bool): (r: LayerPlan)
    ensures |r.layer| == Max1(blocks)
    ensures r.inplanes == planes * Expansion
    ensures r.layer[0].inplanes == inplanes && r.layer[0].stride == stride
    ensures r.layer[0].downsample.Some? <==> NeedsShortcut(inplanes, planes, stride)
    ensures forall i :: 1 <= i < |r.layer| ==>
      r.layer[i].inplanes == planes * Expansion && r.layer[i].stride == 1 && r.layer[i].downsample.None?
    ensures forall i :: 0 <= i < |r.layer| ==> r.layer[i].planes == planes
    ensures AllBuilt(r.layer, sparse)
  {
    var first := NewBlock(inplanes, planes, stride, ShortcutFor(inplanes, planes, stride), sparse);
    var width := planes * Expansion;
    var rest := RepeatBlocks(width, planes, if blocks > 1 then blocks - 1 else 0, sparse);
    assert forall i :: 1 <= i < |[first] + rest| ==> ([first] + rest)[i] == rest[i - 1];
    LayerPlan([first] + rest, width)
  }

  /** Each block reads the width the previous one wrote; the first reads `c`. */
  predicate ChainedFrom(blocks: seq<BlockSpec>, c: nat)
    decreases |blocks|
  {
    |blocks| == 0 || (blocks[0].inplanes == c && ChainedFrom(blocks[1..], blocks[0].planes * Expansion))
  }

  /** The width written by the last block, or `c` when there is none. */
  function OutWidth(blocks: seq<BlockSpec>, c: nat): nat
    decreases |blocks|
  {
    if |blocks| == 0 then c else OutWidth(blocks[1..], blocks[0].planes * Expansion)
  }

  /** The masking-unit invocations a successful run over `blocks` makes: one per
      sparse block, in order, each handed the block's declared input width. */
  function MaskerCalls(blocks: seq<BlockSpec>): seq<MaskerCall>
    decreases |blocks|
  {
    if |blocks| == 0 then []
    else
      (match blocks[0].mode
       case Dense => []
       case Sparse(m) => [MaskerCall(m, blocks[0].inplanes)])
      + MaskerCalls(blocks[1..])
  }

  /** `nn.Sequential` over `(x, meta)`: each block's output pair feeds the next. */
  function LayerForward<M>(blocks: seq<BlockSpec>, x: nat, meta: Option<M>): (r: Result<Output<M>, ForwardError>)
    requires forall i :: 0 <= i < |blocks| ==> IsBasicBlock(blocks[i])
    ensures r.Success? ==> r.value.meta == meta
    ensures r.Success? ==> r.value.calls == MaskerCalls(blocks)
    ensures r.Success? && |blocks| > 0 ==> x == blocks[0].inplanes
    decreases |blocks|
  {
    if |blocks| == 0 then Success(Output(x, meta, []))
    else
      var o :- BlockForward(blocks[0], x, meta);
      var rest :- LayerForward(blocks[1..], o.width, o.meta);
      Success(Output(rest.width, rest.meta, o.calls + rest.calls))
  }

  /** Blocks that all read and write `width` chain from `width` and end at it. */
  lemma {:induction false} UniformChained(blocks: seq<BlockSpec>, width: nat)
    requires forall i :: 0 <= i < |blocks| ==> blocks[i].inplanes == width && blocks[i].planes * Expansion == width
    ensures ChainedFrom(blocks, width) && OutWidth(blocks, width) == width
    decreases |blocks|
  {
    if |blocks| > 0 {
      UniformChained(blocks[1..], width);
    }
  }

  /** A stage plan chains from the counter it started with and ends at the
      counter's new value `planes * Expansion`. */
  lemma MakeLayerChained(inplanes: nat, planes: nat, blocks: int, stride: nat, sparse: bool)
    ensures var p := MakeLayer(inplanes, planes, blocks, stride, sparse);
      ChainedFrom(p.layer, inplanes) && OutWidth(p.layer, inplanes) == p.inplanes
  {
    var p := MakeLayer(inplanes, planes, blocks, stride, sparse);
    UniformChained(p.layer[1..], planes * Expansion);
  }

  /** The recursive chaining predicate says the same as the indexed reading:
      the first block reads `c` and every later block reads what the one
      before it wrote. */
  lemma {:induction false} ChainedIndexed(blocks: seq<BlockSpec>, c: nat)
    ensures ChainedFrom(blocks, c) <==>
      (|blocks| > 0 ==> blocks[0].inplanes == c)
      && (forall i :: 1 <= i < |blocks| ==> blocks[i].inplanes == blocks[i - 1].planes * Expansion)
    decreases |blocks|
  {
    if |blocks| > 0 {
      var tail := blocks[1..];
      ChainedIndexed(tail, blocks[0].planes * Expansion);
      assert forall i :: 1 <= i < |tail| ==> tail[i] == blocks[i + 1] && tail[i - 1] == blocks[i];
      if |tail| > 0 {
        assert tail[0] == blocks[1];
      }
      if (forall i :: 1 <= i < |blocks| ==> blocks[i].inplanes == blocks[i - 1].planes * Expansion) {
        forall i | 1 <= i < |tail|
          ensures tail[i].inplanes == tail[i - 1].planes * Expansion
        {
          assert blocks[i + 1].inplanes == blocks[i].planes * Expansion;
        }
      }
      if ChainedFrom(tail, blocks[0].planes * Expansion) {
        forall i | 1 <= i < |blocks|
          ensures blocks[i].inplanes == blocks[i - 1].planes * Expansion
        {
          if i > 1 {
            assert tail[i - 1].inplanes == tail[i - 2].planes * Expansion;
          }
        }
      }
    }
  }

  /** Chaining splits at any concatenation point. */
  lemma {:induction false} ChainedAppend(a: seq<BlockSpec>, b: seq<BlockSpec>, c: nat)
    ensures ChainedFrom(a + b, c) <==> ChainedFrom(a, c) && ChainedFrom(b, OutWidth(a, c))
    ensures OutWidth(a + b, c) == OutWidth(b, OutWidth(a, c))
    decreases |a|
  {
    if |a| > 0 {
      assert (a + b)[1..] == a[1..] + b;
      ChainedAppend(a[1..], b, a[0].planes * Expansion);
    } else {
      assert a + b == b;
    }
  }

  /** Masking-unit traces concatenate with their block sequences. */
  lemma {:induction false} MaskerCallsAppend(a: seq<BlockSpec>, b: seq<BlockSpec>)
    ensures MaskerCalls(a + b) == MaskerCalls(a) + MaskerCalls(b)
    decreases |a|
  {
    if |a| > 0 {
      assert (a + b)[1..] == a[1..] + b;
      MaskerCallsAppend(a[1..], b);
    } else {
      assert a + b == b;
    }
  }

  /** In an all-sparse run the masking unit is called once per block, in block
      order, with each block's own unit; in an all-dense run it is never called. */
  lemma {:induction false} MaskerCallsPerBlock(blocks: seq<BlockSpec>, sparse: bool)
    requires forall i :: 0 <= i < |blocks| ==> (blocks[i].mode.Sparse? <==> sparse)
    ensures !sparse ==> MaskerCalls(blocks) == []
    ensures sparse ==> |MaskerCalls(blocks)| == |blocks|
    ensures sparse ==> forall i :: 0 <= i < |blocks| ==>
      MaskerCalls(blocks)[i] == MaskerCall(blocks[i].mode.masker, blocks[i].inplanes)
    decreases |blocks|
  {
    if |blocks| > 0 {
      MaskerCallsPerBlock(blocks[1..], sparse);
      if sparse {
        var calls := MaskerCalls(blocks);
        var tail := MaskerCalls(blocks[1..]);
        assert calls == [MaskerCall(blocks[0].mode.masker, blocks[0].inplanes)] + tail;
        forall i | 1 <= i < |blocks|
          ensures calls[i] == MaskerCall(blocks[i].mode.masker, blocks[i].inplanes)
        {
          assert calls[i] == tail[i - 1];
          assert blocks[1..][i - 1] == blocks[i];
        }
      }
    }
  }

  /** Running a chained, well-built run of blocks that share one mode: a dense
      run always succeeds; a sparse run fails with the missing-metadata error
      exactly when there is no metadata. Success yields the last block's width,
      the very same metadata, and one masking-unit call per sparse block. */
  lemma {:induction false} ChainedLayerForward<M>(blocks: seq<BlockSpec>, c: nat, meta: Option<M>, sparse: bool)
    requires ChainedFrom(blocks, c) && AllBuilt(blocks, sparse)
    ensures sparse && meta.None? && |blocks| > 0 ==> LayerForward(blocks, c, meta) == Failure(MissingMeta)
    ensures !sparse || meta.Some? ==>
      LayerForward(blocks, c, meta) == Success(Output(OutWidth(blocks, c), meta, MaskerCalls(blocks)))
    decreases |blocks|
  {
    if |blocks| > 0 {
      var b := blocks[0];
      BlockForwardContract(b, meta);
      assert AllBuilt(blocks[1..], sparse) by {
        forall i | 0 <= i < |blocks[1..]|
          ensures IsBasicBlock(blocks[1..][i]) && ResidualCompatible(blocks[1..][i])
            && (blocks[1..][i].mode.Sparse? <==> sparse)
        {
          assert blocks[1..][i] == blocks[i + 1];
        }
      }
      ChainedLayerForward(blocks[1..], b.planes * Expansion, meta, sparse);
    }
  }
}
