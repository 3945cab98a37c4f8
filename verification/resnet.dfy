/** The CIFAR backbone `ResNet_32x32`: argument checks, the three-stage plan
    between a 16-channel stem and a 64-input classifier, and the forward pass
    that threads `meta` through the stages. */
module ResNet {
  import opened Wrappers
  import opened Block
  import opened Stage

  /** `pretrained` is accepted only when it is the `False` object itself; any
      other value, including `0` or `None`, is refused. */
  datatype Pretrained = IsFalse | NotFalse

  /** Construction failures: `NotImplementedError` for a pretrained request,
      and the failed `assert len(layers) == 3`. */
  datatype ConfigError = PretrainedUnsupported | WrongStageCount(count: nat)

  /** The classifier layer, reduced to its feature counts. */
  datatype Linear = Linear(inFeatures: nat, outFeatures: nat)

  datatype Net = Net(
    stem: Conv,
    stemNorm: nat,
    layer1: seq<BlockSpec>,
    layer2: seq<BlockSpec>,
    layer3: seq<BlockSpec>,
    fc: Linear,
    sparse: bool)

  /** Input channels of an image (RGB). */
  const ImageChannels: nat := 3
  /** Width of the stem, and the initial value of the `inplanes` counter. */
  const StemWidth: nat := 16

  /** All blocks of the network in execution order. */
  function Blocks(n: Net): seq<BlockSpec> {
    n.layer1 + n.layer2 + n.layer3
  }

  /** `ResNet_32x32.__init__(layers, num_classes, pretrained, sparse)`. The
      pretrained check comes first, then the stage count; the `inplanes`
      counter runs from the stem width through the three stages. */
  function NewNetwork(layers: seq<int>, numClasses: nat, pretrained: Pretrained, sparse: bool): (r: Result<Net, ConfigError>)
    ensures pretrained == NotFalse ==> r == Failure(PretrainedUnsupported)
    ensures pretrained == IsFalse && |layers| != 3 ==> r == Failure(WrongStageCount(|layers|))
    ensures r.Success? <==> pretrained == IsFalse && |layers| == 3
    ensures r.Success? ==> r.value.sparse == sparse && r.value.fc.outFeatures == numClasses
  {
    if pretrained != IsFalse then Failure(PretrainedUnsupported)
    else if |layers| != 3 then Failure(WrongStageCount(|layers|))
    else
      var p1 := MakeLayer(StemWidth, 16, layers[0], 1, sparse);
      var p2 := MakeLayer(p1.inplanes, 32, layers[1], 2, sparse);
      var p3 := MakeLayer(p2.inplanes, 64, layers[2], 2, sparse);
      Success(Net(
        Conv3x3(ImageChannels, StemWidth, 1), StemWidth,
        p1.layer, p2.layer, p3.layer,
        Linear(64 * Expansion, numClasses),
        sparse))
  }

  /** The classifier checks the flattened feature count against its input width. */
  function ApplyLinear(fc: Linear, x: nat): Result<nat, ForwardError> {
    if x == fc.inFeatures then Success(fc.outFeatures) else Failure(ShapeMismatch(fc.inFeatures, x))
  }

  /** `ResNet_32x32.forward(x, meta)`: the stem, the three stages in order with
      `meta` threaded through them, then pooling, flattening and the classifier.
      The pooled map is taken to be 1x1, so the flattened width is the channel
      count. The result's `width` is the number of logits per image. */
  function Forward<M>(n: Net, x: nat, meta: Option<M>): (r: Result<Output<M>, ForwardError>)
    requires forall i :: 0 <= i < |Blocks(n)| ==> IsBasicBlock(Blocks(n)[i])
    ensures r.Success? ==> r.value.meta == meta
    ensures r.Success? ==> r.value.width == n.fc.outFeatures
    ensures r.Success? ==> x == n.stem.inChannels
    ensures r.Success? ==> r.value.calls == MaskerCalls(Blocks(n))
  {
    assert forall i :: 0 <= i < |n.layer1| ==> n.layer1[i] == Blocks(n)[i];
    assert forall i :: 0 <= i < |n.layer2| ==> n.layer2[i] == Blocks(n)[|n.layer1| + i];
    assert forall i :: 0 <= i < |n.layer3| ==> n.layer3[i] == Blocks(n)[|n.layer1| + |n.layer2| + i];
    MaskerCallsAppend(n.layer1, n.layer2);
    MaskerCallsAppend(n.layer1 + n.layer2, n.layer3);
    var h1 :- ApplyConv(n.stem, x);
    var h2 :- ApplyNorm(n.stemNorm, h1);
    var o1 :- LayerForward(n.layer1, h2, meta);
    var o2 :- LayerForward(n.layer2, o1.width, o1.meta);
    var o3 :- LayerForward(n.layer3, o2.width, o2.meta);
    var logits :- ApplyLinear(n.fc, o3.width);
    Success(Output(logits, o3.meta, o1.calls + o2.calls + o3.calls))
  }

  /** The stage plan of a constructed network: widths 16/32/64, first-block
      strides 1/2/2, `max(layers[i], 1)` blocks per stage, and every later block
      of a stage with stride 1, no shortcut, and input width equal to the
      stage's width. */
  lemma StagePlan(layers: seq<int>, numClasses: nat, sparse: bool, n: Net)
    requires NewNetwork(layers, numClasses, IsFalse, sparse) == Success(n)
    ensures |n.layer1| == Max1(layers[0]) && |n.layer2| == Max1(layers[1]) && |n.layer3| == Max1(layers[2])
    ensures n.layer1[0].stride == 1 && n.layer2[0].stride == 2 && n.layer3[0].stride == 2
    ensures forall i :: 0 <= i < |n.layer1| ==> n.layer1[i].planes == 16
    ensures forall i :: 0 <= i < |n.layer2| ==> n.layer2[i].planes == 32
    ensures forall i :: 0 <= i < |n.layer3| ==> n.layer3[i].planes == 64
    ensures forall i :: 1 <= i < |n.layer1| ==> n.layer1[i].inplanes == 16 && n.layer1[i].stride == 1 && n.layer1[i].downsample.None?
    ensures forall i :: 1 <= i < |n.layer2| ==> n.layer2[i].inplanes == 32 && n.layer2[i].stride == 1 && n.layer2[i].downsample.None?
    ensures forall i :: 1 <= i < |n.layer3| ==> n.layer3[i].inplanes == 64 && n.layer3[i].stride == 1 && n.layer3[i].downsample.None?
  {
  }

  /** Where the projection shortcuts go: stage 1 starts at the stem's width with
      stride 1 and gets none; stages 2 and 3 widen and stride, so their first
      blocks get one. */
  lemma ShortcutPlacement(layers: seq<int>, numClasses: nat, sparse: bool, n: Net)
    requires NewNetwork(layers, numClasses, IsFalse, sparse) == Success(n)
    ensures n.layer1[0].downsample.None?
    ensures n.layer2[0].downsample.Some? && n.layer2[0].inplanes == 16
    ensures n.layer3[0].downsample.Some? && n.layer3[0].inplanes == 32
  {
  }

  /** The total block count is the sum of the per-stage counts `max(layers[i], 1)`. */
  lemma BlockCount(layers: seq<int>, numClasses: nat, sparse: bool, n: Net)
    requires NewNetwork(layers, numClasses, IsFalse, sparse) == Success(n)
    ensures |Blocks(n)| == Max1(layers[0]) + Max1(layers[1]) + Max1(layers[2])
  {
  }

  /** Every block of a constructed network is a basic block carrying the
      network's `sparse` flag, whose identity branch matches its output width;
      a sparse block's masking unit reads the block's input width, uses its
      stride and a dilation stride of 1. */
  lemma BlocksBuilt(layers: seq<int>, numClasses: nat, sparse: bool, n: Net)
    requires NewNetwork(layers, numClasses, IsFalse, sparse) == Success(n)
    ensures AllBuilt(Blocks(n), sparse)
    ensures forall i :: 0 <= i < |Blocks(n)| && sparse ==>
      Blocks(n)[i].mode.masker == MaskerConfig(Blocks(n)[i].inplanes, Blocks(n)[i].stride, 1)
  {
  }

  /** Channel chaining across the whole network: the first block reads the
      stem's 16 channels, each block reads what the previous one wrote, and the
      last block writes the 64 channels the classifier reads. */
  lemma {:induction false} NetworkChained(layers: seq<int>, numClasses: nat, sparse: bool, n: Net)
    requires NewNetwork(layers, numClasses, IsFalse, sparse) == Success(n)
    ensures n.stem.outChannels == StemWidth == n.stemNorm
    ensures ChainedFrom(Blocks(n), n.stem.outChannels)
    ensures OutWidth(Blocks(n), n.stem.outChannels) == n.fc.inFeatures == 64
  {
    MakeLayerChained(StemWidth, 16, layers[0], 1, sparse);
    MakeLayerChained(16, 32, layers[1], 2, sparse);
    MakeLayerChained(32, 64, layers[2], 2, sparse);
    ChainedAppend(n.layer1, n.layer2, StemWidth);
    ChainedAppend(n.layer1 + n.layer2, n.layer3, StemWidth);
  }

  /** End to end: a constructed network fed a 3-channel image produces one
      logit per class and hands back the metadata it was given. A dense network
      accepts any metadata and never calls a masking unit; a sparse network
      fails with the missing-metadata error exactly when there is none, and
      otherwise calls every block's masking unit once, in order. Any other
      input width is refused at the stem. */
  lemma {:induction false} ForwardContract<M>(layers: seq<int>, numClasses: nat, sparse: bool, n: Net, x: nat, meta: Option<M>)
    requires NewNetwork(layers, numClasses, IsFalse, sparse) == Success(n)
    ensures forall i :: 0 <= i < |Blocks(n)| ==> IsBasicBlock(Blocks(n)[i])
    ensures x != ImageChannels ==> Forward(n, x, meta) == Failure(ShapeMismatch(ImageChannels, x))
    ensures x == ImageChannels && (!sparse || meta.Some?) ==>
      Forward(n, x, meta) == Success(Output(numClasses, meta, MaskerCalls(Blocks(n))))
    ensures x == ImageChannels && sparse && meta.None? ==> Forward(n, x, meta) == Failure(MissingMeta)
    ensures x == ImageChannels && !sparse ==> Forward(n, x, meta).value.calls == []
    ensures x == ImageChannels && sparse && meta.Some? ==> |Forward(n, x, meta).value.calls| == |Blocks(n)|
  {
    BlocksBuilt(layers, numClasses, sparse, n);
    NetworkChained(layers, numClasses, sparse, n);
    StagePlan(layers, numClasses, sparse, n);
    var l12 := n.layer1 + n.layer2;
    ChainedAppend(l12, n.layer3, StemWidth);
    ChainedAppend(n.layer1, n.layer2, StemWidth);
    assert AllBuilt(n.layer1, sparse) && AllBuilt(n.layer2, sparse) && AllBuilt(n.layer3, sparse) by {
      assert forall i :: 0 <= i < |n.layer1| ==> n.layer1[i] == Blocks(n)[i];
      assert forall i :: 0 <= i < |n.layer2| ==> n.layer2[i] == Blocks(n)[|n.layer1| + i];
      assert forall i :: 0 <= i < |n.layer3| ==> n.layer3[i] == Blocks(n)[|n.layer1| + |n.layer2| + i];
    }
    var w1 := OutWidth(n.layer1, StemWidth);
    var w2 := OutWidth(n.layer2, w1);
    ChainedLayerForward(n.layer1, StemWidth, meta, sparse);
    ChainedLayerForward(n.layer2, w1, meta, sparse);
    ChainedLayerForward(n.layer3, w2, meta, sparse);
    MaskerCallsAppend(n.layer1, n.layer2);
    MaskerCallsAppend(l12, n.layer3);
    MaskerCallsPerBlock(Blocks(n), sparse);
  }
}
