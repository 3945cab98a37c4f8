/** The named presets `resnet8` ... `resnet32`: each builds the backbone with
    the same block count in all three stages, passing `num_classes` and
    `pretrained` through. */
module Presets {
  import opened Wrappers
  import opened Block
  import opened ResNet

  datatype Preset = ResNet8 | ResNet14 | ResNet20 | ResNet26 | ResNet32

  /** The stage list each preset passes to the constructor. */
  function StageList(p: Preset): seq<int> {
    match p
    case ResNet8 => [1, 1, 1]
    case ResNet14 => [2, 2, 2]
    case ResNet20 => [3, 3, 3]
    case ResNet26 => [4, 4, 4]
    case ResNet32 => [5, 5, 5]
  }

  /** The depth in the preset's name. */
  function NamedDepth(p: Preset): nat {
    match p
    case ResNet8 => 8
    case ResNet14 => 14
    case ResNet20 => 20
    case ResNet26 => 26
    case ResNet32 => 32
  }

  /** Layers with weights along the main path: the stem convolution, two
      convolutions per block, and the classifier. Shortcut projections are not
      counted. */
  function WeightedDepth(n: Net): nat {
    1 + 2 * |Blocks(n)| + 1
  }

  function Build(p: Preset, numClasses: nat, pretrained: Pretrained, sparse: bool): Result<Net, ConfigError> {
    NewNetwork(StageList(p), numClasses, pretrained, sparse)
  }

  /** Every preset has the form `[k, k, k]` for its `k` in 1..5, builds whenever
      `pretrained` is `False`, and then has `k` blocks per stage and as many
      weighted layers as its name says; a pretrained request is refused. */
  lemma PresetShape(p: Preset, numClasses: nat, sparse: bool)
    ensures exists k :: 1 <= k <= 5 && StageList(p) == [k, k, k]
    ensures Build(p, numClasses, NotFalse, sparse) == Failure(PretrainedUnsupported)
    ensures Build(p, numClasses, IsFalse, sparse).Success?
    ensures var n := Build(p, numClasses, IsFalse, sparse).value;
      && |n.layer1| == |n.layer2| == |n.layer3| == StageList(p)[0]
      && WeightedDepth(n) == NamedDepth(p)
  {
    var k := StageList(p)[0];
    assert StageList(p) == [k, k, k];
    var n := Build(p, numClasses, IsFalse, sparse).value;
    StagePlan(StageList(p), numClasses, sparse, n);
    BlockCount(StageList(p), numClasses, sparse, n);
  }

  /** The `resnet20` scenario with ten classes on 3-channel images: nine
      blocks; the dense network yields ten logits for any metadata and never
      consults a masking unit; the sparse network refuses to run without
      metadata and otherwise yields ten logits, the same metadata handle, and
      one masking-unit call for each of the nine blocks. */
  lemma {:induction false} ResNet20Scenario<M>(sparse: bool, meta: Option<M>)
    ensures Build(ResNet20, 10, IsFalse, sparse).Success?
    ensures var n := Build(ResNet20, 10, IsFalse, sparse).value;
      |Blocks(n)| == 9 && forall i :: 0 <= i < |Blocks(n)| ==> IsBasicBlock(Blocks(n)[i])
    ensures var n := Build(ResNet20, 10, IsFalse, sparse).value;
      !sparse ==> Forward(n, 3, meta) == Success(Output(10, meta, []))
    ensures var n := Build(ResNet20, 10, IsFalse, sparse).value;
      sparse && meta.None? ==> Forward(n, 3, meta) == Failure(MissingMeta)
    ensures var n := Build(ResNet20, 10, IsFalse, sparse).value;
      sparse && meta.Some? ==>
        && Forward(n, 3, meta).Success?
        && Forward(n, 3, meta).value.width == 10
        && Forward(n, 3, meta).value.meta == meta
        && |Forward(n, 3, meta).value.calls| == 9
  {
    PresetShape(ResNet20, 10, sparse);
    var n := Build(ResNet20, 10, IsFalse, sparse).value;
    ForwardContract(StageList(ResNet20), 10, sparse, n, 3, meta);
    BlockCount(StageList(ResNet20), 10, sparse, n);
  }
}
