/** The CIFAR residual block (`BasicBlock` in classification/models/resnet_32x32.py).

    A feature tensor is abstracted to its channel count; every layer is
    abstracted to the channel counts it declares and checks. The side-channel
    `meta` is an opaque handle of any type `M`: the block never looks inside it,
    and whatever the external masking unit does to the object it refers to is
    outside this model. Calls into the masking unit are recorded as a trace. */
module Block {
  import opened Wrappers

  /** `BasicBlock.expansion`: a block's output width is `planes * Expansion`. */
  const Expansion: nat := 1

  /** A convolution layer, reduced to the shape information it carries. */
  datatype Conv = Conv(inChannels: nat, outChannels: nat, kernelSize: nat, stride: nat)

  /** A projection shortcut: a 1x1 convolution followed by batch norm over `norm` channels. */
  datatype Shortcut = Shortcut(conv: Conv, norm: nat)

  /** The arguments the masking unit of a sparse block is built with. */
  datatype MaskerConfig = MaskerConfig(channels: nat, stride: nat, dilateStride: nat)

  /** Dense blocks have no masking unit; sparse blocks own exactly one. */
  datatype Mode = Dense | Sparse(masker: MaskerConfig)

  datatype BlockSpec = BlockSpec(
    inplanes: nat,
    planes: nat,
    stride: nat,
    conv1: Conv,
    bn1: nat,
    conv2: Conv,
    bn2: nat,
    downsample: Option<Shortcut>,
    mode: Mode)

  /** One invocation of a block's masking unit: its configuration and the channel
      count of the feature map it was handed. */
  datatype MaskerCall = MaskerCall(unit: MaskerConfig, inputChannels: nat)

  /** What a forward call hands back: the output channel count, the metadata
      handle, and the masking-unit invocations made on the way. */
  datatype Output<M> = Output(width: nat, meta: Option<M>, calls: seq<MaskerCall>)

  /** Runtime failures of a forward pass: a layer given a tensor of the wrong
      width (raised by the tensor library), or a sparse block run without
      metadata (the `assert meta is not None`). */
  datatype ForwardError = ShapeMismatch(expected: nat, actual: nat) | MissingMeta

  /** The 3x3 convolution helper of the model family. Its padding lives in a
      helper module that is not part of this model; only channels and stride are kept. */
  function Conv3x3(inChannels: nat, outChannels: nat, stride: nat): Conv {
    Conv(inChannels, outChannels, 3, stride)
  }

  /** `BasicBlock.__init__`: two 3x3 convolutions, two norms over `planes`
      channels, the given shortcut, and a masking unit exactly when `sparse`. */
  function NewBlock(inplanes: nat, planes: nat, stride: nat, downsample: Option<Shortcut>, sparse: bool): (b: BlockSpec)
    ensures b.mode.Sparse? <==> sparse
    ensures sparse ==> b.mode.masker == MaskerConfig(inplanes, stride, 1)
    ensures b.conv1.inChannels == inplanes && b.conv1.stride == stride
    ensures b.conv1.outChannels == b.bn1 == b.conv2.inChannels == b.conv2.outChannels == b.bn2 == planes
    ensures b.conv2.stride == 1
    ensures b.downsample == downsample
  {
    BlockSpec(
      inplanes, planes, stride,
      Conv3x3(inplanes, planes, stride), planes,
      Conv3x3(planes, planes, 1), planes,
      downsample,
      if sparse then Sparse(MaskerConfig(inplanes, stride, 1)) else Dense)
  }

  /** A block as `BasicBlock.__init__` builds it. */
  predicate IsBasicBlock(b: BlockSpec) {
    b == NewBlock(b.inplanes, b.planes, b.stride, b.downsample, b.mode.Sparse?)
  }

  /** Running a convolution checks the input width against the declared one. */
  function ApplyConv(c: Conv, x: nat): Result<nat, ForwardError> {
    if x == c.inChannels then Success(c.outChannels) else Failure(ShapeMismatch(c.inChannels, x))
  }

  /** Batch norm over `width` features accepts exactly that many channels and keeps them. */
  function ApplyNorm(width: nat, x: nat): Result<nat, ForwardError> {
    if x == width then Success(x) else Failure(ShapeMismatch(width, x))
  }

  /** Channel count of `a + b` under the tensor library's broadcasting rule:
      equal sizes combine, and a size of 1 stretches to the other. */
  function Broadcast(a: nat, b: nat): (r: Result<nat, ForwardError>)
    ensures r.Success? <==> (a == b || a == 1 || b == 1)
    ensures r.Success? ==> (r.value == a || r.value == b) && (a == b ==> r.value == a)
  {
    if a == b then Success(a)
    else if a == 1 then Success(b)
    else if b == 1 then Success(a)
    else Failure(ShapeMismatch(a, b))
  }

  /** Whether broadcasting succeeds, and the width it yields, do not depend on
      operand order, so `identity + x` at the sparse add has the shape
      `x + identity` would; only the reported sizes of a failure are ordered. */
  lemma BroadcastSymmetric(a: nat, b: nat)
    ensures Broadcast(a, b).Success? <==> Broadcast(b, a).Success?
    ensures Broadcast(a, b).Success? ==> Broadcast(a, b).value == Broadcast(b, a).value
    ensures Broadcast(a, b).Failure? ==> Broadcast(a, b).error == ShapeMismatch(a, b)
  {
  }

  /** In-place `out += identity`: legal exactly when broadcasting the two
      operands yields `out`'s own shape, which the result then keeps. So the
      identity branch must have `out`'s width or width 1. */
  function AddInPlace(out: nat, identity: nat): (r: Result<nat, ForwardError>)
    ensures r.Success? <==> Broadcast(identity, out) == Success(out)
    ensures r.Success? <==> (identity == out || identity == 1)
    ensures r.Success? ==> r.value == out
  {
    var s :- Broadcast(identity, out);
    if s == out then Success(out) else Failure(ShapeMismatch(out, identity))
  }

  /** The identity branch: the input itself, or its projection through the shortcut. */
  function Identity(downsample: Option<Shortcut>, x: nat): (r: Result<nat, ForwardError>)
    ensures downsample.None? ==> r == Success(x)
    ensures downsample.Some? ==> (r.Success? <==> x == downsample.value.conv.inChannels && downsample.value.conv.outChannels == downsample.value.norm)
    ensures r.Success? && downsample.Some? ==> r.value == downsample.value.norm
  {
    match downsample
    case None => Success(x)
    case Some(s) =>
      var h :- ApplyConv(s.conv, x);
      ApplyNorm(s.norm, h)
  }

  /** The residual path conv1, bn1, relu, conv2, bn2. ReLU keeps the shape, and
      the masked primitives of the sparse path are taken to check and produce
      the same channel counts as the layers they are handed. */
  function ResidualPath(b: BlockSpec, x: nat): (r: Result<nat, ForwardError>)
    ensures r.Success? ==> x == b.conv1.inChannels && r.value == b.bn2
    ensures IsBasicBlock(b) ==> (r.Success? <==> x == b.inplanes)
    ensures IsBasicBlock(b) && r.Success? ==> r.value == b.planes
  {
    var h1 :- ApplyConv(b.conv1, x);
    var h2 :- ApplyNorm(b.bn1, h1);
    var h3 :- ApplyConv(b.conv2, h2);
    ApplyNorm(b.bn2, h3)
  }

  /** `BasicBlock.forward` on `(x, meta)`. The shortcut runs first. A dense block
      never inspects `meta`; a sparse block fails without it, then calls its
      masking unit on `(x, meta)`. Either way the block hands back the `meta` it
      received. */
  function BlockForward<M>(b: BlockSpec, x: nat, meta: Option<M>): (r: Result<Output<M>, ForwardError>)
    ensures r.Success? ==> r.value.meta == meta
    ensures r.Success? ==> x == b.conv1.inChannels
    ensures b.mode.Sparse? && meta.None? ==> r.Failure?
    ensures b.mode.Dense? && r.Success? ==> r.value.calls == []
    ensures b.mode.Sparse? && r.Success? ==> r.value.calls == [MaskerCall(b.mode.masker, x)]
  {
    var identity :- Identity(b.downsample, x);
    match b.mode
    case Dense =>
      var out :- ResidualPath(b, x);
      var sum :- AddInPlace(out, identity);
      Success(Output(sum, meta, []))
    case Sparse(masker) =>
      if meta.None? then Failure(MissingMeta)
      else
        var out :- ResidualPath(b, x);
        var sum :- Broadcast(identity, out);
        Success(Output(sum, meta, [MaskerCall(masker, x)]))
  }

  /** The identity branch of an input of width `inplanes` has exactly
      `planes * Expansion` channels, so the residual add needs no broadcasting. */
  predicate ResidualCompatible(b: BlockSpec) {
    Identity(b.downsample, b.inplanes) == Success(b.planes * Expansion)
  }

  /** A dense block's result does not depend on the metadata it is given,
      apart from handing that metadata back. */
  lemma DenseIgnoresMeta<M>(b: BlockSpec, x: nat, m1: Option<M>, m2: Option<M>)
    requires b.mode.Dense?
    ensures BlockForward(b, x, m1).Success? <==> BlockForward(b, x, m2).Success?
    ensures BlockForward(b, x, m1).Success? ==>
      BlockForward(b, x, m1).value.width == BlockForward(b, x, m2).value.width
      && BlockForward(b, x, m1).value.calls == BlockForward(b, x, m2).value.calls == []
  {
  }

  /** A well-built, residual-compatible block fed its declared input width:
      a dense block always succeeds, a sparse block succeeds exactly when
      metadata is present and otherwise raises the missing-metadata failure.
      On success the output has `planes` channels and the metadata is returned
      unchanged. */
  lemma BlockForwardContract<M>(b: BlockSpec, meta: Option<M>)
    requires IsBasicBlock(b) && ResidualCompatible(b)
    ensures b.mode.Dense? ==> BlockForward(b, b.inplanes, meta) == Success(Output(b.planes, meta, []))
    ensures b.mode.Sparse? && meta.None? ==> BlockForward(b, b.inplanes, meta) == Failure(MissingMeta)
    ensures b.mode.Sparse? && meta.Some? ==>
      BlockForward(b, b.inplanes, meta) == Success(Output(b.planes, meta, [MaskerCall(b.mode.masker, b.inplanes)]))
  {
  }

  /** A block fed a width other than its `inplanes` always fails. */
  lemma WrongWidthFails<M>(b: BlockSpec, x: nat, meta: Option<M>)
    requires x != b.inplanes && IsBasicBlock(b)
    ensures BlockForward(b, x, meta).Failure?
  {
  }
}
