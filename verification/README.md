# ResNet for 32x32 images: architecture and metadata threading

This project models the discrete layer of `classification/models/resnet_32x32.py`, the CIFAR ResNet
of the dynamic-sparse-convolution repository, and proves its properties in Dafny:

- how a residual block (`BasicBlock`) is configured and what its forward pass checks and returns;
- how `_make_layer` turns a stage request `(planes, blocks, stride)` and the running `inplanes`
  counter into a sequence of blocks, and when it adds a projection shortcut;
- how `ResNet_32x32` validates its arguments, chains three stages of widths 16/32/64 with
  first-block strides 1/2/2 between a 16-channel stem and a 64-input classifier, and threads the
  side-channel `meta` through the stages;
- the presets `resnet8` to `resnet32`.

A tensor is abstracted to its channel count. Every layer is abstracted to the widths it declares,
and running a layer checks the input width as the tensor library would. `meta` is an opaque
handle `Option<M>` of any type `M`. The block hands back the very handle it received, so a
dense block cannot depend on the handle's contents. Each call of a sparse block's masking unit
is recorded in a trace (`MaskerCall`). This lets the model say that every sparse block consults
its masking unit without saying what the unit computes.

Modules, one per component:

| file | module | models |
|---|---|---|
| `wrappers.dfy` | `Wrappers` | `Option` (value or `None`) and `Result` (return or raise) |
| `block.dfy` | `Block` | `BasicBlock.__init__` and `BasicBlock.forward` |
| `stage.dfy` | `Stage` | `_make_layer` and the `nn.Sequential` run of a stage |
| `resnet.dfy` | `ResNet` | `ResNet_32x32.__init__` and `ResNet_32x32.forward` |
| `presets.dfy` | `Presets` | `resnet8`, `resnet14`, `resnet20`, `resnet26`, `resnet32` |

Two facts about the code shape the model:

- **Metadata returned by a sparse block.** A sparse block hands back the `meta` it received
  (line 60). Of the masking unit's result it reads only the `dilate` and `std` masks (lines 50-51).
- **Stage block counts.** Entries of `layers` may be any integer. A count of 1 or less still
  yields a one-block stage (lines 107-110), so a stage has `max(blocks, 1)` blocks.

The residual add is modelled with the tensor library's broadcasting rule on the channel axis.
The dense path's in-place `out += identity` (line 47) accepts an identity branch with `planes`
channels or with 1 channel. The sparse path's `identity + ...` (line 57) broadcasts both ways.
`Block.BlockForwardContract` and `ResNet.BlocksBuilt` together show that blocks built by the
network always have an identity branch of exactly `planes` channels, so broadcasting never happens.

## Model

| member | source | states |
|---|---|---|
| Block.NewBlock | classification/models/resnet_32x32.py:18-31 | a block has a masking unit exactly when `sparse` holds, built with `channels=inplanes`, the block's stride and dilation stride 1; conv1 reads `inplanes` channels at the block stride, and every later layer is `planes` wide with stride 1 |
| Block.Identity | classification/models/resnet_32x32.py:37-39 | without a shortcut the identity branch is the input unchanged; with one, it succeeds exactly when the input matches the 1x1 convolution's input width and then has the norm's width |
| Block.ResidualPath | classification/models/resnet_32x32.py:42-46 | for a block as built, the conv/norm chain succeeds exactly when the input has `inplanes` channels, and it then yields `planes` channels |
| Block.AddInPlace | classification/models/resnet_32x32.py:47 | the in-place `out += identity` is legal exactly when broadcasting the two operands yields `out`'s own width, which holds exactly when the identity branch has `out`'s width or width 1; the result keeps `out`'s width |
| Block.BroadcastSymmetric | classification/models/resnet_32x32.py:57 | the out-of-place `identity + x` succeeds, and yields the same width, whichever operand comes first; a failure reports the two widths in operand order |
| Block.BlockForward | classification/models/resnet_32x32.py:35-60 | any successful forward returns the received `meta` and required conv1's input width; a sparse block never succeeds without `meta`; a dense block never calls a masking unit, and a sparse one calls its own unit once on the input |
| Block.DenseIgnoresMeta | classification/models/resnet_32x32.py:41-47 | a dense block's success, output width and masking-unit calls are the same whatever `meta` it is given |
| Block.BlockForwardContract | classification/models/resnet_32x32.py:35-60 | a block as built, with a matching identity branch and fed `inplanes` channels: dense always yields `planes` channels; sparse fails with the missing-metadata error exactly when `meta` is absent; the received `meta` comes back |
| Block.WrongWidthFails | classification/models/resnet_32x32.py:20 | a block as built refuses any input whose width differs from `inplanes` |
| Stage.ShortcutFor | classification/models/resnet_32x32.py:98-104 | a shortcut is built exactly when `stride != 1 or inplanes != planes * expansion`; it is a 1x1 convolution at the stage stride, and the identity branch of an `inplanes`-wide input always has `planes * expansion` channels |
| Stage.RepeatBlocks | classification/models/resnet_32x32.py:109-110 | the loop appends exactly `count` blocks; each reads the updated counter's width and has stride 1, no shortcut and the stage's sparse flag |
| Stage.MakeLayer | classification/models/resnet_32x32.py:97-112 | a stage has `max(blocks, 1)` blocks, and afterwards the counter is `planes * expansion`; the first block reads the old counter at the stage stride and has a shortcut exactly when one is needed; later blocks read `planes` channels at stride 1 with no shortcut; every block is `planes` wide with a matching identity branch and the network's sparse flag |
| Stage.MakeLayerChained | classification/models/resnet_32x32.py:99-110 | each block of a stage reads what the previous block wrote; the first block reads the old counter, and the last writes the new one |
| Stage.ChainedIndexed | classification/models/resnet_32x32.py:107-110 | chaining holds exactly when the first block reads the starting width and every later block's `inplanes` equals the previous block's `planes` |
| Stage.ChainedAppend | classification/models/resnet_32x32.py:83-85 | a chain of consecutive stages holds exactly when each stage chains from where the previous one ended; the final width composes |
| Stage.LayerForward | classification/models/resnet_32x32.py:112 | a successful sequential run returns the received `meta`, required the first block's `inplanes`, and made exactly one masking-unit call per sparse block, in order |
| Stage.MaskerCallsPerBlock | classification/models/resnet_32x32.py:50 | in a sparse stage the i-th masking-unit call is block i's own unit on its input width, one call per block; a dense stage makes none |
| Stage.ChainedLayerForward | classification/models/resnet_32x32.py:36-60 | a chained run of built blocks sharing one mode: dense always succeeds; sparse fails with the missing-metadata error exactly when `meta` is absent; success yields the last block's width, the same `meta`, and the per-block call trace |
| ResNet.NewNetwork | classification/models/resnet_32x32.py:69-87 | construction fails with `NotImplementedError` whenever `pretrained` is not `False`; otherwise it fails exactly when `layers` does not have three entries; on success the network carries the sparse flag and one logit per class |
| ResNet.Forward | classification/models/resnet_32x32.py:114-126 | a successful forward returns the received `meta` with `num_classes` logits, required a 3-channel image at the stem, and called every sparse block's masking unit once, in order |
| ResNet.StagePlan | classification/models/resnet_32x32.py:83-85 | the stages hold `max(layers[i], 1)` blocks of widths 16/32/64; first-block strides are 1/2/2; every later block reads its stage width at stride 1 with no shortcut |
| ResNet.ShortcutPlacement | classification/models/resnet_32x32.py:99 | stage 1's first block has no shortcut; the first blocks of stages 2 and 3 (reading 16 and 32 channels) each have one |
| ResNet.BlockCount | classification/models/resnet_32x32.py:106-112 | the network's block count is the sum over the three stages of `max(layers[i], 1)` |
| ResNet.BlocksBuilt | classification/models/resnet_32x32.py:107-110 | every block carries the network's `sparse` flag and has an identity branch as wide as its output; a sparse block's masking unit uses the block's `inplanes`, stride and dilation stride 1 |
| ResNet.NetworkChained | classification/models/resnet_32x32.py:79-87 | the stem writes 16 channels, the initial counter; each block reads what the previous one wrote; the last block writes 64 channels, the classifier's input width |
| ResNet.ForwardContract | classification/models/resnet_32x32.py:114-126 | on a constructed network a non-3-channel input fails at the stem; a dense network gives `num_classes` logits for any `meta`, with no masking-unit calls; a sparse one fails exactly when `meta` is absent and otherwise calls one masking unit per block; the received `meta` is returned |
| Presets.PresetShape | classification/models/resnet_32x32.py:128-141 | each preset passes `[k, k, k]` for its k in 1..5; it builds unless pretrained is requested; it then has k blocks per stage and `2 * blocks + 2` weighted layers, as its name says |
| Presets.ResNet20Scenario | classification/models/resnet_32x32.py:134-135 | `resnet20` with ten classes has nine blocks; densely it yields ten logits for any metadata, with no masking-unit calls; sparse, it fails without metadata and otherwise yields ten logits, the same metadata and nine masking-unit calls |

## Left out

- Tensor values: convolution, batch norm, ReLU, average pooling and the linear layer compute floating-point numbers. Only their channel bookkeeping is modelled. The batch dimension is not modelled.
- Masking: the masking unit and the masked primitives (`conv3x3`, `bn_relu`, `apply_mask`) come from an external sparse-convolution library whose code is not part of this model. The masks themselves, and any value equivalence between the sparse and dense paths, are not modelled. The masked primitives are taken to check and produce the same channel counts as the layers they are handed. A masking-unit call is modelled as always returning.
- Metadata contents: `meta` is a mutable object in the source. The model keeps only its identity, which the block returns unchanged. What the masking unit writes into that object is outside the model.
- Weight initialisation (lines 89-95): random initialisation by reflection over sub-modules.
- Spatial sizes: the 3x3 convolution's padding is defined in a helper module that is not part of this model. `AvgPool2d(8)` (line 86) is not represented; it is taken to leave a 1x1 map, as it does for 32x32 inputs. The flattened width therefore equals the channel count. A spatial mismatch, such as a hand-built stride-2 block without a shortcut, cannot be seen by the model.
- ResNet.Forward: does not model the classifier failing on inputs other than 32x32, because spatial sizes are not modelled. Its requires clause, that every block is as `BasicBlock.__init__` builds it, is the same representation invariant as for Stage.LayerForward.
- Stage.LayerForward: requires every block to be as `BasicBlock.__init__` builds it. This is a representation invariant of `BlockSpec`, not a demand the source places on callers.
- Block.Identity: a user-supplied `downsample` module other than the 1x1-convolution-plus-norm projection is not modelled.
- Tensor-library argument validation is not modelled. This covers zero or negative channel counts, a zero stride and a negative `num_classes`. Channel counts, strides and class counts are natural numbers in the model.
- `pretrained` is modelled as the identity test `is not False`: one value for the `False` object, one for everything else.
- Python's `-O` flag strips the `assert` statements. The model treats both asserts (lines 49 and 75) as active.
- Runtime behaviour: the `fast` flag (line 33) is set but never read, so it is not modelled. In-place ReLU aliasing, autograd and `Variable` are not modelled either.
- Stage block counts are integers. Non-integer entries of `layers`, which would make `range` raise, are not modelled.
