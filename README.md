# YOLOv8 (QAT variant) as shape algebra

This project models the network definition in `nets/nn.py` as a shape algebra.
It covers the blocks (Conv, Residual, CSP, SPP), the backbone (DarkNet), the
feature pyramid (DarkFPN), the detection head, the YOLO model with its
stride derivation, the QAT wrapper and the six `yolo_v8_*` factories.

A feature map is reduced to its shape `Shape(c, h, w)`. The batch dimension is
dropped, because no block changes it. Each block becomes a function from a shape to
`Option<Shape>`. `None` stands for the shape error torch would raise: a channel
count that does not match a convolution's declared input width, a convolution
declared with no output channels, a padded side shorter than the kernel, an
empty map given to pooling or upsampling, a concatenation of maps of different
sizes, or an index past the end of a module list.

Modules, one per file:

- `Tensors` (`tensors.dfy`): the torch operators. These are the sliding-window
  size formula shared by convolution and max-pooling (floor((n + 2p - k) / s) + 1),
  `torch.cat` along channels, `torch.chunk(2)` along channels, nearest
  upsampling by 2, and max-pooling.
- `Blocks` (`blocks.dfy`): Conv, Residual, CSP and SPP. CSP has two forms. One is
  a closed-form reference function. The other is the imperative forward pass,
  with the growing `y_list`, proved equal to it.
- `Backbone` (`backbone.dfy`): DarkNet and its five stages.
- `Pyramid` (`pyramid.dfy`): DarkFPN.
- `Detect` (`detect.dfy`): the Head layers and the `Head` class.
- `Model` (`model.dfy`): YOLO and its dummy pass, QAT, and the factories.

Main results:

- A CSP block closes exactly when its width is positive and either even, or paired
  with at most one Residual block (and width 1 rules out that one block). `CspWidthOkIff` states
  this.
- In eval mode, or whenever every batch-normalised map holds more than one value
  per channel, the whole network accepts an input exactly under five conditions:
  - the input has `width[0]` channels;
  - each side `n` satisfies `n >= 1` and `ceil(n / 8) % 4 == 0`;
  - the stem width `width[1]` is positive and every CSP block closes;
  - the SPP width is even and at least 2;
  - there is at least one class.

  When it accepts, it returns three maps of `nc + 4` channels, at 1/8, 1/16 and
  1/32 of each side, rounded up, in p3, p4, p5 order.
- Divisibility of a side by 32 is sufficient but not necessary for the shapes to
  close. A side of 25 passes the shape algebra, because ceil(25 / 8) = 4. Under the
  same proviso as above: with a batch of one in training mode, such an input makes p5
  1 x 1, and batch normalisation refuses it.
- The 256 x 256 dummy pass yields heights 32, 16 and 8. The strides are
  therefore 8, 16 and 32 for every width list and depth list that closes and every
  positive class count.
- Every width and depth list of the six factories closes.

## Model

| member | source | states |
|---|---|---|
| `Tensors.Window` | nets/nn.py:20 | A padded side no shorter than the kernel gives a positive length, and torch refuses any other. An odd kernel at stride 1 with padding (k-1)/2 keeps the side. The 3x3 stride-2 window halves it, rounding up. |
| `Tensors.WindowRounding` | nets/nn.py:20 | The window count rounds down: the last window starts inside the padded side, and one more stride would run past it. |
| `Tensors.ChannelsAppend` | nets/nn.py:67 | Appending a map to a list adds its channels to the list's total. |
| `Tensors.Cat` | nets/nn.py:131-134 | `torch.cat` along channels accepts exactly a non-empty list of maps of one spatial size. The result has the sum of their channels and that common size. |
| `Tensors.CatPair` | nets/nn.py:131-134 | Two maps concatenate exactly when they share height and width. The result carries the sum of their channels. |
| `Tensors.Chunk2` | nets/nn.py:55 | Splitting in two keeps the total channels and the spatial size. The second chunk has floor(c/2) channels. A single channel stays one chunk. |
| `Tensors.Upsample2` | nets/nn.py:122 | Nearest upsampling by 2 accepts exactly maps with at least one channel and non-empty sides. It keeps the channels and makes each side even, and a 3x3 stride-2 Conv brings it back to the original side. |
| `Tensors.MaxPool` | nets/nn.py:77 | Pooling with padding k/2 accepts exactly maps with at least one channel and non-empty sides, and keeps the channels. It keeps the side for an odd window and grows it by one for an even window. |
| `Blocks.ApplyConv` | nets/nn.py:17-25 | Accepts exactly the declared input width, when out_ch is positive, with sides no shorter than the padded kernel. Emits out_ch channels. Odd kernels at stride 1 keep the size; the 3x3 stride-2 Conv halves it, rounding up. |
| `Blocks.ApplyResidualBranch` | nets/nn.py:32-37 | The two 3x3 Convs accept exactly a non-empty map of ch channels, for a positive ch, and return its shape, so the skip addition always matches. |
| `Blocks.Add` | nets/nn.py:42 | The skip addition is defined exactly when both addends have one shape, which the sum keeps. |
| `Blocks.ApplyResidual` | nets/nn.py:28-44 | With or without the addition, a Residual block accepts exactly non-empty maps of ch channels, for a positive ch, and preserves their shape. |
| `Blocks.CspSteps` | nets/nn.py:50-57 | conv1 accepts exactly a non-empty map of in_ch channels when out_ch is positive, and keeps its size. The residual chain accepts the last chunk exactly when out_ch is not 1. conv2 accepts the concatenation exactly when out_ch is positive and the widths close. |
| `Blocks.ApplyCsp` | nets/nn.py:47-69 | A CSP block accepts exactly a non-empty map of in_ch channels when its widths close (out_ch positive included). It then returns out_ch channels at the same size. |
| `Blocks.CspForward` | nets/nn.py:54-69 | The loop that appends one Residual output per block gives the reference result. Whenever the run reaches conv2, even when conv2 then refuses the width, the list concatenates to out_ch + n*(out_ch/2) channels at the input's size. With out_ch other than 1 the list holds 2 + n maps. |
| `Blocks.CspWidthOkIff` | nets/nn.py:50-52 | conv2's declared width (2+n)*out_ch//2 matches the concatenation, for a positive out_ch, exactly when out_ch is even, n is 0, or n is 1 and out_ch is not 1. |
| `Blocks.CatFour` | nets/nn.py:83 | Four maps of one channel count concatenate exactly when they share the first one's size. The result has four times its channels. |
| `Blocks.ApplySpp` | nets/nn.py:72-83 | SPP accepts exactly a non-empty map of in_ch channels when the window is odd, in_ch is even and at least 2 (so that conv1 leaves a channel to pool), and out_ch is positive. It keeps the size and emits out_ch channels. |
| `Backbone.MakeDarkNet` | nets/nn.py:86-108 | Each stage consumes the width its predecessor emits. Stages three to five emit width[3], width[4], width[5]. Stages two and five use depth[0]. |
| `Backbone.ApplyDarkNet` | nets/nn.py:110-116 | The three returned maps carry the widths of the blocks that produce them. |
| `Backbone.DownPositive` | nets/nn.py:89-108 | Halving a non-empty side any number of times, rounding up, leaves it non-empty. |
| `Backbone.StageShape` | nets/nn.py:92-106 | A Conv(3, 2) + CSP stage accepts exactly a non-empty map of its input width when its CSP closes (which needs a positive width), and halves the size, rounding up. |
| `Backbone.DarkNetShapes` | nets/nn.py:86-116 | DarkNet accepts exactly non-empty inputs of width[0] channels when width[1] is positive and all its blocks close. It returns width[3..5] channels at ceil(n/8), ceil(n/16), ceil(n/32). |
| `Pyramid.MakeDarkFpn` | nets/nn.py:119-128 | The CSP inputs are the concatenated widths. The stride-2 Convs consume the CSP outputs. No block adds its input back. |
| `Pyramid.ApplyDarkFpn` | nets/nn.py:130-135 | The three returned maps carry the widths of the CSP blocks h2, h4, h6. |
| `Pyramid.DarkFpnShapes` | nets/nn.py:119-135 | DarkFPN accepts exactly maps of width[3..5] channels whose sides double from p5 to p4 to p3, with p5 non-empty and the CSPs closing. It returns the shapes it was given. |
| `Detect.BoxWidth` | nets/nn.py:145 | The box hidden width is max(64, ch[0]//4). |
| `Detect.ClsWidth` | nets/nn.py:146 | The class hidden width is max(80, ch[0], nc). |
| `Detect.MakeHead` | nets/nn.py:148-158 | One box and one class branch per scale. Branch i takes ch[i]. All branches share the hidden widths computed from ch[0]. |
| `Detect.ApplyBranch` | nets/nn.py:148-158 | A branch emits the channels of its final bare convolution. |
| `Detect.ApplyScale` | nets/nn.py:161-171 | One scale emits box channels plus class channels. |
| `Detect.ApplyHead` | nets/nn.py:160-173 | The head returns exactly three outputs. |
| `Detect.BranchShape` | nets/nn.py:148-158 | A branch accepts exactly non-empty maps of its input width, when its hidden and output widths are positive, and keeps their size. |
| `Detect.ScaleShape` | nets/nn.py:161-171 | With at least one class, each scale turns ch[i] channels into nc + 4 at the same size, whatever ch[i] is. With no class it accepts nothing. |
| `Detect.HeadShapes` | nets/nn.py:160-173 | The head accepts exactly three non-empty maps of the widths it was built for, when nc is at least 1. It returns nc + 4 channels per map at their sizes, in p3, p4, p5 order. |
| `Detect.Head.constructor` | nets/nn.py:139-158 | no = nc + 4. The stride starts as one zero per scale. The layers are those of MakeHead. |
| `Model.ApplyYolo` | nets/nn.py:185-188 | YOLO's forward pass returns three outputs. |
| `Model.FitsIff` | nets/nn.py:131-134 | The pyramid's doubling conditions on the backbone outputs hold exactly when ceil(n/8) is divisible by 4. |
| `Model.DivisibleFits` | nets/nn.py:180 | A side divisible by 32 fits and comes out at exactly n/8, n/16, n/32. |
| `Model.FitsNotOnlyMultiples` | nets/nn.py:131-134 | Divisibility by 32 is not necessary: a side of 25 fits. |
| `Model.NetworkShapes` | nets/nn.py:175-188 | The whole network answers as `Answers` spells out: it accepts exactly inputs of width[0] channels whose sides fit, when all blocks close and nc is at least 1. It returns nc + 4 channels at ceil(n/8), ceil(n/16), ceil(n/32). |
| `Model.BuiltShapes` | nets/nn.py:185-188 | The same statement for the parts a YOLO object holds. |
| `Model.Strides` | nets/nn.py:182 | One stride per output. Each stride times its output's height is 256. |
| `Model.SquareShapes` | nets/nn.py:180-182 | A square input whose side is a positive multiple of 32 passes exactly when all blocks close and nc is at least 1. It comes out at 1/8, 1/16, 1/32 of the side. |
| `Model.DummyPass` | nets/nn.py:180-182 | The 256 x 256 dummy pass succeeds exactly when all blocks close and nc is at least 1. It then yields 32 x 32, 16 x 16 and 8 x 8 maps of nc + 4 channels. |
| `Model.DummyStrides` | nets/nn.py:182 | Those outputs give strides [8, 16, 32]. |
| `Model.DummyForward` | nets/nn.py:180-182 | Running the built network on the dummy input gives exactly what DummyPass states. |
| `Model.Yolo.constructor` | nets/nn.py:176-183 | Builds DarkNet, DarkFPN and a Head on width[3..5]. Stores 256 / height of each dummy output, which is [8, 16, 32], as the head's stride and mirrors it on the model. |
| `Model.Yolo.Forward` | nets/nn.py:185-188 | The built model answers any input as NetworkShapes states. |
| `Model.Qat.constructor` | nets/nn.py:192-199 | Mirrors the model's nc, no and stride. |
| `Model.DequantizeAll` | nets/nn.py:204 | Dequantising each output of a list gives back the same list of shapes. |
| `Model.Qat.Forward` | nets/nn.py:201-204 | Answers exactly what the wrapped model answers: None when the model fails, otherwise the model's output shapes. |
| `Model.Widths` | nets/nn.py:206-240 | Every factory width list has 6 entries, 3 input channels and positive even stage widths. |
| `Model.Depths` | nets/nn.py:206-240 | Every factory depth list has 3 positive entries. |
| `Model.VariantsConsistent` | nets/nn.py:206-240 | Every CSP and SPP block of every factory variant closes. |
| `Model.Build` | nets/nn.py:206-240 | Each factory builds a YOLO from its variant's lists and a positive num_classes (default 80). The head and the model both have strides [8, 16, 32]. |
| `Model.SmallestVariant` | nets/nn.py:207-210 | yolo_v8_n(80) on a 3 x 256 x 256 image gives 84-channel maps of 32 x 32, 16 x 16 and 8 x 8. |

## Left out

- Numerics are not modelled: weights, batch normalisation and the activation. SiLU here computes relu(x) * sigmoid(x). None of these changes a shape.
- Quantised arithmetic is not modelled: QuantStub, DeQuantStub, the quantised add in Residual, and the dequantise/requantise path in CSP. Quantising and dequantising are modelled as shape identities, which is what they are for shapes.
- Model.Qat.Forward: states equality with the model's output shapes, not equality of values, because values are not modelled.
- Model.Yolo.constructor: requires that every block closes and that num_classes is at least 1. That is exactly the case in which the dummy pass does not fail (DummyPass); the failing path, including a class count of 0, is not modelled as a constructor outcome.
- Model.Build: requires num_classes >= 1. With 0 classes the classification branch's final convolution has no output channels, which the model treats as an error, so `yolo_v8_*(0)` has no constructed model here.
- Detect.Head.constructor: requires a non-empty ch. With an empty ch the source raises an IndexError at `ch[0]`.
- Detect.MakeHead: requires a non-empty ch, for the same reason.
- The batch dimension is left out. Every block keeps it, but in training mode (the mode every module is in right after construction) batch normalisation refuses a map with a single value per channel, which needs the batch dimension to decide.
- Model.NetworkShapes: its acceptance condition holds in eval mode, or when every normalised map has more than one value per channel. With a batch of one in training mode, an input whose two sides both lie between 25 and 32 makes p5 1 x 1, and torch refuses them while the model accepts them. The 256 x 256 dummy pass is not affected, since its smallest map is 8 x 8.
- Model.FitsNotOnlyMultiples: a side of 25 fits the shape algebra. With a batch of one in training mode, torch still refuses it, for the reason above.
- Model.Yolo.Forward, Model.BuiltShapes and Model.Qat.Forward inherit the same proviso from NetworkShapes.
- Lists too short for the indices the source uses are excluded by requires, not modelled as the IndexError the source raises. This covers `|width| >= 6` and `|depth| >= 3` on MakeDarkNet, MakeDarkFpn, Network and the YOLO constructor, and `|ch| >= 1` on BoxWidth and ClsWidth.
- Model.Strides: computes exact reals, where the source builds a float32 tensor. The values agree for the heights 32, 16 and 8 the dummy pass yields.
- Stride sharing: the source makes the model's and the QAT wrapper's `stride` name the head's stride tensor itself. The model copies the value. Nothing in the network definition mutates that tensor in place, so no behaviour is lost.
- Blocks.Add: defined only for two addends of one shape; torch's broadcasting of unequal but compatible shapes is left out. The two addends always have one shape (`ApplyResidualBranch`).
- `make_anchors` is imported but unused by the network definition; `utils/util.py` is not part of this model.
- Module registration and training-time behaviour are not modelled. This includes batch-norm momentum and QAT fusion.
- Convolutions are modelled with dilation 1 and groups 1. These are the only settings the source uses.
