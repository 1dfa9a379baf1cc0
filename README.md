# cn24 confusion-matrix layer, tensor addressing and simple-layer binding

This Dafny project models three parts of the CN24 convolutional-network
library.

- **ConfusionMatrixLayer** (`src/net/ConfusionMatrixLayer.cpp`) is a terminal
  layer with three inputs: class scores, true class labels and sample weights.
  - `CreateOutputs` and `Connect` validate the inputs.
  - `Connect` allocates the `classes x classes` matrix and the per-class array,
    then resets them.
  - `FeedForward` adds every sample's weight to cell (predicted class, true
    class), to the true class's total, to the grand total, and, when the
    prediction is right, to the correct total.
  - `Print` derives two recognition rates. `PrintCSV` writes the matrix as CSV.
  - The class `ConfusionMatrixLayers.ConfusionMatrixLayer` keeps the
    accumulators in arrays that its methods update in place.
  - Each method is proved against value-level functions in module `Confusion`:
    `Zero` for Reset, `Record` for one sample and `Fold` for a batch. The
    invariants that tie the matrix to the totals are proved about those
    functions.
- **Tensor** (`include/cn24/util/Tensor.h`) holds the four shape fields,
  `elements_` and the data buffer.
  - `Offset` and `data_ptr` compute the mixed-radix element number (module
    `TensorShape`). It is proved in range and injective, and `Coordinates`
    inverts it.
  - The debug-build checks of `Offset` and of element access return a
    `Checked` value.
  - `Clear`, `Resize`, `Reshape`, `Shadow`, `Maximum` and `AbsMaximum` are
    methods on the class, specified to what the header documents.
- **SimpleLayer** (`include/cn24/net/SimpleLayer.h`) checks that there is one
  input and one output. Its bindings are set only when the layer's own
  two-tensor `Connect` accepts. That two-tensor `Connect`, which each kind of
  layer supplies, is the parameter `connectPair`: a function of the two data
  shapes. A layer whose check looks at anything other than the shapes is not
  covered.

The roles of the three inputs and of the matrix axes are as the code has them:
- The label input is the *second* input. `CreateOutputs` requires one element
  per sample in it, and `FeedForward` reads labels from it.
- The matrix row is the predicted class (`matrix_[pred * classes + true]`).
  `Print`'s caption `vCLS  ACT>` says so, and `PrintCSV` labels the rows with
  it.
- The unnormalized rate is `100 * right / total`, a percentage.

A debug build (`TENSORDEBUG`) is the parameter `debug`. Where a release build
has undefined behaviour, the method requires the condition that avoids it.

## Model

| member | source | states |
|---|---|---|
| `TensorShape.OffsetNested` | include/cn24/util/Tensor.h:132-135 | The offset formula is the mixed-radix number with digits sample, map, line, pixel. |
| `TensorShape.ElementsBySample` | include/cn24/util/Tensor.h:12-16 | The element count is the sample count times the elements per sample. |
| `TensorShape.SampleStart` | include/cn24/util/Tensor.h:132-135 | The first element of sample s sits at s times the elements per sample. |
| `TensorShape.OffsetBound` | include/cn24/util/Tensor.h:122-136 | Every in-range index has an offset below samples * maps * height * width. |
| `TensorShape.OffsetInSample` | include/cn24/util/Tensor.h:12-16 | The in-range indices of a sample address exactly its block of elements per sample, starting at sample * elements per sample. |
| `TensorShape.OffsetInjective` | include/cn24/util/Tensor.h:122-136 | Two in-range indices with the same offset are the same index. |
| `TensorShape.Coordinates` | include/cn24/util/Tensor.h:132-135 | Every element number below the element count is the offset of some in-range index, so offsets cover the buffer exactly. |
| `TensorShape.CoordinatesOfOffset` | include/cn24/util/Tensor.h:132-135 | Coordinates inverts the offset on in-range indices. |
| `TensorShape.SampleElementBound` | include/cn24/util/Tensor.h:12-16 | Element j of a sample lies inside the tensor. |
| `TensorShape.SampleEnd` | include/cn24/util/Tensor.h:12-16 | A whole sample, from its first element to one past its last, lies inside the tensor. |
| `TensorShape.SampleHasFirst` | include/cn24/util/Tensor.h:12-16 | A sample with at least one element has an in-range first element (0, 0, 0, sample). |
| `Tensors.Tensor.Empty` | include/cn24/util/Tensor.h:48-51 | The default Tensor has all four shape fields and the element count 0, no buffer, and is not a shadow. |
| `Tensors.Tensor.constructor` | include/cn24/util/Tensor.h:68-77 | Parameters in the order samples, width, height, maps; the shape is stored as samples, maps, height, width; a fresh buffer of the product size. |
| `Tensors.Tensor.Copy` | include/cn24/util/Tensor.h:53-59 | A deep copy: same shape, a fresh buffer with equal contents, owning. |
| `Tensors.Tensor.Move` | include/cn24/util/Tensor.h:61-66 | The new Tensor takes over shape, buffer and shadow flag; the source is left empty. |
| `Tensors.Tensor.Offset` | include/cn24/util/Tensor.h:119-136 | In a debug build, the offset is returned exactly when the index is in range, and it is then below the element count. A release build always returns the formula's value. |
| `Tensors.Tensor.DataPtr` | include/cn24/util/Tensor.h:216-232 | In a release build, the offset of (x, y, map, sample), with y, map and sample defaulting to 0. A debug build accepts exactly the in-range indices, and an accepted pointer designates a buffer element whose coordinates are exactly that index. |
| `Tensors.Tensor.ElementCheckAsWritten` | include/cn24/util/Tensor.h:238-246 | The debug check of operator[] and operator() as written: a null buffer is fatal, an element above elements_ is out of bounds, and every other element passes. Its flaw is stated by ElementCheckAdmitsOnePastEnd. |
| `Tensors.Tensor.ElementCheck` | include/cn24/util/Tensor.h:234-262 | The corrected element check accepts exactly the elements inside a non-null buffer. |
| `Tensors.ElementCheckAdmitsOnePastEnd` | include/cn24/util/Tensor.h:238-246 | The check as written accepts element == elements_, which lies outside the buffer, while the corrected check rejects it. |
| `Tensors.ElementChecksAgree` | include/cn24/util/Tensor.h:253-261 | At every other element the written and corrected checks agree. |
| `Tensors.Tensor.Get` | include/cn24/util/Tensor.h:252-261 | operator(): succeeds exactly when the corrected check accepts and then returns that element; otherwise the corrected check's fault. |
| `Tensors.Tensor.Set` | include/cn24/util/Tensor.h:237-247 | Writing through operator[] changes exactly that element when the corrected check accepts, and nothing otherwise. |
| `Tensors.SampleValuesAt` | include/cn24/util/Tensor.h:12-16 | The element that an in-range index of a sample addresses is that sample's value at the index's position within the sample's block. |
| `Tensors.Tensor.Clear` | include/cn24/util/Tensor.h:84-89 | Every element becomes the value; when a sample is given, only that sample's elements do and the rest keep their values. |
| `Tensors.Tensor.Resize` | include/cn24/util/Tensor.h:98-102 | Resize gives exactly the new shape and a buffer of the new size, which is fresh or the old one (contents may be lost). |
| `Tensors.Tensor.ResizeLike` | include/cn24/util/Tensor.h:104-109 | Resize takes exactly the other Tensor's shape, with an owning buffer that is fresh or the old one (contents may be lost). |
| `Tensors.Tensor.Reshape` | include/cn24/util/Tensor.h:111-117 | Reshape succeeds exactly when the element count is kept, and then keeps the buffer. A failed Reshape changes nothing. |
| `Tensors.Tensor.Shadow` | include/cn24/util/Tensor.h:91-96 | The Tensor takes the other's shape and buffer and is marked a shadow. |
| `Tensors.Tensor.Maximum` | include/cn24/util/Tensor.h:190-195 | The result is the position, within the sample, of a greatest element of that sample. |
| `Tensors.Tensor.AbsMaximum` | include/cn24/util/Tensor.h:197-200 | The result is the element number of an element of greatest absolute value. |
| `SimpleLayers.SimpleLayer.constructor` | include/cn24/net/SimpleLayer.h:42-44 | input_ and output_ start null. |
| `SimpleLayers.SimpleLayer.Connect` | include/cn24/net/SimpleLayer.h:28-41 | Succeeds exactly on one non-null input and one non-null output that the two-tensor Connect accepts, and then binds them. Otherwise input_ and output_ keep their values. |
| `Confusion.Zero` | src/net/ConfusionMatrixLayer.cpp:110-119 | Specification of Reset: every cell, per-class total, total and right zero. ZeroInvariant states its properties. |
| `Confusion.Record` | src/net/ConfusionMatrixLayer.cpp:97-101 | Specification of one loop iteration: the weight goes to cell (pred, true), to the true class's total and to the total, and to right when pred equals true. RecordCell and RecordKeepsInvariant state its properties. |
| `Confusion.Fold` | src/net/ConfusionMatrixLayer.cpp:93-102 | Specification of the FeedForward loop: Record applied to the samples in order. FoldCell, FoldPerClass, FoldTotal, FoldRight and FoldKeepsInvariant compare it with independent sums. |
| `Confusion.CellIndexUnique` | src/net/ConfusionMatrixLayer.cpp:97 | pred * classes + true names one cell per (pred, true) pair. |
| `Confusion.ZeroInvariant` | src/net/ConfusionMatrixLayer.cpp:110-119 | The reset state has every cell, per-class total, total and right zero, and satisfies the invariants. |
| `Confusion.RecordCell` | src/net/ConfusionMatrixLayer.cpp:97 | One sample adds its weight to cell (pred, true) and changes no other cell. |
| `Confusion.RecordKeepsInvariant` | src/net/ConfusionMatrixLayer.cpp:97-101 | One sample keeps total = sum of per-class totals = sum of cells, right = trace, and each per-class total = its column sum. |
| `Confusion.RecordKeepsColumns` | src/net/ConfusionMatrixLayer.cpp:97-98 | One sample keeps every per-class total equal to its column's sum. |
| `Confusion.FoldStep` | src/net/ConfusionMatrixLayer.cpp:93-102 | Folding one more sample is recording it on top of the samples before it. |
| `Confusion.FoldKeepsInvariant` | src/net/ConfusionMatrixLayer.cpp:93-102 | Any batch keeps the invariants. |
| `Confusion.FoldKeepsNonNegative` | src/net/ConfusionMatrixLayer.cpp:93-102 | A batch of non-negative weights keeps every accumulator non-negative. |
| `Confusion.FoldTotal` | src/net/ConfusionMatrixLayer.cpp:99 | The grand total grows by the sum of the batch's weights. |
| `Confusion.FoldRight` | src/net/ConfusionMatrixLayer.cpp:100-101 | The correct total grows by the weight of the samples whose prediction equals their label. |
| `Confusion.FoldCell` | src/net/ConfusionMatrixLayer.cpp:97 | Each cell grows by exactly the weight of the samples with that (prediction, label) pair. |
| `Confusion.FoldPerClass` | src/net/ConfusionMatrixLayer.cpp:98 | Each per-class total grows by exactly the weight of the samples of that true class. |
| `Rates.UnnormalizedRate` | src/net/ConfusionMatrixLayer.cpp:143-144 | Specification of the first rate: 100 * right / total, unguarded. Its bounds are UnnormalizedRateBounds and PerfectUnnormalizedRate. |
| `Rates.NormalizedRate` | src/net/ConfusionMatrixLayer.cpp:146-156 | Specification of the second rate: 100 times the summed diagonal ratios of the classes with a positive total, divided by their number, unguarded. Its bounds are NormalizedRateBounds and NormalizedRateUnguarded. |
| `Rates.Divide` | src/net/ConfusionMatrixLayer.cpp:143-144 | Unguarded division: finite exactly when the divisor is non-zero, and not-a-number exactly for 0/0. |
| `Rates.TraceBelowPerClass` | src/net/ConfusionMatrixLayer.cpp:97-101 | With non-negative accumulators the diagonal never exceeds the per-class totals. |
| `Rates.UnnormalizedRateBounds` | src/net/ConfusionMatrixLayer.cpp:143-144 | With a positive total, 100 * right / total is finite and between 0 and 100. |
| `Rates.PerfectUnnormalizedRate` | src/net/ConfusionMatrixLayer.cpp:143-144 | When every prediction is right, the rate is exactly 100. |
| `Rates.RatioSumBounds` | src/net/ConfusionMatrixLayer.cpp:148-153 | The summed diagonal ratios lie between 0 and the number of classes counted. |
| `Rates.NormalizedRateBounds` | src/net/ConfusionMatrixLayer.cpp:146-156 | When some class has a positive total, the normalized rate is finite and between 0 and 100. |
| `Rates.NormalizedRateUnguarded` | src/net/ConfusionMatrixLayer.cpp:146-156 | When no class has a positive total, the normalized rate is 0/0, not a number. |
| `Csv.Truncate` | src/net/ConfusionMatrixLayer.cpp:176-177 | static_cast<long> truncates toward zero. |
| `Csv.IntTextRoundTrip` | src/net/ConfusionMatrixLayer.cpp:177 | The decimal text of every count reads back as that integer. |
| `Csv.SplitJoin` | src/net/ConfusionMatrixLayer.cpp:175-179 | Fields written with a separator between neighbours split back into the same fields, when no field holds the separator. |
| `Csv.HeaderFields` | src/net/ConfusionMatrixLayer.cpp:163-169 | Split at commas, the header is "classified" followed by the class names, with no trailing comma. |
| `Csv.RowFields` | src/net/ConfusionMatrixLayer.cpp:173-180 | Split at commas, row t is the class name followed by the row's counts, each reading back as the truncation of its cell. |
| `Csv.Header` | src/net/ConfusionMatrixLayer.cpp:163-169 | Specification of the caption: "classified," followed by the names joined with commas. HeaderFields states how it splits. |
| `Csv.Row` | src/net/ConfusionMatrixLayer.cpp:173-180 | Specification of row t: the name, a comma and the row's truncated counts joined with commas. RowFields states how it splits and reads back. |
| `Csv.CsvText` | src/net/ConfusionMatrixLayer.cpp:161-184 | Specification of the whole output: the header and every row, each followed by a newline. CsvLines states how it splits into lines. |
| `Csv.CsvLines` | src/net/ConfusionMatrixLayer.cpp:161-184 | Split at newlines, the document is the header, exactly one line per class, and nothing after the last newline. |
| `ConfusionMatrixLayers.CreateOutputsGuard` | src/net/ConfusionMatrixLayer.cpp:24-52 | The checks of CreateOutputs: three non-null inputs of one sample count, and one element per sample in the second. |
| `ConfusionMatrixLayers.ConnectGuardAsWritten` | src/net/ConfusionMatrixLayer.cpp:70-73 | The test of Connect as written: three inputs, a null first or second input rejects, a null third input is a null dereference once the first two pass, then one sample count and no outputs. ConnectGuardsAgree states its verdicts. |
| `ConfusionMatrixLayers.ConnectGuard` | src/net/ConfusionMatrixLayer.cpp:70-73 | The corrected test: three non-null inputs of one sample count and no outputs. |
| `ConfusionMatrixLayers.ConnectGuardsAgree` | src/net/ConfusionMatrixLayer.cpp:70-73 | The test as written reads through a null third input exactly when the first two pass. Otherwise it accepts exactly what the corrected test accepts. |
| `ConfusionMatrixLayers.ConnectNullWeights` | src/net/ConfusionMatrixLayer.cpp:70-73 | With two matching inputs and a null third, the test as written dereferences null and the corrected one rejects. |
| `ConfusionMatrixLayers.CreateOutputsThenConnect` | src/net/ConfusionMatrixLayer.cpp:39-52 | Inputs that CreateOutputs accepts are accepted by Connect when there are no outputs. |
| `ConfusionMatrixLayers.LabelOffset` | src/net/ConfusionMatrixLayer.cpp:95 | The label of a sample is read from its first element, which in a debug build lies inside the buffer. |
| `ConfusionMatrixLayers.LabelOffsetAsWritten` | src/net/ConfusionMatrixLayer.cpp:95 | The label read as written: data_ptr_const(sample), with the sample number as x. LabelOffsetAsWrittenFails and LabelOffsetsAgreeInRelease state its behaviour. |
| `ConfusionMatrixLayers.LabelOffsetAsWrittenFails` | src/net/ConfusionMatrixLayer.cpp:95 | data_ptr_const(sample) is fatal in a debug build for every sample after the first of a one-element-per-sample label tensor, while the intended read is element `sample`. |
| `ConfusionMatrixLayers.LabelOffsetsAgreeInRelease` | src/net/ConfusionMatrixLayer.cpp:95 | In a release build both reads address element `sample` of such a tensor. |
| `ConfusionMatrixLayers.EmptyBatch` | src/net/ConfusionMatrixLayer.cpp:93-102 | Three well-formed inputs without samples meet FeedForward's input requirements whatever their shapes, and the batch they hold is empty. |
| `ConfusionMatrixLayers.ReadSample` | src/net/ConfusionMatrixLayer.cpp:94-96 | The predicted class is a greatest score of the sample and below the class count. The true class is the sample's label and the weight is element `sample` of the weight tensor. |
| `ConfusionMatrixLayers.OneRightSample` | src/net/ConfusionMatrixLayer.cpp:93-102 | One sample (2, 2, 1.0) into three classes sets cell (2, 2), class 2's total, the total and right to 1, and the unnormalized rate is 100. |
| `ConfusionMatrixLayers.TwoSamplesOfOneClass` | src/net/ConfusionMatrixLayer.cpp:143-156 | Samples (0, 1, 2.0) and (1, 1, 1.0) into two classes give cells 2 and 1 in column 1, totals 3 and 1, and both rates 100/3. |
| `ConfusionMatrixLayers.ConfusionMatrixLayer.constructor` | src/net/ConfusionMatrixLayer.cpp:14-18 | Stores the names and class count; nothing is bound or allocated. |
| `ConfusionMatrixLayers.ConfusionMatrixLayer.CreateOutputs` | src/net/ConfusionMatrixLayer.cpp:20-56 | Succeeds exactly on three non-null inputs of one sample count whose second input has one element per sample; creates no outputs. |
| `ConfusionMatrixLayers.ConfusionMatrixLayer.Connect` | src/net/ConfusionMatrixLayer.cpp:58-87 | Succeeds exactly on three non-null inputs of one sample count and no outputs. It then binds them and leaves fresh accumulators in the reset state, which satisfies the invariants. A failed Connect changes nothing. |
| `ConfusionMatrixLayers.ConfusionMatrixLayer.Allocate` | src/net/ConfusionMatrixLayer.cpp:80-83 | Fresh arrays of classes x classes and classes elements, reset to zero. |
| `ConfusionMatrixLayers.ConfusionMatrixLayer.Reset` | src/net/ConfusionMatrixLayer.cpp:110-119 | The accumulators become the zero state, which satisfies the invariants and is non-negative. |
| `ConfusionMatrixLayers.ConfusionMatrixLayer.Accumulate` | src/net/ConfusionMatrixLayer.cpp:97-101 | One sample's update of the arrays and scalars is exactly Record. |
| `ConfusionMatrixLayers.ConfusionMatrixLayer.FeedSample` | src/net/ConfusionMatrixLayer.cpp:94-101 | One loop iteration records (argmax, label, weight) of the sample and leaves the input tensors unchanged. |
| `ConfusionMatrixLayers.ConfusionMatrixLayer.FeedBatch` | src/net/ConfusionMatrixLayer.cpp:93-102 | The loop records every sample in order: the new state is Fold over the predictions, labels and weights, each prediction a greatest score of its sample. |
| `ConfusionMatrixLayers.ConfusionMatrixLayer.FeedForward` | src/net/ConfusionMatrixLayer.cpp:89-103 | A disabled layer changes nothing. Otherwise the state becomes Fold of the batch's argmax predictions, labels and weights, and the invariants are kept. |
| `ConfusionMatrixLayers.ConfusionMatrixLayer.BackPropagate` | src/net/ConfusionMatrixLayer.cpp:105-107 | Changes nothing. |
| `ConfusionMatrixLayers.ConfusionMatrixLayer.Print` | src/net/ConfusionMatrixLayer.cpp:143-156 | The two loops compute exactly the unnormalized rate 100 * right / total and the normalized rate, the mean of the diagonal ratios over classes with a positive total, both unguarded. |
| `ConfusionMatrixLayers.ConfusionMatrixLayer.CsvHeader` | src/net/ConfusionMatrixLayer.cpp:163-169 | The caption is "classified," followed by the names joined with commas. |
| `ConfusionMatrixLayers.ConfusionMatrixLayer.CsvCell` | src/net/ConfusionMatrixLayer.cpp:176-177 | One count is the decimal text of the truncated cell. |
| `ConfusionMatrixLayers.ConfusionMatrixLayer.CsvRow` | src/net/ConfusionMatrixLayer.cpp:173-180 | Row t is the name, a comma, and the row's counts joined with commas. |
| `ConfusionMatrixLayers.ConfusionMatrixLayer.PrintCSV` | src/net/ConfusionMatrixLayer.cpp:161-184 | The text written is the header and every row, each followed by a newline. |

## Left out

- OpenCL residency (`MoveToCPU`, `MoveToGPU`, the device buffer): accelerator memory is handled through foreign calls.
- `Serialize` and `Deserialize`: stream I/O whose byte format the header does not show.
- Destructors, `DeleteIfPossible` and the unfreed `per_class_` array: the model has garbage-collected arrays. Ownership is the `isShadow` flag alone.
- `Transpose`, `CopySample` and `CopyMap`: their bodies are not in the header.
- `include/cn24/net/NonLinearityLayer.h`: macro-generated declarations of floating-point activations whose bodies are not shown.
- The CombinedTensor class: its header is not part of this model. `Tensors.CombinedTensor` is just a pair of data and gradient tensors of one shape.
- The label read `*(const duint*)` reinterprets the bytes of a `datum`. The model takes that reinterpretation as the parameter `labelBits`.
- `long double` precision, the `setw(12)` table layout of `Print`, and the `LOGRESULT`/`LOGDEBUG` output: weights and rates are real numbers, and `Print` returns the two rates instead of logging them.
- The `disabled` flag comes from `Layer.h`, which is not part of this model. It is a field of the layer.
- `ConfusionMatrixLayers.ConfusionMatrixLayer.Connect`: `classes * classes` is not reduced modulo the width of `unsigned int`; integers are unbounded.
- `ConfusionMatrixLayers.ConfusionMatrixLayer.FeedForward`: requires well-formed inputs (`Readable`) and labels below the class count (`LabelsInRange`), because otherwise the source writes outside `matrix_` or reads outside a buffer, which is undefined behaviour. When the batch has samples, `Readable` also requires score vectors no longer than the class count, so that every predicted class is a row of the matrix, and a non-empty label per sample; a batch without samples is accepted whatever the shapes (`EmptyBatch`). It reads labels at the intended offset (see Findings).
- `ConfusionMatrixLayers.ConfusionMatrixLayer.Print`: requires allocated accumulators; before a successful `Connect` the source reads null pointers.
- `ConfusionMatrixLayers.ConfusionMatrixLayer.PrintCSV`: requires allocated accumulators and a name for every class; the source otherwise indexes `names_` out of range.
- `ConfusionMatrixLayers.ConfusionMatrixLayer.CsvHeader`: requires a name for every class, for the same reason.
- `Tensors.Tensor.Get`: in a release build it requires the element to be inside the buffer, since the unchecked read is undefined behaviour otherwise. In a debug build it applies the corrected bound `element < elements_` (see Findings), so `element == elements_` is out of bounds instead of the read one past the end that the source performs.
- `Tensors.Tensor.Set`: the same release-build requirement as `Get`, and the same corrected debug-build bound, so it never writes one past the end as the source does.
- `Tensors.Tensor.Offset`: the offset is computed over unbounded integers, while the source's `size_t` products wrap modulo 2^64. For in-range indices this never happens, since no buffer holds 2^64 elements. A release build, however, accepts any index, and for an out-of-range one whose products exceed 2^64 the source's offset wraps (shape 1 x 1 x 1 x 2 with sample 2^63 gives 0) while the model's is the unwrapped value (2^64).
- `Csv.Truncate`: `static_cast<long>` is truncation over unbounded integers; the source's cast is undefined for values outside the range of `long`, and the model has no infinities or not-a-number in cells.
- `Tensors.Tensor.Copy`: the `intentional` flag is accepted and ignored; the header only documents it ("set this to true if you really wanted to copy") and does not show what the body does with it.
- `Tensors.Tensor.Resize`: requires an owning Tensor; what the unshown body does to a shadow is not documented.
- `Tensors.Tensor.Clear`: requires the sample, when given, to be below the sample count; the header does not say what a larger sample does.
- `Tensors.Tensor.Maximum`: requires a sample with at least one element. It does not say which of several equal maxima is returned, since the body is not shown.
- `Tensors.Tensor.AbsMaximum`: requires a non-empty Tensor, and leaves ties open for the same reason.

## Findings

| source | as written | input that shows it | evidently intended | confidence | as-written member | corrected member |
|---|---|---|---|---|---|---|
| include/cn24/util/Tensor.h:241 | the debug check rejects `element > elements_` (likewise line 256) | a Tensor with a buffer and `element == elements_`: accepted, then read one past the end | reject `element >= elements_` | not executed | `Tensors.ElementCheckAdmitsOnePastEnd` | `Tensors.Tensor.ElementCheck` |
| src/net/ConfusionMatrixLayer.cpp:70-73 | `valid` tests `first` and `second` for null, then reads `third->data.samples()` | inputs `[a, b, null]` with `a` and `b` of equal sample count: null dereference | test `third != nullptr` as CreateOutputs does | not executed | `ConfusionMatrixLayers.ConnectNullWeights` | `ConfusionMatrixLayers.ConfusionMatrixLayer.Connect` |
| src/net/ConfusionMatrixLayer.cpp:95 | `data_ptr_const(sample)` passes the sample number as the x coordinate | a label tensor of shape (2, 1, 1, 1) in a debug build: sample 1 is reported out of bounds | `data_ptr_const(0, 0, 0, sample)`, the sample's first element | not executed | `ConfusionMatrixLayers.LabelOffsetAsWrittenFails` | `ConfusionMatrixLayers.LabelOffset` |
