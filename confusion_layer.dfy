/** ConfusionMatrixLayer: a terminal layer with three inputs (class scores,
    true class labels and sample weights) that accumulates a weighted
    confusion matrix over the batches it is fed and reports recognition
    rates and a CSV rendering of the matrix. */
module ConfusionMatrixLayers {
  import opened Arith
  import opened TensorShape
  import opened Tensors
  import opened Confusion
  import opened Rates
  import opened Csv

  /** How Connect's validity test ends as the source evaluates it: true,
      false, or a read through the null third input. */
  datatype Verdict = Accepted | Rejected | NullDereference

  /** The tests of CreateOutputs: three non-null inputs, equal sample counts
      and one element per sample in the second (label) input. */
  predicate CreateOutputsGuard(inputs: seq<CombinedTensor?>)
    reads set i | 0 <= i < |inputs| && inputs[i] != null :: inputs[i].data
  {
    && |inputs| == 3
    && inputs[0] != null && inputs[1] != null && inputs[2] != null
    && inputs[0].data.samples == inputs[1].data.samples
    && inputs[1].data.elements == inputs[1].data.samples
    && inputs[0].data.samples == inputs[2].data.samples
  }

  /** Connect's validity test as written: the third input is not tested for
      null before its sample count is read. */
  function ConnectGuardAsWritten(inputs: seq<CombinedTensor?>, outputCount: nat): Verdict
    reads set i | 0 <= i < |inputs| && inputs[i] != null :: inputs[i].data
  {
    if |inputs| != 3 then Rejected
    else if inputs[0] == null || inputs[1] == null then Rejected
    else if inputs[0].data.samples != inputs[1].data.samples then Rejected
    else if inputs[2] == null then NullDereference
    else if inputs[0].data.samples != inputs[2].data.samples then Rejected
    else if outputCount != 0 then Rejected
    else Accepted
  }

  /** Connect's validity test with the null test the other two inputs get. */
  predicate ConnectGuard(inputs: seq<CombinedTensor?>, outputCount: nat)
    reads set i | 0 <= i < |inputs| && inputs[i] != null :: inputs[i].data
  {
    && |inputs| == 3
    && inputs[0] != null && inputs[1] != null && inputs[2] != null
    && inputs[0].data.samples == inputs[1].data.samples
    && inputs[0].data.samples == inputs[2].data.samples
    && outputCount == 0
  }

  /** The as-written test reads through a null third input exactly when the
      first two inputs pass; otherwise it accepts exactly what the corrected
      test accepts. */
  lemma ConnectGuardsAgree(inputs: seq<CombinedTensor?>, outputCount: nat)
    ensures ConnectGuardAsWritten(inputs, outputCount) == NullDereference <==>
              |inputs| == 3 && inputs[0] != null && inputs[1] != null && inputs[2] == null
              && inputs[0].data.samples == inputs[1].data.samples
    ensures ConnectGuardAsWritten(inputs, outputCount) == Accepted <==> ConnectGuard(inputs, outputCount)
  {
  }

  /** Two inputs of one sample count and a null weight input: the source
      dereferences the null pointer; the corrected test rejects. */
  lemma ConnectNullWeights(a: CombinedTensor, b: CombinedTensor)
    requires a.data.samples == b.data.samples
    ensures ConnectGuardAsWritten([a, b, null], 0) == NullDereference
    ensures !ConnectGuard([a, b, null], 0)
  {
    ConnectGuardsAgree([a, b, null], 0);
  }

  /** Inputs CreateOutputs accepts are accepted by Connect with no outputs. */
  lemma CreateOutputsThenConnect(inputs: seq<CombinedTensor?>)
    requires CreateOutputsGuard(inputs)
    ensures ConnectGuard(inputs, 0)
    ensures ConnectGuardAsWritten(inputs, 0) == Accepted
  {
    ConnectGuardsAgree(inputs, 0);
  }

  /** Where a sample's label lies, as evidently intended: the first element
      of that sample, data_ptr_const(0, 0, 0, sample). */
  function LabelOffset(labels: Tensor, debug: bool, sample: nat): (r: Checked<nat>)
    reads labels
    requires labels.Valid()
    ensures r.Ok? <==> !debug || InRange(labels.GetShape(), 0, 0, 0, sample)
    ensures r.Ok? ==> r.value == sample * labels.GetShape().PerSample()
    ensures debug && r.Ok? ==> labels.data != null && r.value < labels.data.Length
  {
    SampleStart(labels.GetShape(), sample);
    labels.DataPtr(debug, 0, 0, 0, sample)
  }

  /** Where FeedForward reads a sample's label as written:
      data_ptr_const(sample) passes the sample number as the x coordinate. */
  function LabelOffsetAsWritten(labels: Tensor, debug: bool, sample: nat): Checked<nat>
    reads labels
    requires labels.Valid()
  {
    labels.DataPtr(debug, sample)
  }

  /** A label tensor of one element per sample, as CreateOutputs demands, has
      width 1, so in a debug build every sample after the first is reported
      out of bounds, although the intended read is inside the buffer. */
  lemma LabelOffsetAsWrittenFails(labels: Tensor, sample: nat)
    requires labels.Valid() && labels.GetShape() == Shape(labels.samples, 1, 1, 1)
    requires 1 <= sample < labels.samples
    ensures LabelOffsetAsWritten(labels, true, sample).Fatal?
    ensures LabelOffset(labels, true, sample) == Ok(sample)
  {
  }

  /** In a release build the two reads agree on such a tensor: the sample
      number is the element number of its label. */
  lemma LabelOffsetsAgreeInRelease(labels: Tensor, sample: nat)
    requires labels.Valid() && 0 < labels.samples && labels.elements == labels.samples
    ensures LabelOffsetAsWritten(labels, false, sample) == LabelOffset(labels, false, sample) == Ok(sample)
  {
    var s := labels.GetShape();
    assert labels.samples * s.PerSample() == labels.samples * 1 by {
      ElementsBySample(s);
    }
    if s.PerSample() >= 2 {
      MulMonotone(2, s.PerSample(), labels.samples);
    }
  }

  /** The true class of a sample: the first element of that sample in the
      label tensor, read through labelBits. */
  ghost function LabelAt(labels: Tensor, labelBits: real -> nat, sample: nat): nat
    requires labels.Valid() && sample < labels.samples && 0 < labels.GetShape().PerSample()
    reads labels, labels.data
  {
    var s := labels.GetShape();
    SampleEnd(s, sample);
    assert 0 < labels.elements;
    labelBits(labels.data[sample * s.PerSample()])
  }

  /** The true classes of the first k samples. */
  ghost function Labels(labels: Tensor, labelBits: real -> nat, k: nat): (ls: seq<nat>)
    requires labels.Valid() && k <= labels.samples && (0 < k ==> 0 < labels.GetShape().PerSample())
    reads labels, labels.data
    ensures |ls| == k
  {
    if k == 0 then [] else Labels(labels, labelBits, k - 1) + [LabelAt(labels, labelBits, k - 1)]
  }

  /** The weights of the first k samples: element number `sample` of the
      weight tensor. */
  ghost function Weights(weights: Tensor, k: nat): (ws: seq<real>)
    requires weights.Valid() && k <= weights.elements
    reads weights, weights.data
    ensures |ws| == k
  {
    if k == 0 then [] else Weights(weights, k - 1) + [weights.data[k - 1]]
  }

  /** The score vectors of the first k samples. */
  ghost function Rows(scores: Tensor, k: nat): (rows: seq<seq<real>>)
    requires scores.Valid() && k <= scores.samples
    reads scores, scores.data
    ensures |rows| == k
  {
    if k == 0 then [] else Rows(scores, k - 1) + [scores.SampleValues(k - 1)]
  }

  /** Each of preds is the position of a greatest score of its row. */
  predicate ArgMaxes(rows: seq<seq<real>>, preds: seq<nat>) {
    |preds| <= |rows| && forall s :: 0 <= s < |preds| ==> IsArgMax(rows[s], preds[s])
  }

  lemma ArgMaxesSnoc(rows: seq<seq<real>>, preds: seq<nat>, pred: nat)
    requires ArgMaxes(rows, preds) && |preds| < |rows| && IsArgMax(rows[|preds|], pred)
    ensures ArgMaxes(rows, preds + [pred])
  {
    forall s | 0 <= s < |preds| + 1
      ensures IsArgMax(rows[s], (preds + [pred])[s])
    {
      if s < |preds| {
        assert (preds + [pred])[s] == preds[s];
      }
    }
  }

  lemma {:induction false} RowsAt(scores: Tensor, k: nat, i: nat)
    requires scores.Valid() && k <= scores.samples && i < k
    ensures Rows(scores, k)[i] == scores.SampleValues(i)
    decreases k
  {
    if i < k - 1 {
      RowsAt(scores, k - 1, i);
    }
  }

  /** What FeedForward reads from its inputs, as values: the score vector,
      the label and the weight of every sample. */
  datatype Batch = Batch(rows: seq<seq<real>>, labels: seq<nat>, weights: seq<real>)

  lemma {:induction false} LabelsAt(labels: Tensor, labelBits: real -> nat, k: nat, i: nat)
    requires labels.Valid() && k <= labels.samples && 0 < labels.GetShape().PerSample() && i < k
    ensures Labels(labels, labelBits, k)[i] == LabelAt(labels, labelBits, i)
    decreases k
  {
    if i < k - 1 {
      LabelsAt(labels, labelBits, k - 1, i);
    }
  }

  lemma {:induction false} WeightsAt(weights: Tensor, k: nat, i: nat)
    requires weights.Valid() && k <= weights.elements && i < k
    ensures weights.data != null && i < weights.data.Length
    ensures Weights(weights, k)[i] == weights.data[i]
    decreases k
  {
    if i < k - 1 {
      WeightsAt(weights, k - 1, i);
    }
  }

  /** Three well-formed inputs of one sample count, a label and a weight for
      every sample and, when there is a sample, score vectors no longer than
      the class count and a non-empty label per sample. */
  ghost predicate Inputs(scores: Tensor, labels: Tensor, weights: Tensor, classes: nat)
    reads scores, labels, weights
  {
    && scores.Valid() && labels.Valid() && weights.Valid()
    && labels.samples == scores.samples && weights.samples == scores.samples
    && (0 < scores.samples ==> 0 < scores.GetShape().PerSample() <= classes && 0 < labels.GetShape().PerSample())
    && scores.samples <= weights.elements
  }

  /** The score vectors, labels and weights of the whole batch. */
  ghost function Snapshot(scores: Tensor, labels: Tensor, weights: Tensor, classes: nat, labelBits: real -> nat): (b: Batch)
    requires Inputs(scores, labels, weights, classes)
    reads scores, labels, weights, scores.data, labels.data, weights.data
    ensures |b.rows| == |b.labels| == |b.weights| == scores.samples
  {
    Batch(Rows(scores, scores.samples), Labels(labels, labelBits, scores.samples), Weights(weights, scores.samples))
  }

  /** A batch without samples reads nothing: three well-formed tensors of no
      samples are acceptable inputs whatever their shapes, and the batch they
      hold is empty. */
  lemma EmptyBatch(scores: Tensor, labels: Tensor, weights: Tensor, classes: nat, labelBits: real -> nat)
    requires scores.Valid() && labels.Valid() && weights.Valid()
    requires scores.samples == 0 && labels.samples == 0 && weights.samples == 0
    ensures Inputs(scores, labels, weights, classes)
    ensures Snapshot(scores, labels, weights, classes, labelBits) == Batch([], [], [])
  {
  }

  /** What one iteration of FeedForward reads: the sample's predicted class,
      a greatest score of the sample; its true class, its label; and its
      weight. */
  method ReadSample(scores: Tensor, labels: Tensor, weights: Tensor, classes: nat,
                    debug: bool, labelBits: real -> nat, sample: nat, ghost b: Batch)
      returns (pred: nat, truth: nat, weight: real)
    requires Inputs(scores, labels, weights, classes) && sample < scores.samples
    requires b == Snapshot(scores, labels, weights, classes, labelBits)
    ensures pred < classes && IsArgMax(b.rows[sample], pred)
    ensures truth == b.labels[sample] && weight == b.weights[sample]
  {
    RowsAt(scores, scores.samples, sample);
    LabelsAt(labels, labelBits, scores.samples, sample);
    WeightsAt(weights, scores.samples, sample);
    pred := scores.Maximum(sample);
    SampleHasFirst(labels.GetShape(), sample);
    SampleEnd(labels.GetShape(), sample);
    var li := LabelOffset(labels, debug, sample).value;
    truth := labelBits(labels.data[li]);
    var w := weights.Get(debug, sample);
    weight := w.value;
  }

  class ConfusionMatrixLayer {
    /** Display name of each class. */
    const names: seq<string>
    const classes: nat
    /** The disabled flag layers inherit: a disabled layer feeds nothing. */
    var disabled: bool
    /** Class scores, true class labels and sample weights. */
    var first: CombinedTensor?
    var second: CombinedTensor?
    var third: CombinedTensor?
    /** The classes x classes accumulator, row = predicted class. */
    var matrix: array?<real>
    var perClass: array?<real>
    var total: real
    var right: real

    /** The accumulators exist and have their sizes. */
    ghost predicate Allocated()
      reads this`matrix, this`perClass
    {
      && matrix != null && perClass != null && matrix != perClass
      && matrix.Length == classes * classes && perClass.Length == classes
    }

    /** A successful Connect has bound the three inputs. */
    ghost predicate Connected()
      reads this`matrix, this`perClass, this`first, this`second, this`third
    {
      Allocated() && first != null && second != null && third != null
    }

    /** The accumulators as a value. */
    function State(): (st: Stats)
      reads this`matrix, this`perClass, this`total, this`right, matrix, perClass
      requires Allocated()
      ensures Sized(st, classes)
    {
      Stats(matrix[..], perClass[..], total, right)
    }

    /** What FeedForward reads without stepping outside any buffer: three
        well-formed inputs (Inputs), and accumulators that are no input's
        buffer. */
    ghost predicate Readable()
      requires Connected()
      reads this`matrix, this`perClass, this`first, this`second, this`third, first.data, second.data, third.data
    {
      && Inputs(first.data, second.data, third.data, classes)
      && Apart(first.data, second.data, third.data)
    }

    /** The accumulators are none of the three tensors' buffers. */
    ghost predicate Apart(scores: Tensor, labels: Tensor, weights: Tensor)
      reads this`matrix, this`perClass, scores, labels, weights
    {
      && matrix != scores.data && matrix != labels.data && matrix != weights.data
      && perClass != scores.data && perClass != labels.data && perClass != weights.data
    }

    /** Every label names one of the classes. */
    ghost predicate LabelsInRange(labelBits: real -> nat)
      requires Connected() && Readable()
      reads this`matrix, this`perClass, this`first, this`second, this`third, first.data, second.data, third.data, second.data.data
    {
      AllBelow(Labels(second.data, labelBits, first.data.samples), classes)
    }

    constructor (names: seq<string>, classes: nat)
      ensures this.names == names && this.classes == classes
      ensures first == null && second == null && third == null
      ensures matrix == null && perClass == null
      ensures !disabled && total == 0.0 && right == 0.0
    {
      this.names, this.classes := names, classes;
      disabled := false;
      first, second, third := null, null, null;
      matrix, perClass := null, null;
      total, right := 0.0, 0.0;
    }

    /** Validates the inputs; the layer creates no outputs. */
    method CreateOutputs(inputs: seq<CombinedTensor?>) returns (ok: bool, created: seq<CombinedTensor?>)
      ensures ok <==> CreateOutputsGuard(inputs)
      ensures ok ==> |inputs| == 3 && forall i :: 0 <= i < 3 ==> inputs[i] != null && inputs[i].data.samples == inputs[0].data.samples
      ensures created == []
    {
      created := [];
      if |inputs| != 3 {
        return false, created;
      }
      var first, second, third := inputs[0], inputs[1], inputs[2];
      if first == null || second == null || third == null {
        return false, created;
      }
      if first.data.samples != second.data.samples {
        return false, created;
      }
      if second.data.elements != second.data.samples {
        return false, created;
      }
      if first.data.samples != third.data.samples {
        return false, created;
      }
      return true, created;
    }

    /** Binds the three inputs, allocates the accumulators and resets them,
        when the inputs pass; otherwise changes nothing. */
    method Connect(inputs: seq<CombinedTensor?>, outputs: seq<CombinedTensor?>) returns (valid: bool)
      modifies this
      ensures valid <==> ConnectGuard(inputs, |outputs|)
      ensures valid ==> first == inputs[0] && second == inputs[1] && third == inputs[2]
      ensures valid ==> Connected() && fresh(matrix) && fresh(perClass)
      ensures valid ==> State() == Zero(classes) && Invariant(State(), classes)
      ensures valid ==> disabled == old(disabled)
      ensures !valid ==> unchanged(this)
    {
      if |inputs| != 3 {
        return false;
      }
      var a, b, c := inputs[0], inputs[1], inputs[2];
      valid := a != null && b != null && c != null
               && a.data.samples == b.data.samples
               && a.data.samples == c.data.samples
               && |outputs| == 0;
      if valid {
        first, second, third := a, b, c;
        Allocate();
      }
    }

    /** The accumulators of a successful Connect: fresh buffers of
        classes x classes and classes elements, reset to zero. */
    method Allocate()
      modifies this`matrix, this`perClass, this`total, this`right
      ensures Allocated() && fresh(matrix) && fresh(perClass)
      ensures State() == Zero(classes) && Invariant(State(), classes)
    {
      matrix := new real[classes * classes];
      perClass := new real[classes];
      Reset();
    }

    /** Sets every accumulator to zero. */
    method Reset()
      requires Allocated()
      modifies this`total, this`right, matrix, perClass
      ensures State() == Zero(classes)
      ensures Invariant(State(), classes) && NonNegative(State())
    {
      var c := 0;
      while c < classes * classes
        invariant c <= classes * classes
        invariant forall i :: 0 <= i < c ==> matrix[i] == 0.0
      {
        matrix[c] := 0.0;
        c := c + 1;
      }
      c := 0;
      while c < classes
        invariant c <= classes
        invariant forall i :: 0 <= i < c ==> perClass[i] == 0.0
        invariant forall i :: 0 <= i < matrix.Length ==> matrix[i] == 0.0
      {
        perClass[c] := 0.0;
        c := c + 1;
      }
      total, right := 0.0, 0.0;
      assert matrix[..] == Zero(classes).matrix;
      assert perClass[..] == Zero(classes).perClass;
      ZeroInvariant(classes);
    }

    /** One sample's update of the accumulators (the body of FeedForward's
        loop). */
    method Accumulate(pred: nat, truth: nat, w: real)
      requires Allocated() && pred < classes && truth < classes
      modifies this`total, this`right, matrix, perClass
      ensures State() == Record(old(State()), classes, pred, truth, w)
    {
      CellIndexBound(classes, pred, truth);
      var cell := pred * classes + truth;
      ghost var r := Record(State(), classes, pred, truth, w);
      matrix[cell] := matrix[cell] + w;
      assert matrix[..] == r.matrix;
      perClass[truth] := perClass[truth] + w;
      assert perClass[..] == r.perClass;
      total := total + w;
      if pred == truth {
        right := right + w;
      }
    }

    /** One iteration of FeedForward: records the sample's predicted class,
        true class and weight, and leaves the three tensors as they were. */
    method FeedSample(debug: bool, labelBits: real -> nat, scores: Tensor, labelTensor: Tensor, weightTensor: Tensor,
                      ghost b: Batch, sample: nat) returns (pred: nat)
      requires Allocated() && Inputs(scores, labelTensor, weightTensor, classes)
      requires Apart(scores, labelTensor, weightTensor)
      requires b == Snapshot(scores, labelTensor, weightTensor, classes, labelBits) && AllBelow(b.labels, classes)
      requires sample < scores.samples
      modifies this`total, this`right, matrix, perClass
      ensures pred < classes && IsArgMax(b.rows[sample], pred)
      ensures State() == Record(old(State()), classes, pred, b.labels[sample], b.weights[sample])
      ensures Inputs(scores, labelTensor, weightTensor, classes) && Apart(scores, labelTensor, weightTensor)
      ensures b == Snapshot(scores, labelTensor, weightTensor, classes, labelBits)
    {
      var truth, weight;
      pred, truth, weight := ReadSample(scores, labelTensor, weightTensor, classes, debug, labelBits, sample, b);
      Accumulate(pred, truth, weight);
    }

    /** The loop of FeedForward: records every sample of the batch b the
        three tensors hold, in order. */
    method FeedBatch(debug: bool, labelBits: real -> nat, scores: Tensor, labelTensor: Tensor, weightTensor: Tensor,
                     ghost b: Batch) returns (ghost preds: seq<nat>)
      requires Allocated() && Inputs(scores, labelTensor, weightTensor, classes)
      requires Apart(scores, labelTensor, weightTensor)
      requires b == Snapshot(scores, labelTensor, weightTensor, classes, labelBits) && AllBelow(b.labels, classes)
      modifies this`total, this`right, matrix, perClass
      ensures |preds| == |b.labels| && AllBelow(preds, classes) && ArgMaxes(b.rows, preds)
      ensures State() == Fold(old(State()), classes, preds, b.labels, b.weights)
    {
      ghost var st0 := State();
      var n := scores.samples;
      preds := [];
      var sample := 0;
      while sample < n
        invariant sample <= n && |preds| == sample
        invariant Allocated() && Inputs(scores, labelTensor, weightTensor, classes)
        invariant Apart(scores, labelTensor, weightTensor)
        invariant b == Snapshot(scores, labelTensor, weightTensor, classes, labelBits)
        invariant AllBelow(preds, classes) && ArgMaxes(b.rows, preds)
        invariant State() == Fold(st0, classes, preds, b.labels[..sample], b.weights[..sample])
      {
        var pred := FeedSample(debug, labelBits, scores, labelTensor, weightTensor, b, sample);
        ArgMaxesSnoc(b.rows, preds, pred);
        FoldStep(st0, classes, preds, b.labels, b.weights, pred);
        preds := preds + [pred];
        sample := sample + 1;
      }
      assert b.labels[..n] == b.labels && b.weights[..n] == b.weights;
    }

    /** Records every sample of the batch: its predicted class is a greatest
        score of the sample, its true class its label and its weight its
        element of the weight tensor. A disabled layer records nothing. */
    method FeedForward(debug: bool, labelBits: real -> nat) returns (ghost preds: seq<nat>)
      requires Connected() && Readable() && LabelsInRange(labelBits)
      modifies this`total, this`right, matrix, perClass
      ensures disabled ==> State() == old(State())
      ensures !disabled ==> |preds| == first.data.samples && AllBelow(preds, classes)
      ensures !disabled ==> ArgMaxes(old(Rows(first.data, first.data.samples)), preds)
      ensures !disabled ==> State() == Fold(old(State()), classes, preds,
                old(Labels(second.data, labelBits, first.data.samples)), old(Weights(third.data, first.data.samples)))
      ensures old(Invariant(State(), classes)) ==> Invariant(State(), classes)
    {
      preds := [];
      if disabled {
        return;
      }
      ghost var st0 := State();
      ghost var b := Snapshot(first.data, second.data, third.data, classes, labelBits);
      preds := FeedBatch(debug, labelBits, first.data, second.data, third.data, b);
      if Invariant(st0, classes) {
        FoldKeepsInvariant(st0, classes, preds, b.labels, b.weights);
      }
    }

    /** A terminal layer passes no gradient back. */
    method BackPropagate()
      ensures unchanged(this)
    {
    }

    /** The two rates Print reports. */
    method Print() returns (unnormalized: Quotient, normalized: Quotient)
      requires Allocated()
      ensures unnormalized == UnnormalizedRate(State())
      ensures normalized == NormalizedRate(State(), classes)
    {
      unnormalized := Divide(100.0 * right, total);
      var ccount := 0.0;
      var sum := 0.0;
      var c := 0;
      while c < classes
        invariant c <= classes
        invariant sum == RatioSum(State(), classes, c)
        invariant ccount == ClassCount(perClass[..], c)
      {
        CellIndexBound(classes, c, c);
        if perClass[c] > 0.0 {
          sum := sum + matrix[c * classes + c] / perClass[c];
          ccount := ccount + 1.0;
        }
        c := c + 1;
      }
      normalized := Divide(100.0 * sum, ccount);
    }

    /** The header line PrintCSV writes. */
    method CsvHeader() returns (caption: string)
      requires classes <= |names|
      ensures caption == Header(names, classes)
    {
      caption := "classified,";
      ghost var fields := names[..classes];
      var c := 0;
      while c < classes
        invariant c <= classes
        invariant caption == "classified," + Partial(fields, c, ',')
      {
        PartialStep("classified,", fields, c, ',');
        caption := caption + names[c];
        if c + 1 < classes {
          caption := caption + ",";
        }
        c := c + 1;
      }
      PartialDone(fields, ',');
    }

    /** The line PrintCSV writes for row t of the matrix. */
    method CsvRow(t: nat) returns (line: string)
      requires Allocated() && t < classes <= |names|
      ensures line == Row(names, matrix[..], classes, t)
    {
      ghost var cells := RowCells(matrix[..], classes, t);
      line := names[t] + ",";
      ghost var lead := line;
      var c := 0;
      while c < classes
        invariant c <= classes
        invariant line == lead + Partial(cells, c, ',')
      {
        var cell := CsvCell(t, c);
        PartialStep(lead, cells, c, ',');
        line := line + cell;
        if c + 1 < classes {
          line := line + ",";
        }
        c := c + 1;
      }
      PartialDone(cells, ',');
    }

    /** One count as PrintCSV writes it: the cell truncated to an integer. */
    method CsvCell(t: nat, c: nat) returns (text: string)
      requires Allocated() && t < classes && c < classes
      ensures text == RowCells(matrix[..], classes, t)[c]
    {
      RowCellAt(matrix[..], classes, t, c);
      var result := matrix[t * classes + c];
      text := IntText(Truncate(result));
    }

    /** The CSV text PrintCSV writes to its stream. */
    method PrintCSV() returns (text: string)
      requires Allocated() && classes <= |names|
      ensures text == CsvText(names, matrix[..], classes)
    {
      ghost var lines := Lines(names, matrix[..], classes);
      var caption := CsvHeader();
      text := caption + "\n";
      assert lines[..1] == [Header(names, classes)];
      var t := 0;
      while t < classes
        invariant t <= classes
        invariant text == Terminated(lines[..t + 1])
      {
        var line := CsvRow(t);
        assert lines[..t + 2][..t + 1] == lines[..t + 1];
        text := text + line + "\n";
        t := t + 1;
      }
      assert lines[..t + 1] == lines;
    }
  }

  // -----------------------------------------------------------------------
  // The two worked batches

  /** One sample, predicted and true class 2, weight 1, into three classes:
      cell (2, 2), the per-class total of class 2, the total and the correct
      total each become 1, and the unnormalized rate is 100%. */
  lemma OneRightSample()
    ensures Fold(Zero(3), 3, [2], [2], [1.0]) == Stats(seq(9, i => if i == 8 then 1.0 else 0.0), [0.0, 0.0, 1.0], 1.0, 1.0)
    ensures UnnormalizedRate(Fold(Zero(3), 3, [2], [2], [1.0])) == Finite(100.0)
  {
    var r := Fold(Zero(3), 3, [2], [2], [1.0]);
    assert [2][..0] == [] && [1.0][..0] == [];
    assert r == Record(Zero(3), 3, 2, 2, 1.0);
    PerfectUnnormalizedRate(r);
  }

  /** Samples (predicted 0, true 1, weight 2) and (predicted 1, true 1,
      weight 1) into two classes: both rates are a third of 100%. */
  lemma TwoSamplesOfOneClass()
    ensures Fold(Zero(2), 2, [0, 1], [1, 1], [2.0, 1.0]) == Stats([0.0, 2.0, 0.0, 1.0], [0.0, 3.0], 3.0, 1.0)
    ensures UnnormalizedRate(Fold(Zero(2), 2, [0, 1], [1, 1], [2.0, 1.0])) == Finite(100.0 / 3.0)
    ensures NormalizedRate(Fold(Zero(2), 2, [0, 1], [1, 1], [2.0, 1.0]), 2) == Finite(100.0 / 3.0)
  {
    FirstOfTwoSamples();
    assert [0, 1][..1] == [0] && [1, 1][..1] == [1] && [2.0, 1.0][..1] == [2.0];
    var r := Fold(Zero(2), 2, [0, 1], [1, 1], [2.0, 1.0]);
    assert r == Record(Stats([0.0, 2.0, 0.0, 0.0], [0.0, 2.0], 2.0, 0.0), 2, 1, 1, 1.0);
    TwoSampleRates(r);
  }

  lemma FirstOfTwoSamples()
    ensures Fold(Zero(2), 2, [0], [1], [2.0]) == Stats([0.0, 2.0, 0.0, 0.0], [0.0, 2.0], 2.0, 0.0)
  {
    var z := Zero(2);
    assert z == Stats([0.0, 0.0, 0.0, 0.0], [0.0, 0.0], 0.0, 0.0);
    assert [0][..0] == [] && [1][..0] == [] && [2.0][..0] == [];
    assert Fold(z, 2, [0], [1], [2.0]) == Record(z, 2, 0, 1, 2.0);
  }

  lemma TwoSampleRates(r: Stats)
    requires r == Stats([0.0, 2.0, 0.0, 1.0], [0.0, 3.0], 3.0, 1.0)
    ensures UnnormalizedRate(r) == Finite(100.0 / 3.0)
    ensures NormalizedRate(r, 2) == Finite(100.0 / 3.0)
  {
    assert RatioSum(r, 2, 1) == 0.0;
    assert Cell(r.matrix, 2, 1, 1) == 1.0;
    assert RatioSum(r, 2, 2) == 1.0 / 3.0;
    assert ClassCount(r.perClass, 2) == 1.0;
  }
}
