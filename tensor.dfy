/** The Tensor container of Tensor.h: shape fields, an owned or shadowed data
    buffer, checked addressing, and the shape-changing operations whose
    contracts the header documents. A debug build (TENSORDEBUG) is the
    `debug` parameter; where a release build has undefined behaviour the
    method requires the condition that avoids it. */
module Tensors {
  import opened TensorShape

  /** Why a debug build stops the program. */
  datatype Fault = OutOfBounds | NullData

  /** The outcome of an access that a debug build checks: the value, or the
      fatal error the check reports. */
  datatype Checked<T> = Ok(value: T) | Fatal(fault: Fault)

  /** k is the position of a greatest element of v. */
  predicate IsArgMax(v: seq<real>, k: nat) {
    k < |v| && forall j :: 0 <= j < |v| ==> v[j] <= v[k]
  }

  function Abs(r: real): real { if r < 0.0 then -r else r }

  class Tensor {
    var samples: nat
    var maps: nat
    var height: nat
    var width: nat
    var elements: nat
    /** The data pointer; null until storage is allocated or shadowed. */
    var data: array?<real>
    /** True when data belongs to another Tensor. */
    var isShadow: bool

    /** elements always is the product of the shape fields, and the buffer,
        when there is one, holds exactly that many elements. */
    ghost predicate Valid()
      reads this
    {
      && elements == Shape(samples, maps, height, width).Elements()
      && (data == null ==> elements == 0)
      && (data != null ==> data.Length == elements)
    }

    function GetShape(): Shape
      reads this
    {
      Shape(samples, maps, height, width)
    }

    /** An empty Tensor of zero size with no storage. */
    constructor Empty()
      ensures Valid() && GetShape() == Shape(0, 0, 0, 0) && elements == 0
      ensures data == null && !isShadow
    {
      samples, maps, height, width, elements := 0, 0, 0, 0, 0;
      data := null;
      isShadow := false;
    }

    /** A Tensor of the given size. The parameters come in the order
        samples, width, height, maps, unlike the storage order. */
    constructor (samples: nat, width: nat := 1, height: nat := 1, maps: nat := 1)
      ensures Valid() && GetShape() == Shape(samples, maps, height, width)
      ensures data != null && fresh(data) && !isShadow
    {
      this.samples, this.maps, this.height, this.width := samples, maps, height, width;
      elements := Shape(samples, maps, height, width).Elements();
      data := new real[Shape(samples, maps, height, width).Elements()];
      isShadow := false;
    }

    /** A deep copy of another Tensor. */
    constructor Copy(tensor: Tensor, intentional: bool := false)
      requires tensor.Valid()
      ensures Valid() && GetShape() == tensor.GetShape() && !isShadow
      ensures tensor.data == null ==> data == null
      ensures tensor.data != null ==> data != null && fresh(data) && data[..] == tensor.data[..]
    {
      samples, maps, height, width := tensor.samples, tensor.maps, tensor.height, tensor.width;
      elements := tensor.elements;
      isShadow := false;
      if tensor.data == null {
        data := null;
      } else {
        var a := new real[tensor.data.Length];
        forall i | 0 <= i < a.Length {
          a[i] := tensor.data[i];
        }
        data := a;
      }
    }

    /** Moves a Tensor: this one takes over its storage and shape, and the
        source is left empty. */
    constructor Move(tensor: Tensor)
      requires tensor.Valid()
      modifies tensor
      ensures Valid() && GetShape() == old(tensor.GetShape())
      ensures data == old(tensor.data) && isShadow == old(tensor.isShadow)
      ensures tensor.Valid() && tensor.GetShape() == Shape(0, 0, 0, 0)
      ensures tensor.data == null && !tensor.isShadow
    {
      samples, maps, height, width := tensor.samples, tensor.maps, tensor.height, tensor.width;
      elements := tensor.elements;
      data := tensor.data;
      isShadow := tensor.isShadow;
      new;
      tensor.samples, tensor.maps, tensor.height, tensor.width := 0, 0, 0, 0;
      tensor.elements := 0;
      tensor.data := null;
      tensor.isShadow := false;
    }

    /** Tensor::Offset: the element number of (x, y, mapIdx, sample). A
        debug build reports an index outside the shape as a fatal error; a
        release build returns the formula's value unchecked. */
    function Offset(debug: bool, x: nat, y: nat, mapIdx: nat, sample: nat): (r: Checked<nat>)
      reads this
      ensures debug ==> (r.Ok? <==> InRange(GetShape(), x, y, mapIdx, sample))
      ensures !debug ==> r == Ok(OffsetOf(GetShape(), x, y, mapIdx, sample))
      ensures r.Ok? ==> r.value == OffsetOf(GetShape(), x, y, mapIdx, sample)
      ensures debug && r.Ok? ==> r.value < GetShape().Elements()
    {
      if debug && !InRange(GetShape(), x, y, mapIdx, sample) then
        Fatal(OutOfBounds)
      else
        if InRange(GetShape(), x, y, mapIdx, sample) then
          OffsetBound(GetShape(), x, y, mapIdx, sample);
          Ok(OffsetOf(GetShape(), x, y, mapIdx, sample))
        else
          Ok(OffsetOf(GetShape(), x, y, mapIdx, sample))
    }

    /** data_ptr(x, y, map, sample): the element the returned pointer
        designates. In a debug build an accepted index designates an element
        of the buffer whose coordinates are exactly (x, y, mapIdx, sample). */
    function DataPtr(debug: bool, x: nat, y: nat := 0, mapIdx: nat := 0, sample: nat := 0): (r: Checked<nat>)
      reads this
      requires Valid()
      ensures !debug ==> r == Ok(OffsetOf(GetShape(), x, y, mapIdx, sample))
      ensures debug ==> (r.Ok? <==> InRange(GetShape(), x, y, mapIdx, sample))
      ensures debug && r.Ok? ==> data != null && r.value < data.Length
      ensures debug && r.Ok? ==> Coordinates(GetShape(), r.value) == Index(x, y, mapIdx, sample)
    {
      if debug && InRange(GetShape(), x, y, mapIdx, sample) then
        CoordinatesOfOffset(GetShape(), Index(x, y, mapIdx, sample));
        Offset(debug, x, y, mapIdx, sample)
      else
        Offset(debug, x, y, mapIdx, sample)
    }

    /** The debug-build check of operator[] and operator() as the header
        writes it: it rejects a null buffer and element > elements_, so
        element == elements_ passes. */
    function ElementCheckAsWritten(element: nat): Checked<nat>
      reads this
    {
      if data == null then Fatal(NullData)
      else if element > elements then Fatal(OutOfBounds)
      else Ok(element)
    }

    /** The check with the bound it evidently intends: an accepted element
        lies inside the buffer, and every element inside it is accepted. */
    function ElementCheck(element: nat): (r: Checked<nat>)
      reads this
      requires Valid()
      ensures r.Ok? <==> data != null && element < data.Length
      ensures r.Ok? ==> r.value == element
    {
      if data == null then Fatal(NullData)
      else if element >= elements then Fatal(OutOfBounds)
      else Ok(element)
    }

    /** operator[] / operator(): reads element number `element`. */
    method Get(debug: bool, element: nat) returns (r: Checked<real>)
      requires Valid()
      requires !debug ==> data != null && element < elements
      ensures r.Ok? <==> ElementCheck(element).Ok?
      ensures r.Ok? ==> data != null && element < data.Length && r.value == data[element]
      ensures r.Fatal? ==> r.fault == ElementCheck(element).fault
    {
      match ElementCheck(element)
      case Fatal(f) => r := Fatal(f);
      case Ok(k) => r := Ok(data[k]);
    }

    /** Writes through the reference operator[] returns. */
    method Set(debug: bool, element: nat, value: real) returns (r: Checked<()>)
      requires Valid()
      requires !debug ==> data != null && element < elements
      modifies data
      ensures r.Ok? <==> ElementCheck(element).Ok?
      ensures r.Ok? ==> data[..] == old(data[..])[element := value]
      ensures r.Fatal? ==> r.fault == ElementCheck(element).fault && (data != null ==> data[..] == old(data[..]))
    {
      match ElementCheck(element)
      case Fatal(f) => r := Fatal(f);
      case Ok(k) => data[k] := value; r := Ok(());
    }

    /** The elements of one sample, in storage order. */
    function SampleValues(sample: nat): (v: seq<real>)
      reads this, data
      requires Valid() && sample < samples
      ensures |v| == GetShape().PerSample()
      ensures data != null ==> sample * GetShape().PerSample() + GetShape().PerSample() <= data.Length
      ensures data != null ==> v == data[sample * GetShape().PerSample() .. sample * GetShape().PerSample() + GetShape().PerSample()]
    {
      var per := GetShape().PerSample();
      var lo := sample * per;
      SampleEnd(GetShape(), sample);
      if data == null then [] else data[lo .. lo + per]
    }

    /** Clear(value, sample): sets every element to value, or, when sample
        is not negative, only the elements of that sample. */
    method Clear(value: real := 0.0, sample: int := -1)
      requires Valid() && sample < samples
      modifies data
      ensures data != null ==> forall j :: 0 <= j < data.Length ==>
        data[j] == (if sample < 0 || (sample * GetShape().PerSample() <= j < sample * GetShape().PerSample() + GetShape().PerSample())
                    then value else old(data[j]))
    {
      if data == null {
        return;
      }
      var per := GetShape().PerSample();
      var lo, hi := 0, data.Length;
      if 0 <= sample {
        SampleEnd(GetShape(), sample);
        lo, hi := sample * per, sample * per + per;
      }
      var j := lo;
      while j < hi
        invariant lo <= j <= hi <= data.Length
        invariant forall i :: 0 <= i < data.Length ==> data[i] == (if lo <= i < j then value else old(data[i]))
      {
        data[j] := value;
        j := j + 1;
      }
    }

    /** Resize(samples, width, height, maps): gives the Tensor the new shape,
        with data loss. Parameters in constructor order. */
    method Resize(samples: nat, width: nat := 1, height: nat := 1, maps: nat := 1)
      requires Valid() && !isShadow
      modifies this
      ensures Valid() && GetShape() == Shape(samples, maps, height, width)
      ensures data != null && !isShadow
      ensures fresh(data) || data == old(data)
    {
      var n := Shape(samples, maps, height, width).Elements();
      if data == null || n != elements {
        data := new real[n];
      }
      this.samples, this.maps, this.height, this.width := samples, maps, height, width;
      elements := n;
    }

    /** Resize(tensor): takes the size of another Tensor. */
    method ResizeLike(tensor: Tensor)
      requires Valid() && !isShadow
      modifies this
      ensures Valid() && GetShape() == old(tensor.GetShape())
      ensures data != null && !isShadow
      ensures fresh(data) || data == old(data)
    {
      Resize(tensor.samples, tensor.width, tensor.height, tensor.maps);
    }

    /** Reshape(samples, width, height, maps): changes the shape without data
        loss; fails, changing nothing, when the element count differs. */
    method Reshape(samples: nat, width: nat := 1, height: nat := 1, maps: nat := 1) returns (ok: bool)
      requires Valid()
      modifies this
      ensures Valid()
      ensures ok <==> Shape(samples, maps, height, width).Elements() == old(elements)
      ensures ok ==> GetShape() == Shape(samples, maps, height, width)
      ensures ok ==> data == old(data) && elements == old(elements) && isShadow == old(isShadow)
      ensures !ok ==> unchanged(this)
    {
      if Shape(samples, maps, height, width).Elements() != elements {
        return false;
      }
      this.samples, this.maps, this.height, this.width := samples, maps, height, width;
      return true;
    }

    /** Shadow(tensor): uses the memory and shape of another Tensor. */
    method Shadow(tensor: Tensor)
      requires tensor.Valid()
      modifies this
      ensures Valid() && GetShape() == old(tensor.GetShape())
      ensures data == old(tensor.data) && isShadow
    {
      samples, maps, height, width := tensor.samples, tensor.maps, tensor.height, tensor.width;
      elements := tensor.elements;
      data := tensor.data;
      isShadow := true;
    }

    /** Maximum(sample): the element number, within the sample, of a
        greatest element of that sample. Which of several equal maxima is
        returned is left open. */
    method Maximum(sample: nat) returns (k: nat)
      requires Valid() && sample < samples && 0 < GetShape().PerSample()
      ensures IsArgMax(SampleValues(sample), k)
    {
      ghost var v := SampleValues(sample);
      var per := GetShape().PerSample();
      var base := sample * per;
      SampleEnd(GetShape(), sample);
      assert data != null && v == data[base .. base + per];
      k := 0;
      var j := 1;
      while j < per
        invariant 1 <= j <= per && k < j
        invariant forall i :: 0 <= i < j ==> v[i] <= v[k]
      {
        assert v[j] == data[base + j] && v[k] == data[base + k];
        if data[base + j] > data[base + k] {
          k := j;
        }
        j := j + 1;
      }
    }

    /** AbsMaximum(): the element number of an element of greatest absolute
        value. */
    method AbsMaximum() returns (k: nat)
      requires Valid() && 0 < elements
      ensures data != null && k < data.Length
      ensures forall j :: 0 <= j < data.Length ==> Abs(data[j]) <= Abs(data[k])
    {
      k := 0;
      var j := 1;
      while j < data.Length
        invariant 1 <= j <= data.Length && k < j
        invariant forall i :: 0 <= i < j ==> Abs(data[i]) <= Abs(data[k])
      {
        if Abs(data[j]) > Abs(data[k]) {
          k := j;
        }
        j := j + 1;
      }
    }
  }

  /** The release and debug element checks differ only at one past the end:
      the check as written lets element == elements through although that
      element is outside the buffer. */
  lemma ElementCheckAdmitsOnePastEnd(t: Tensor)
    requires t.Valid() && t.data != null
    ensures t.ElementCheckAsWritten(t.elements).Ok?
    ensures t.elements == t.data.Length
    ensures t.ElementCheck(t.elements).Fatal?
  {
  }

  /** Everywhere else the two checks agree. */
  lemma ElementChecksAgree(t: Tensor, element: nat)
    requires t.Valid() && element != t.elements
    ensures t.ElementCheckAsWritten(element) == t.ElementCheck(element)
  {
  }

  /** SampleValues is the storage-order block of a sample: the element an
      in-range index of that sample addresses is its value at the index's
      position within the block. */
  lemma SampleValuesAt(t: Tensor, x: nat, y: nat, mapIdx: nat, sample: nat)
    requires t.Valid() && t.data != null && InRange(t.GetShape(), x, y, mapIdx, sample)
    ensures var k := OffsetOf(t.GetShape(), x, y, mapIdx, sample);
            var lo := sample * t.GetShape().PerSample();
            lo <= k < t.data.Length && k - lo < |t.SampleValues(sample)|
            && t.SampleValues(sample)[k - lo] == t.data[k]
  {
    var s := t.GetShape();
    var k, per := OffsetOf(s, x, y, mapIdx, sample), s.PerSample();
    OffsetInSample(s, x, y, mapIdx, sample);
    SampleEnd(s, sample);
    var lo := sample * per;
    var v := t.SampleValues(sample);
    assert v == t.data[lo .. lo + per];
    assert v[k - lo] == t.data[k];
  }

  /** A pair of tensors of one shape, the unit layers exchange: the data and
      its gradient. */
  class CombinedTensor {
    const data: Tensor
    const delta: Tensor

    constructor (samples: nat, width: nat := 1, height: nat := 1, maps: nat := 1)
      ensures fresh(data) && fresh(delta) && data != delta
      ensures data.Valid() && delta.Valid()
      ensures data.GetShape() == Shape(samples, maps, height, width) == delta.GetShape()
    {
      data := new Tensor(samples, width, height, maps);
      delta := new Tensor(samples, width, height, maps);
    }
  }
}
