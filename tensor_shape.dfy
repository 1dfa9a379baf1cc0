/** The logical shape of a Tensor and the linear addressing of its elements
    (Tensor.h: storage order sample, mapIdx, line, pixel). */
module TensorShape {
  import Arith

  /** Shape fields in storage order: samples, then maps (channels), then
      lines (height), then pixels (width). */
  datatype Shape = Shape(samples: nat, maps: nat, height: nat, width: nat)
  {
    /** Number of elements held by one sample. */
    function PerSample(): nat { maps * height * width }

    /** Number of elements of the whole tensor. */
    function Elements(): nat { samples * maps * height * width }
  }

  /** A four-dimensional element index. */
  datatype Index = Index(x: nat, y: nat, mapIdx: nat, sample: nat)

  predicate InRange(s: Shape, x: nat, y: nat, mapIdx: nat, sample: nat) {
    x < s.width && y < s.height && mapIdx < s.maps && sample < s.samples
  }

  /** The linear element number of (x, y, mapIdx, sample), as Tensor::Offset
      computes it without its debug-build range check. */
  function OffsetOf(s: Shape, x: nat, y: nat, mapIdx: nat, sample: nat): nat {
    sample * s.maps * s.width * s.height + mapIdx * s.width * s.height + y * s.width + x
  }

  /** The offset is a mixed-radix number with digits sample, mapIdx, y, x. */
  lemma OffsetNested(s: Shape, x: nat, y: nat, mapIdx: nat, sample: nat)
    ensures OffsetOf(s, x, y, mapIdx, sample) == ((sample * s.maps + mapIdx) * s.height + y) * s.width + x
  {
    var m, h, w := s.maps, s.height, s.width;
    calc {
      ((sample * m + mapIdx) * h + y) * w + x;
      (sample * m + mapIdx) * h * w + y * w + x;
      { assert (sample * m + mapIdx) * h * w == sample * m * h * w + mapIdx * h * w; }
      sample * m * h * w + mapIdx * h * w + y * w + x;
      { assert sample * m * h * w == sample * m * w * h;
        assert mapIdx * h * w == mapIdx * w * h; }
      OffsetOf(s, x, y, mapIdx, sample);
    }
  }

  lemma ElementsBySample(s: Shape)
    ensures s.Elements() == s.samples * s.PerSample()
  {
    assert s.samples * s.maps * s.height * s.width == s.samples * (s.maps * s.height * s.width);
  }

  /** The first element of a sample sits at sample * PerSample(). */
  lemma SampleStart(s: Shape, sample: nat)
    ensures OffsetOf(s, 0, 0, 0, sample) == sample * s.PerSample()
  {
    OffsetNested(s, 0, 0, 0, sample);
    assert sample * s.maps * s.height * s.width == sample * (s.maps * s.height * s.width);
  }

  /** Every in-range index addresses an element inside the tensor. */
  lemma OffsetBound(s: Shape, x: nat, y: nat, mapIdx: nat, sample: nat)
    requires InRange(s, x, y, mapIdx, sample)
    ensures OffsetOf(s, x, y, mapIdx, sample) < s.Elements()
  {
    OffsetNested(s, x, y, mapIdx, sample);
    var a := sample * s.maps + mapIdx;
    Arith.DigitBound(sample, mapIdx, s.maps, s.samples);
    var b := a * s.height + y;
    Arith.DigitBound(a, y, s.height, s.samples * s.maps);
    Arith.DigitBound(b, x, s.width, s.samples * s.maps * s.height);
  }

  /** The in-range indices of one sample address that sample's block of
      PerSample() consecutive elements. */
  lemma OffsetInSample(s: Shape, x: nat, y: nat, mapIdx: nat, sample: nat)
    requires InRange(s, x, y, mapIdx, sample)
    ensures sample * s.PerSample() <= OffsetOf(s, x, y, mapIdx, sample) < sample * s.PerSample() + s.PerSample()
  {
    var one := Shape(1, s.maps, s.height, s.width);
    OffsetBound(one, x, y, mapIdx, 0);
    assert one.Elements() == s.PerSample();
    SampleStart(s, sample);
    assert OffsetOf(s, x, y, mapIdx, sample) == OffsetOf(s, 0, 0, 0, sample) + OffsetOf(one, x, y, mapIdx, 0);
  }

  /** Distinct in-range indices address distinct elements. */
  lemma OffsetInjective(s: Shape, i: Index, j: Index)
    requires InRange(s, i.x, i.y, i.mapIdx, i.sample) && InRange(s, j.x, j.y, j.mapIdx, j.sample)
    requires OffsetOf(s, i.x, i.y, i.mapIdx, i.sample) == OffsetOf(s, j.x, j.y, j.mapIdx, j.sample)
    ensures i == j
  {
    var ai, aj := Arith.Digits(i.sample, i.mapIdx, s.maps), Arith.Digits(j.sample, j.mapIdx, s.maps);
    var bi, bj := Arith.Digits(ai, i.y, s.height), Arith.Digits(aj, j.y, s.height);
    assert bi * s.width + i.x == bj * s.width + j.x by {
      OffsetNested(s, i.x, i.y, i.mapIdx, i.sample);
      OffsetNested(s, j.x, j.y, j.mapIdx, j.sample);
    }
    Arith.DigitUnique(bi, i.x, bj, j.x, s.width);
    Arith.DigitUnique(ai, i.y, aj, j.y, s.height);
    Arith.DigitUnique(i.sample, i.mapIdx, j.sample, j.mapIdx, s.maps);
  }

  /** The index addressed by element number k: every element of the tensor
      is addressed by some in-range index, so the offsets of the in-range
      indices cover exactly [0, Elements()). */
  function Coordinates(s: Shape, k: nat): (i: Index)
    requires k < s.Elements()
    ensures InRange(s, i.x, i.y, i.mapIdx, i.sample)
    ensures OffsetOf(s, i.x, i.y, i.mapIdx, i.sample) == k
  {
    PositiveRadices(s, k);
    var b := Arith.High(k, s.width);
    var a := Arith.High(b, s.height);
    CoordinatesSplit(s, k);
    Index(Arith.Low(k, s.width), Arith.Low(b, s.height), Arith.Low(a, s.maps), Arith.High(a, s.maps))
  }

  lemma PositiveRadices(s: Shape, k: nat)
    requires k < s.Elements()
    ensures 0 < s.width && 0 < s.height && 0 < s.maps
  {
    assert s.Elements() == s.samples * s.maps * s.height * s.width;
  }

  /** Element number k written with the radices width, height and maps. */
  lemma CoordinatesSplit(s: Shape, k: nat)
    requires k < s.Elements() && 0 < s.width && 0 < s.height && 0 < s.maps
    ensures var b := Arith.High(k, s.width);
            var a := Arith.High(b, s.height);
            var i := Index(Arith.Low(k, s.width), Arith.Low(b, s.height), Arith.Low(a, s.maps), Arith.High(a, s.maps));
            InRange(s, i.x, i.y, i.mapIdx, i.sample) && OffsetOf(s, i.x, i.y, i.mapIdx, i.sample) == k
  {
    var w, h, m := s.width, s.height, s.maps;
    Arith.DigitSplit(k, w, s.samples * m * h);
    var b := Arith.High(k, w);
    Arith.DigitSplit(b, h, s.samples * m);
    var a := Arith.High(b, h);
    Arith.DigitSplit(a, m, s.samples);
    var i := Index(Arith.Low(k, w), Arith.Low(b, h), Arith.Low(a, m), Arith.High(a, m));
    assert k == ((i.sample * m + i.mapIdx) * h + i.y) * w + i.x;
    OffsetNested(s, i.x, i.y, i.mapIdx, i.sample);
  }

  /** Coordinates inverts OffsetOf on in-range indices. */
  lemma CoordinatesOfOffset(s: Shape, i: Index)
    requires InRange(s, i.x, i.y, i.mapIdx, i.sample)
    ensures OffsetOf(s, i.x, i.y, i.mapIdx, i.sample) < s.Elements()
    ensures Coordinates(s, OffsetOf(s, i.x, i.y, i.mapIdx, i.sample)) == i
  {
    OffsetBound(s, i.x, i.y, i.mapIdx, i.sample);
    var k := OffsetOf(s, i.x, i.y, i.mapIdx, i.sample);
    OffsetInjective(s, Coordinates(s, k), i);
  }

  /** Element j of a sample lies inside the tensor. */
  lemma SampleElementBound(s: Shape, sample: nat, j: nat)
    requires sample < s.samples && j < s.PerSample()
    ensures sample * s.PerSample() + j < s.Elements()
  {
    ElementsBySample(s);
    Arith.DigitBound(sample, j, s.PerSample(), s.samples);
    assert sample * s.PerSample() == s.PerSample() * sample;
  }

  /** A whole sample lies inside the tensor. */
  lemma SampleEnd(s: Shape, sample: nat)
    requires sample < s.samples
    ensures 0 <= sample * s.PerSample()
    ensures sample * s.PerSample() + s.PerSample() <= s.Elements()
  {
    ElementsBySample(s);
    Arith.MulMonotone(sample + 1, s.samples, s.PerSample());
  }

  /** A sample of a shape with elements per sample has a first element. */
  lemma SampleHasFirst(s: Shape, sample: nat)
    requires 0 < s.PerSample() && sample < s.samples
    ensures InRange(s, 0, 0, 0, sample)
  {
    assert s.PerSample() == s.maps * (s.height * s.width);
  }
}
