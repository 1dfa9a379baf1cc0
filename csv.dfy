/** The text ConfusionMatrixLayer::PrintCSV writes: a header line
    "classified," followed by the class names, then one line per class with
    its name and that row's counts truncated to integers, every field
    separated by a comma and every line ended by a newline. */
module Csv {
  import opened Confusion

  /** xs with d between neighbours and no trailing d. */
  function Join(xs: seq<string>, d: char): string {
    if |xs| == 0 then ""
    else if |xs| == 1 then xs[0]
    else Join(xs[..|xs| - 1], d) + [d] + xs[|xs| - 1]
  }

  /** Each line followed by a newline, as a stream written with std::endl
      after every line holds them. */
  function Terminated(lines: seq<string>): string {
    if |lines| == 0 then ""
    else Terminated(lines[..|lines| - 1]) + lines[|lines| - 1] + "\n"
  }

  /** s cut at every d: the fields a reader of the text sees. */
  function Split(s: string, d: char): (r: seq<string>)
    ensures |r| >= 1
    decreases |s|
  {
    if |s| == 0 then [""]
    else
      var rest := Split(s[1..], d);
      if s[0] == d then [""] + rest else [[s[0]] + rest[0]] + rest[1..]
  }

  predicate Free(s: string, d: char) {
    forall i :: 0 <= i < |s| ==> s[i] != d
  }

  // ---------------------------------------------------------------------
  // Decimal text of the counts

  function Digit(k: nat): char
    requires k < 10
  {
    (48 + k) as char
  }

  predicate Digits(s: string) {
    forall i :: 0 <= i < |s| ==> '0' <= s[i] <= '9'
  }

  /** Decimal digits of k, most significant first. */
  function NatText(k: nat): (s: string)
    ensures |s| >= 1
  {
    if k < 10 then [Digit(k)] else NatText(k / 10) + [Digit(k % 10)]
  }

  /** What `operator<<` writes for a long. */
  function IntText(i: int): (s: string)
    ensures 1 <= |s|
  {
    if i < 0 then "-" + NatText(-i) else NatText(i)
  }

  /** The value of a string of decimal digits. */
  function ParseNat(s: string): nat
    requires Digits(s)
  {
    if |s| == 0 then 0
    else ParseNat(s[..|s| - 1]) * 10 + (s[|s| - 1] as int - 48)
  }

  /** An optional minus sign followed by decimal digits. */
  predicate IntSyntax(s: string) {
    if 0 < |s| && s[0] == '-' then Digits(s[1..]) else Digits(s)
  }

  /** The value of an optional minus sign followed by decimal digits. */
  function ParseInt(s: string): int
    requires IntSyntax(s)
  {
    if 0 < |s| && s[0] == '-' then -(ParseNat(s[1..]) as int) else ParseNat(s)
  }

  /** static_cast<long> of a value: truncation toward zero. */
  function Truncate(r: real): (i: int)
    ensures 0.0 <= r ==> i as real <= r < i as real + 1.0
    ensures r < 0.0 ==> i as real - 1.0 < r <= i as real
  {
    if 0.0 <= r then r.Floor else -((-r).Floor)
  }

  /** The decimal text of a number is made of digits only. */
  lemma {:induction false} NatTextDigits(k: nat)
    ensures Digits(NatText(k))
  {
    if k >= 10 {
      NatTextDigits(k / 10);
    }
  }

  /** A count's text holds neither separator of the CSV text. */
  lemma IntTextFree(i: int)
    ensures Free(IntText(i), ',') && Free(IntText(i), '\n')
  {
    NatTextDigits(if i < 0 then -i else i);
  }

  lemma {:induction false} ParseNatText(k: nat)
    ensures Digits(NatText(k)) && ParseNat(NatText(k)) == k
  {
    NatTextDigits(k);
    if k >= 10 {
      ParseNatText(k / 10);
      var s := NatText(k);
      assert s[..|s| - 1] == NatText(k / 10);
    }
  }

  /** Every count reads back as the integer it was written from. */
  lemma IntTextRoundTrip(i: int)
    ensures IntSyntax(IntText(i)) && ParseInt(IntText(i)) == i
  {
    if i < 0 {
      ParseNatText(-i);
      assert IntText(i)[1..] == NatText(-i);
    } else {
      ParseNatText(i);
      NatTextDigits(i);
    }
  }

  // ---------------------------------------------------------------------
  // Splitting what was joined

  lemma {:induction false} SplitFree(a: string, d: char)
    requires Free(a, d)
    ensures Split(a, d) == [a]
    decreases |a|
  {
    if |a| > 0 {
      SplitFree(a[1..], d);
      assert [a[0]] + a[1..] == a;
    }
  }

  lemma {:induction false} SplitAt(a: string, b: string, d: char)
    requires Free(a, d)
    ensures Split(a + [d] + b, d) == [a] + Split(b, d)
    decreases |a|
  {
    if |a| == 0 {
      assert a + [d] + b == [d] + b;
      assert ([d] + b)[1..] == b;
    } else {
      SplitAt(a[1..], b, d);
      assert (a + [d] + b)[1..] == a[1..] + [d] + b;
      assert [a[0]] + a[1..] == a;
    }
  }

  /** Appending a field appends a separator and the field. */
  lemma JoinSnoc(xs: seq<string>, x: string, d: char)
    ensures Join(xs + [x], d) == if |xs| == 0 then x else Join(xs, d) + [d] + x
  {
    assert (xs + [x])[..|xs|] == xs;
  }

  /** What a writer that puts d after every field but the last has written
      after the first c fields of xs. */
  function Partial(xs: seq<string>, c: nat, d: char): string
    requires c <= |xs|
  {
    Join(xs[..c], d) + (if 0 < c < |xs| then [d] else [])
  }

  /** Writing field c and, unless it is the last, a separator extends the
      partial text by one field. */
  lemma PartialStep(lead: string, xs: seq<string>, c: nat, d: char)
    requires c < |xs|
    ensures lead + Partial(xs, c + 1, d) == lead + Partial(xs, c, d) + xs[c] + (if c + 1 < |xs| then [d] else [])
  {
    JoinSnoc(xs[..c], xs[c], d);
    assert xs[..c + 1] == xs[..c] + [xs[c]];
  }

  /** After every field the partial text is the joined text. */
  lemma PartialDone(xs: seq<string>, d: char)
    ensures Partial(xs, |xs|, d) == Join(xs, d)
  {
    assert xs[..|xs|] == xs;
  }

  lemma {:induction false} JoinCons(x: string, xs: seq<string>, d: char)
    requires |xs| >= 1
    ensures Join([x] + xs, d) == x + [d] + Join(xs, d)
    decreases |xs|
  {
    if |xs| > 1 {
      var k := |xs| - 1;
      JoinCons(x, xs[..k], d);
      assert ([x] + xs)[..|xs|] == [x] + xs[..k];
    } else {
      assert [x] + xs == [x, xs[0]];
    }
  }

  /** Splitting a joined sequence of fields gives the fields back, provided
      no field holds the separator. */
  lemma {:induction false} SplitJoin(xs: seq<string>, d: char)
    requires |xs| >= 1
    requires forall i :: 0 <= i < |xs| ==> Free(xs[i], d)
    ensures Split(Join(xs, d), d) == xs
    decreases |xs|
  {
    if |xs| == 1 {
      SplitFree(xs[0], d);
    } else {
      JoinCons(xs[0], xs[1..], d);
      assert [xs[0]] + xs[1..] == xs;
      SplitAt(xs[0], Join(xs[1..], d), d);
      SplitJoin(xs[1..], d);
    }
  }

  lemma {:induction false} TerminatedIsJoin(lines: seq<string>)
    ensures Terminated(lines) == Join(lines + [""], '\n')
    decreases |lines|
  {
    if |lines| > 0 {
      var k := |lines| - 1;
      TerminatedIsJoin(lines[..k]);
      assert (lines + [""])[..|lines|] == lines;
      assert (lines[..k] + [""])[..k] == lines[..k];
      if k > 0 {
        assert lines[..k] + [""] == (lines + [""])[..k] + [""];
        assert (lines + [""])[..k + 1] == lines[..k] + [lines[k]];
      }
    }
  }

  // ---------------------------------------------------------------------
  // The CSV document

  function Header(names: seq<string>, n: nat): string
    requires n <= |names|
  {
    "classified," + Join(names[..n], ',')
  }

  /** The counts of row t, truncated and written in decimal. */
  function RowCells(m: seq<real>, n: nat, t: nat): (cells: seq<string>)
    requires |m| == n * n && t < n
    ensures |cells| == n
  {
    seq(n, c requires 0 <= c < n => IntText(Truncate(Cell(m, n, t, c))))
  }

  lemma RowCellAt(m: seq<real>, n: nat, t: nat, c: nat)
    requires |m| == n * n && t < n && c < n
    ensures t * n + c < |m|
    ensures RowCells(m, n, t)[c] == IntText(Truncate(m[t * n + c]))
  {
    CellIndexBound(n, t, c);
  }

  function Row(names: seq<string>, m: seq<real>, n: nat, t: nat): string
    requires |m| == n * n && t < n && n <= |names|
  {
    names[t] + "," + Join(RowCells(m, n, t), ',')
  }

  /** The header line and one line per class. */
  function Lines(names: seq<string>, m: seq<real>, n: nat): (lines: seq<string>)
    requires |m| == n * n && n <= |names|
    ensures |lines| == n + 1
  {
    [Header(names, n)] + seq(n, t requires 0 <= t < n => Row(names, m, n, t))
  }

  function CsvText(names: seq<string>, m: seq<real>, n: nat): string
    requires |m| == n * n && n <= |names|
  {
    Terminated(Lines(names, m, n))
  }

  /** Read back line by line, the document is the header, then exactly one
      line per class, then nothing after the last newline. */
  lemma CsvLines(names: seq<string>, m: seq<real>, n: nat)
    requires |m| == n * n && n <= |names|
    requires forall t :: 0 <= t < n ==> Free(names[t], '\n')
    ensures Split(CsvText(names, m, n), '\n') == Lines(names, m, n) + [""]
  {
    var lines := Lines(names, m, n);
    TerminatedIsJoin(lines);
    forall i | 0 <= i < |lines + [""]|
      ensures Free((lines + [""])[i], '\n')
    {
      if i == 0 {
        HeaderFree(names, n);
      } else if i <= n {
        RowFree(names, m, n, i - 1);
      }
    }
    SplitJoin(lines + [""], '\n');
  }

  lemma HeaderFree(names: seq<string>, n: nat)
    requires n <= |names|
    requires forall t :: 0 <= t < n ==> Free(names[t], '\n')
    ensures Free(Header(names, n), '\n')
  {
    JoinFree(names[..n], ',', '\n');
  }

  lemma RowFree(names: seq<string>, m: seq<real>, n: nat, t: nat)
    requires |m| == n * n && t < n && n <= |names|
    requires Free(names[t], '\n')
    ensures Free(Row(names, m, n, t), '\n')
  {
    var cells := RowCells(m, n, t);
    forall c | 0 <= c < n
      ensures Free(cells[c], '\n')
    {
      IntTextFree(Truncate(Cell(m, n, t, c)));
    }
    JoinFree(cells, ',', '\n');
  }

  lemma {:induction false} JoinFree(xs: seq<string>, d: char, e: char)
    requires d != e
    requires forall i :: 0 <= i < |xs| ==> Free(xs[i], e)
    ensures Free(Join(xs, d), e)
    decreases |xs|
  {
    if |xs| > 1 {
      JoinFree(xs[..|xs| - 1], d, e);
    }
  }

  /** Read back field by field, the line of class t is its name followed by
      that row's counts, each the truncation of its cell. */
  lemma RowFields(names: seq<string>, m: seq<real>, n: nat, t: nat)
    requires |m| == n * n && t < n && n <= |names|
    requires Free(names[t], ',')
    ensures Split(Row(names, m, n, t), ',') == [names[t]] + RowCells(m, n, t)
    ensures forall c :: 0 <= c < n ==>
              IntSyntax(RowCells(m, n, t)[c]) && ParseInt(RowCells(m, n, t)[c]) == Truncate(Cell(m, n, t, c))
  {
    var cells := RowCells(m, n, t);
    forall c | 0 <= c < n
      ensures Free(cells[c], ',')
    {
      IntTextFree(Truncate(Cell(m, n, t, c)));
    }
    SplitJoin(cells, ',');
    SplitAt(names[t], Join(cells, ','), ',');
    assert names[t] + "," + Join(cells, ',') == names[t] + [','] + Join(cells, ',');
    forall c | 0 <= c < n
      ensures IntSyntax(cells[c]) && ParseInt(cells[c]) == Truncate(Cell(m, n, t, c))
    {
      IntTextRoundTrip(Truncate(Cell(m, n, t, c)));
    }
  }

  /** Read back field by field, the header is "classified" followed by the
      class names. */
  lemma HeaderFields(names: seq<string>, n: nat)
    requires 1 <= n <= |names|
    requires forall t :: 0 <= t < n ==> Free(names[t], ',')
    ensures Split(Header(names, n), ',') == ["classified"] + names[..n]
  {
    SplitJoin(names[..n], ',');
    SplitAt("classified", Join(names[..n], ','), ',');
    assert "classified," + Join(names[..n], ',') == "classified" + [','] + Join(names[..n], ',');
  }
}
