/** The C++ `vector<T>` of main.cpp: a pointer to a block of `T` and an
    element count, grown by one element per append, with `begin`/`end`
    positions and a `print` that walks the range between them. */
module TemplateVector {
  import Decimal
  import Output
  import Allocator

  /** What `data` points at: `nullptr`, or a block holding the elements. */
  datatype Storage<T> = Null | Block(elems: seq<T>)

  /** The lines `print` writes for elements `elems`, each element written by
      `format` (the element type's `operator<<`). */
  function Printed<T>(elems: seq<T>, format: T -> string): (r: seq<string>)
    ensures |elems| == 0 ==> r == []
    ensures |elems| > 0 ==> |r| == |elems| + 3
    ensures |elems| > 0 ==> r[0] == Output.Delimiter() && r[|elems| + 1] == Output.Delimiter() && r[|elems| + 2] == ""
    ensures |elems| > 0 ==> forall k :: 0 <= k < |elems| ==> r[k + 1] == format(elems[k])
  {
    if |elems| == 0 then [] else Output.Framed(Output.Render(elems, format))
  }

  class Vector<T> {
    var data: Storage<T>
    var size: nat

    /** The pointer is null exactly when nothing is stored, and the block
        holds exactly `size` elements. */
    predicate Valid()
      reads this
    {
      match data
      case Null => size == 0
      case Block(elems) => size > 0 && |elems| == size
    }

    function Elements(): (r: seq<T>)
      reads this
      requires Valid()
      ensures |r| == size
    {
      if data.Null? then [] else data.elems
    }

    /** The default member initialisers: `data = nullptr`, `size = 0`. */
    constructor ()
      ensures Valid()
      ensures data == Null && size == 0 && Elements() == []
    {
      data := Null;
      size := 0;
    }

    /** Positions are offsets from `data`; `begin()` is `data` itself. */
    function Begin(): nat
      reads this
    {
      0
    }

    /** The elements at positions `first` up to, not including, `last`. */
    function Range(first: nat, last: nat): (r: seq<T>)
      reads this
      requires Valid() && Begin() <= first <= last <= Begin() + size
      ensures |r| == last - first
    {
      Elements()[first - Begin()..last - Begin()]
    }

    /** `end()`: `data + size`, so `[begin(), end())` covers exactly the
        stored elements. */
    function End(): (p: nat)
      reads this
      ensures p - Begin() == size
      ensures Valid() ==> Range(Begin(), p) == Elements()
    {
      Begin() + size
    }

    /** `*p` for a position `p` inside the range. */
    function At(p: nat): (x: T)
      reads this
      requires Valid() && Begin() <= p < End()
      ensures Range(p, p + 1) == [x]
    {
      Elements()[p - Begin()]
    }

    /** `push_back`: 0 and the element appended when the reallocation
        succeeds; 1 and nothing changed when it fails. */
    method PushBack(x: T, allocOk: bool) returns (status: int)
      requires Valid()
      modifies this
      ensures Valid()
      ensures status == (if allocOk then 0 else 1)
      ensures allocOk ==> size == old(size) + 1 && Elements() == old(Elements()) + [x]
      ensures !allocOk ==> data == old(data) && size == old(size)
    {
      if !allocOk { return 1; }
      var copy := Elements() + [x];
      size := size + 1;
      data := Block(copy);
      return 0;
    }

    /** `print`: nothing for an empty vector; otherwise the delimiter, one
        line per element from `begin()` to `end()`, the delimiter and a blank
        line. */
    method Print(format: T -> string) returns (lines: seq<string>)
      requires Valid()
      ensures lines == Printed(Elements(), format)
    {
      lines := [];
      if size == 0 { return; }
      lines := [Output.Delimiter()];
      var p := Begin();
      while p < End()
        invariant Begin() <= p <= End()
        invariant lines == [Output.Delimiter()] + Output.Render(Range(Begin(), p), format)
      {
        assert Range(Begin(), p + 1) == Range(Begin(), p) + Range(p, p + 1);
        Output.RenderAppend(Range(Begin(), p), At(p), format);
        lines := lines + [format(At(p))];
        p := p + 1;
      }
      lines := lines + [Output.Delimiter(), ""];
    }
  }

  /** The values `main` appends: 0 up to and including 9. */
  function DemoValues(): (xs: seq<int>)
    ensures |xs| == 10
    ensures forall k :: 0 <= k < 10 ==> xs[k] == k
  {
    [0, 1, 2, 3, 4, 5, 6, 7, 8, 9]
  }

  /** The `vector<int>` half of `main`: a fresh vector, `push_back(i)` for
      `i` from 0 to 9 with the i-th reallocation having outcome
      `allocOk[i]` and the statuses ignored, then `print` with `%d`-style
      decimal output. */
  method DemoIntegers(allocOk: seq<bool>) returns (contents: seq<int>, lines: seq<string>)
    requires |allocOk| == 10
    ensures contents == Allocator.Kept(DemoValues(), allocOk)
    ensures lines == Printed(contents, Decimal.IntToString)
    ensures (forall k :: 0 <= k < 10 ==> allocOk[k]) ==> contents == DemoValues()
    ensures (forall k :: 0 <= k < 10 ==> allocOk[k]) ==>
      |lines| == 13 && lines[1..11] == ["0", "1", "2", "3", "4", "5", "6", "7", "8", "9"]
  {
    var v := new Vector<int>();
    var i := 0;
    while i < 10
      invariant 0 <= i <= 10
      invariant v.Valid()
      invariant v.Elements() == Allocator.Kept(DemoValues()[..i], allocOk[..i])
    {
      Allocator.KeptAppend(DemoValues()[..i], i, allocOk[..i], allocOk[i]);
      assert DemoValues()[..i + 1] == DemoValues()[..i] + [i];
      assert allocOk[..i + 1] == allocOk[..i] + [allocOk[i]];
      var _ := v.PushBack(i, allocOk[i]);
      i := i + 1;
    }
    assert DemoValues()[..10] == DemoValues();
    assert allocOk[..10] == allocOk;
    contents := v.Elements();
    lines := v.Print(Decimal.IntToString);
    if forall k :: 0 <= k < 10 ==> allocOk[k] {
      DemoPrintedLines();
    }
  }

  /** With every allocation succeeding, `main` prints "0" up to "9" between
      the delimiters. */
  lemma DemoPrintedLines()
    ensures |Printed(DemoValues(), Decimal.IntToString)| == 13
    ensures Printed(DemoValues(), Decimal.IntToString)[1..11] == ["0", "1", "2", "3", "4", "5", "6", "7", "8", "9"]
  {
    var r := Printed(DemoValues(), Decimal.IntToString);
    assert r[1] == Decimal.IntToString(0) == "0";
    assert r[2] == Decimal.IntToString(1) == "1";
    assert r[3] == Decimal.IntToString(2) == "2";
    assert r[4] == Decimal.IntToString(3) == "3";
    assert r[5] == Decimal.IntToString(4) == "4";
    assert r[6] == Decimal.IntToString(5) == "5";
    assert r[7] == Decimal.IntToString(6) == "6";
    assert r[8] == Decimal.IntToString(7) == "7";
    assert r[9] == Decimal.IntToString(8) == "8";
    assert r[10] == Decimal.IntToString(9) == "9";
  }
}
