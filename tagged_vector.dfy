/** The C vector of vector.h: one struct whose buffer is a union of an
    `int` block and a `double` block, an element count, and a type tag that
    says which member of the union is in use.

    The struct's state is the value `State`; the pure functions below give
    the effect of each operation on it and carry the source's promises, and
    the class `Vector` performs the operations in place with contracts that
    tie each new state to those functions. `double` elements are kept
    abstract as the type parameter `D`. */
module TaggedVector {
  import Decimal
  import Output
  import Allocator

  /** A C `int`. */
  newtype Int32 = x: int | -0x8000_0000 <= x < 0x8000_0000

  /** `enum vector_type`. */
  datatype VectorType = Int | Double | None

  /** `union vector_data_ptr`: a null pointer, or the block of the member
      in use with the elements it holds. */
  datatype Buffer<D> = Null | Ints(ints: seq<Int32>) | Doubles(doubles: seq<D>)

  /** `struct vector`. */
  datatype State<D> = State(data: Buffer<D>, size: nat, kind: VectorType)

  /** A value handed to `vector_push_back`, already read at its own type. */
  datatype Element<D> = IntElement(n: Int32) | DoubleElement(d: D)

  /** What callers of `vector_push_back` must ensure: the element points at
      a value of the vector's declared type. */
  predicate Matches<D>(kind: VectorType, x: Element<D>) {
    match kind
    case Int => x.IntElement?
    case Double => x.DoubleElement?
    case None => true
  }

  /** The states the operations reach: the pointer is null exactly when the
      vector is empty, an untyped vector has no buffer, and the buffer in use
      is the one of the tag and holds exactly `size` elements. */
  predicate Wellformed<D>(s: State<D>) {
    (s.data.Null? <==> s.size == 0) &&
    (s.kind == None ==> s.data.Null?) &&
    (s.data.Ints? ==> s.kind == Int && |s.data.ints| == s.size) &&
    (s.data.Doubles? ==> s.kind == Double && |s.data.doubles| == s.size)
  }

  /** The stored elements in index order. */
  function Contents<D>(s: State<D>): (r: seq<Element<D>>)
    ensures Wellformed(s) ==> |r| == s.size
  {
    match s.data
    case Null => []
    case Ints(a) => seq(|a|, k requires 0 <= k < |a| => IntElement(a[k]))
    case Doubles(a) => seq(|a|, k requires 0 <= k < |a| => DoubleElement(a[k]))
  }

  function IntsOf<D>(b: Buffer<D>): seq<Int32> {
    if b.Ints? then b.ints else []
  }

  function DoublesOf<D>(b: Buffer<D>): seq<D> {
    if b.Doubles? then b.doubles else []
  }

  /** `vector_init(self, kind)`. */
  function InitState<D>(kind: VectorType): (r: State<D>)
    ensures Wellformed(r)
    ensures r.size == 0 && r.data == Null && r.kind == kind && Contents(r) == []
  {
    State(Null, 0, kind)
  }

  /** `vector_clear(self)`: releases the buffer and keeps the tag. */
  function ClearState<D>(s: State<D>): (r: State<D>)
    ensures Wellformed(r)
    ensures r.size == 0 && r.data == Null && r.kind == s.kind && Contents(r) == []
  {
    State(Null, 0, s.kind)
  }

  /** `vector_push_back(self, &x)` when the reallocation has outcome
      `allocOk`: the new state and the returned status. */
  function PushBackState<D>(s: State<D>, x: Element<D>, allocOk: bool): (r: (State<D>, int))
    requires Wellformed(s) && Matches(s.kind, x)
    ensures Wellformed(r.0) && r.0.kind == s.kind
    ensures r.1 == 0 <==> s.kind != None && allocOk
    ensures r.1 == 0 || r.1 == 1
    ensures r.1 == 0 ==> r.0.size == s.size + 1 && Contents(r.0) == Contents(s) + [x]
    ensures r.1 == 1 ==> r.0 == s
  {
    match s.kind
    case Int =>
      if allocOk then
        var a := IntsOf(s.data) + [x.n];
        assert Contents(State(Ints(a), s.size + 1, Int))[s.size] == x;
        (State(Ints(a), s.size + 1, Int), 0)
      else (s, 1)
    case Double =>
      if allocOk then
        var a := DoublesOf(s.data) + [x.d];
        assert Contents(State(Doubles(a), s.size + 1, Double))[s.size] == x;
        (State(Doubles(a), s.size + 1, Double), 0)
      else (s, 1)
    case None => (s, 1)
  }

  /** Appending `xs` one after another, the i-th reallocation having outcome
      `allocOk[i]` and the returned statuses ignored. */
  function PushAll<D>(s: State<D>, xs: seq<Element<D>>, allocOk: seq<bool>): (r: State<D>)
    requires Wellformed(s) && |allocOk| == |xs|
    requires forall k :: 0 <= k < |xs| ==> Matches(s.kind, xs[k])
    ensures Wellformed(r) && r.kind == s.kind
    ensures s.kind != None ==> Contents(r) == Contents(s) + Allocator.Kept(xs, allocOk)
    ensures s.kind != None ==> r.size == s.size + |Allocator.Kept(xs, allocOk)|
    ensures s.kind == None ==> r == s
    decreases |xs|
  {
    if |xs| == 0 then s
    else
      var n := |xs| - 1;
      var before := PushAll(s, xs[..n], allocOk[..n]);
      PushBackState(before, xs[n], allocOk[n]).0
  }

  /** The line `vector_print` writes for one element: `%d` for an `int`,
      the abstract `%lg` rendering `formatDouble` for a `double`. */
  function ElementLine<D>(x: Element<D>, formatDouble: D -> string): string {
    match x
    case IntElement(n) => Decimal.IntToString(n as int)
    case DoubleElement(d) => formatDouble(d)
  }

  /** The lines `vector_print` writes. */
  function Printed<D>(s: State<D>, formatDouble: D -> string): (r: seq<string>)
    requires Wellformed(s)
    ensures r == [] <==> s.size == 0 || s.kind == None
    ensures r != [] ==> |r| == s.size + 3
    ensures r != [] ==> r[0] == Output.Delimiter() && r[s.size + 1] == Output.Delimiter() && r[s.size + 2] == ""
    ensures r != [] ==> forall k :: 0 <= k < s.size ==> r[k + 1] == ElementLine(Contents(s)[k], formatDouble)
  {
    if s.size == 0 || s.kind == None then []
    else Output.Framed(Output.Render(Contents(s), x => ElementLine(x, formatDouble)))
  }

  /** Clearing twice is clearing once. */
  lemma ClearIdempotent<D>(s: State<D>)
    ensures ClearState(ClearState(s)) == ClearState(s)
  {
  }

  /** After `vector_clear` nothing is printed, and the vector takes appends
      again at its old type. */
  lemma ClearThenPrintAndPush<D>(s: State<D>, x: Element<D>, formatDouble: D -> string)
    requires s.kind != None && Matches(s.kind, x)
    ensures Printed(ClearState(s), formatDouble) == []
    ensures PushBackState(ClearState(s), x, true).1 == 0
    ensures Contents(PushBackState(ClearState(s), x, true).0) == [x]
  {
  }

  /** N appends from a freshly initialised typed vector, all reallocations
      succeeding, store exactly those N values in order. */
  lemma PushAllFromInit<D>(kind: VectorType, xs: seq<Element<D>>, allocOk: seq<bool>)
    requires kind != None && |allocOk| == |xs|
    requires forall k :: 0 <= k < |xs| ==> Matches(kind, xs[k])
    requires forall k :: 0 <= k < |allocOk| ==> allocOk[k]
    ensures PushAll(InitState(kind), xs, allocOk).size == |xs|
    ensures Contents(PushAll(InitState(kind), xs, allocOk)) == xs
  {
  }

  /** On an untyped vector, any run of appends changes nothing. */
  lemma PushAllUntyped<D>(xs: seq<Element<D>>, allocOk: seq<bool>)
    requires |allocOk| == |xs|
    ensures PushAll(InitState(None), xs, allocOk) == InitState(None)
  {
  }

  /** The body lines of an `int` vector's print read back, through
      `Decimal.Parse`, as the stored integers in index order. */
  lemma PrintedIntsReadBack<D>(s: State<D>, formatDouble: D -> string)
    requires Wellformed(s) && s.kind == Int
    ensures forall k :: 0 <= k < s.size ==>
      Decimal.Parse(Printed(s, formatDouble)[k + 1]) == Decimal.Some(s.data.ints[k] as int)
  {
    forall k | 0 <= k < s.size
      ensures Decimal.Parse(Printed(s, formatDouble)[k + 1]) == Decimal.Some(s.data.ints[k] as int)
    {
      assert Contents(s)[k] == IntElement(s.data.ints[k]);
      Decimal.ParseIntToString(s.data.ints[k] as int);
    }
  }

  /** `struct vector` updated in place through `self`. */
  class Vector<D> {
    var data: Buffer<D>
    var size: nat
    var kind: VectorType

    function Model(): State<D>
      reads this
    {
      State(data, size, kind)
    }

    predicate Valid()
      reads this
    {
      Wellformed(Model())
    }

    /** `struct vector v;`: storage for a vector whose fields have no
        promised values until `Init` is called. */
    constructor Declared()
    {
    }

    /** `vector_data_ptr_init`: both members of the union are set to null. */
    method DataPtrInit()
      modifies this`data
      ensures data == Null
    {
      data := Null;
    }

    /** `vector_data_ptr_clear`: both members of the union are set to null.
        `usedType` only selects which block the source frees, and freeing is
        not modelled, so the parameter is not read. */
    method DataPtrClear(usedType: VectorType)
      modifies this`data
      ensures data == Null
    {
      data := Null;
    }

    /** `vector_init`: works on a struct in any state. */
    method Init(t: VectorType)
      modifies this
      ensures Valid()
      ensures Model() == InitState(t)
    {
      DataPtrInit();
      size := 0;
      kind := t;
    }

    /** `vector_clear`. */
    method Clear()
      modifies this
      ensures Valid()
      ensures Model() == ClearState(old(Model()))
    {
      DataPtrClear(kind);
      size := 0;
    }

    /** `vector_push_back`: 0 on success, 1 when the vector is untyped or
        the reallocation fails, and then nothing changes. */
    method PushBack(x: Element<D>, allocOk: bool) returns (status: int)
      requires Valid() && Matches(kind, x)
      modifies this
      ensures Valid()
      ensures (Model(), status) == PushBackState(old(Model()), x, allocOk)
    {
      if kind == Int {
        if !allocOk { return 1; }
        var copy := IntsOf(data) + [x.n];
        size := size + 1;
        data := Ints(copy);
        return 0;
      } else if kind == Double {
        if !allocOk { return 1; }
        var copy := DoublesOf(data) + [x.d];
        size := size + 1;
        data := Doubles(copy);
        return 0;
      } else {
        return 1;
      }
    }

    /** `vector_print`: nothing for an empty or untyped vector; otherwise the
        delimiter, one line per element from index 0 up, the delimiter and a
        blank line. */
    method Print(formatDouble: D -> string) returns (lines: seq<string>)
      requires Valid()
      ensures lines == Printed(Model(), formatDouble)
    {
      lines := [];
      if size == 0 || kind == None { return; }
      ghost var body := Output.Render(Contents(Model()), x => ElementLine(x, formatDouble));
      lines := [Output.Delimiter()];
      var i := 0;
      while i < size
        invariant 0 <= i <= size
        invariant lines == [Output.Delimiter()] + body[..i]
      {
        assert body[..i + 1] == body[..i] + [body[i]];
        if kind == Int {
          assert body[i] == Decimal.IntToString(data.ints[i] as int);
          lines := lines + [Decimal.IntToString(data.ints[i] as int)];
        } else {
          assert body[i] == formatDouble(data.doubles[i]);
          lines := lines + [formatDouble(data.doubles[i])];
        }
        i := i + 1;
      }
      assert body[..size] == body;
      lines := lines + [Output.Delimiter(), ""];
    }
  }

  /** A caller's sequence on one vector: declare it, `vector_init` it with a
      type, append `x`, `vector_clear` it, print, append `y`, print again. */
  method ClearThenReuse<D>(kind: VectorType, x: Element<D>, y: Element<D>, allocOk: bool, formatDouble: D -> string)
    returns (afterClear: seq<string>, status: int, afterReuse: seq<string>)
    requires kind != None && Matches(kind, x) && Matches(kind, y)
    ensures afterClear == []
    ensures status == 0
    ensures |afterReuse| == 4
    ensures afterReuse[1] == ElementLine(y, formatDouble)
    ensures afterReuse[0] == afterReuse[2] == Output.Delimiter() && afterReuse[3] == ""
  {
    var v := new Vector<D>.Declared();
    v.Init(kind);
    var _ := v.PushBack(x, allocOk);
    v.Clear();
    afterClear := v.Print(formatDouble);
    status := v.PushBack(y, true);
    assert Contents(v.Model()) == [y];
    afterReuse := v.Print(formatDouble);
  }
}
