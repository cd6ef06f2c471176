/** The text both vectors print: each call to `fprintf` (or `operator<<`)
    is modelled as contributing whole lines, and `Text` turns lines back into
    the characters written, each line followed by a newline. */
module Output {

  /** The delimiter line both print routines write: 80 dashes. */
  function Delimiter(): (d: string)
    ensures |d| == 80
    ensures forall k :: 0 <= k < |d| ==> d[k] == '-'
  {
    seq(80, k => '-')
  }

  /** One line per element, in element order. */
  function Render<T>(xs: seq<T>, format: T -> string): (r: seq<string>)
    ensures |r| == |xs|
    ensures forall k :: 0 <= k < |xs| ==> r[k] == format(xs[k])
  {
    seq(|xs|, k requires 0 <= k < |xs| => format(xs[k]))
  }

  lemma RenderAppend<T>(xs: seq<T>, x: T, format: T -> string)
    ensures Render(xs + [x], format) == Render(xs, format) + [format(x)]
  {
    assert Render(xs + [x], format)[|xs|] == format(x);
  }

  /** A non-empty print: a delimiter line, the body, the delimiter again
      and a blank line. */
  function Framed(body: seq<string>): (r: seq<string>)
    ensures |r| == |body| + 3
    ensures r[0] == Delimiter() && r[|body| + 1] == Delimiter() && r[|body| + 2] == ""
    ensures r[1..|body| + 1] == body
  {
    [Delimiter()] + body + [Delimiter(), ""]
  }

  /** The characters written for a sequence of lines. */
  function Text(lines: seq<string>): string {
    if lines == [] then "" else lines[0] + "\n" + Text(lines[1..])
  }

  lemma {:induction false} TextAppend(a: seq<string>, b: seq<string>)
    ensures Text(a + b) == Text(a) + Text(b)
    decreases |a|
  {
    if a == [] {
      assert a + b == b;
    } else {
      assert (a + b)[0] == a[0];
      assert (a + b)[1..] == a[1..] + b;
      TextAppend(a[1..], b);
    }
  }

  /** The lines of a framed print are exactly the three writes of the source:
      the delimiter and a newline, one element and a newline per element, and
      the delimiter followed by two newlines. */
  lemma FramedText(body: seq<string>)
    ensures Text(Framed(body)) == Delimiter() + "\n" + Text(body) + Delimiter() + "\n\n"
  {
    TextAppend([Delimiter()] + body, [Delimiter(), ""]);
    TextAppend([Delimiter()], body);
    assert [Delimiter(), ""][1..] == [""];
    assert [""][1..] == [];
    assert [Delimiter()][1..] == [];
  }
}
