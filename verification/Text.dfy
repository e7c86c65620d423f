/** The string operations of Python that the chunker and the prompt builder rest on, and what they keep of a text. */
module Text {
  import opened Basics

  /** str.isspace, which is also what \s matches in a str pattern. */
  predicate IsSpace(c: char) {
    || '\t' <= c <= '\r'
    || '\U{1c}' <= c <= ' '
    || c == '\U{85}' || c == '\U{a0}' || c == '\U{1680}'
    || '\U{2000}' <= c <= '\U{200a}'
    || c == '\U{2028}' || c == '\U{2029}' || c == '\U{202f}' || c == '\U{205f}' || c == '\U{3000}'
  }

  /** The characters at which str.splitlines ends a line. */
  predicate IsLineBreak(c: char) {
    || '\n' <= c <= '\r'
    || '\U{1c}' <= c <= '\U{1e}'
    || c == '\U{85}' || c == '\U{2028}' || c == '\U{2029}'
  }

  predicate Blank(s: string) {
    forall i :: 0 <= i < |s| ==> IsSpace(s[i])
  }

  /** Nonempty, with no whitespace at either end. */
  predicate Trimmed(s: string) {
    s != "" && !IsSpace(s[0]) && !IsSpace(s[|s| - 1])
  }

  /** Where the run of whitespace that starts at i ends. */
  function SpaceEnd(s: string, i: nat): (w: nat)
    requires i <= |s|
    ensures i <= w <= |s|
    ensures forall k :: i <= k < w ==> IsSpace(s[k])
    ensures w < |s| ==> !IsSpace(s[w])
    decreases |s| - i
  {
    if i == |s| || !IsSpace(s[i]) then i else SpaceEnd(s, i + 1)
  }

  /** Where the run of whitespace that ends before j starts. */
  function SpaceStart(s: string, j: nat): (w: nat)
    requires j <= |s|
    ensures w <= j
    ensures forall k :: w <= k < j ==> IsSpace(s[k])
    ensures w > 0 ==> !IsSpace(s[w - 1])
  {
    if j == 0 || !IsSpace(s[j - 1]) then j else SpaceStart(s, j - 1)
  }

  function LStrip(s: string): (r: string)
    ensures r == "" || !IsSpace(r[0])
  {
    s[SpaceEnd(s, 0)..]
  }

  function RStrip(s: string): (r: string)
    ensures r == "" || !IsSpace(r[|r| - 1])
  {
    s[..SpaceStart(s, |s|)]
  }

  function Strip(s: string): (r: string)
    ensures r == "" || Trimmed(r)
  {
    RStrip(LStrip(s))
  }

  /** What is left of a text when all whitespace is taken out. */
  function Squeeze(s: string): string {
    if s == "" then "" else (if IsSpace(s[0]) then "" else [s[0]]) + Squeeze(s[1..])
  }

  lemma {:induction false} SqueezeConcat(a: string, b: string)
    ensures Squeeze(a + b) == Squeeze(a) + Squeeze(b)
  {
    if a == "" {
      assert a + b == b;
    } else {
      SqueezeConcat(a[1..], b);
      SqueezeFirst(a, b);
    }
  }

  lemma SqueezeFirst(a: string, b: string)
    requires a != "" && Squeeze(a[1..] + b) == Squeeze(a[1..]) + Squeeze(b)
    ensures Squeeze(a + b) == Squeeze(a) + Squeeze(b)
  {
    var first := if IsSpace(a[0]) then "" else [a[0]];
    assert (a + b)[0] == a[0] && (a + b)[1..] == a[1..] + b;
    assert Squeeze(a + b) == first + Squeeze(a[1..] + b) && Squeeze(a) == first + Squeeze(a[1..]);
    hide Squeeze, IsSpace;
    Assoc(first, Squeeze(a[1..]), Squeeze(b));
  }

  lemma {:induction false} SqueezeBlank(s: string)
    requires Blank(s)
    ensures Squeeze(s) == ""
  {
    if s != "" {
      SqueezeBlank(s[1..]);
    }
  }

  lemma SqueezeAt(s: string, i: nat)
    requires i <= |s|
    ensures Squeeze(s) == Squeeze(s[..i]) + Squeeze(s[i..])
  {
    assert s == s[..i] + s[i..];
    SqueezeConcat(s[..i], s[i..]);
  }

  /** A blank stretch can be cut out. */
  lemma SqueezeGap(s: string, i: nat, j: nat)
    requires i <= j <= |s| && Blank(s[i..j])
    ensures Squeeze(s) == Squeeze(s[..i]) + Squeeze(s[j..])
  {
    hide Squeeze;
    SqueezeAt(s, i);
    assert s[i..] == s[i..j] + s[j..];
    SqueezeConcat(s[i..j], s[j..]);
    SqueezeBlank(s[i..j]);
    assert "" + Squeeze(s[j..]) == Squeeze(s[j..]);
  }

  lemma SqueezeStrip(s: string)
    ensures Squeeze(Strip(s)) == Squeeze(s)
  {
    hide Squeeze, IsSpace;
    var l := LStrip(s);
    var start, end := SpaceEnd(s, 0), SpaceStart(l, |l|);
    SqueezeAt(s, start);
    SqueezeBlank(s[..start]);
    assert "" + Squeeze(l) == Squeeze(l);
    SqueezeAt(l, end);
    SqueezeBlank(l[end..]);
    assert Squeeze(l[..end]) + "" == Squeeze(l[..end]);
  }

  /** The position of the first line break, or the length. */
  function LineEnd(s: string): (n: nat)
    ensures n <= |s|
    ensures n < |s| ==> IsLineBreak(s[n])
    ensures forall i :: 0 <= i < n ==> !IsLineBreak(s[i])
  {
    if s == "" || IsLineBreak(s[0]) then 0 else 1 + LineEnd(s[1..])
  }

  /** str.splitlines: terminators are dropped, a carriage return and line feed count as one. */
  function SplitLines(s: string): (lines: seq<string>)
    ensures forall i, j :: 0 <= i < |lines| && 0 <= j < |lines[i]| ==> !IsLineBreak(lines[i][j])
  {
    if s == "" then []
    else
      var n := LineEnd(s);
      if n == |s| then [s] else [s[..n]] + SplitLines(s[n + BreakLength(s, n)..])
  }

  function BreakLength(s: string, n: nat): (len: nat)
    requires n < |s|
    ensures 1 <= len <= |s| - n
  {
    if s[n] == '\r' && n + 1 < |s| && s[n + 1] == '\n' then 2 else 1
  }

  lemma {:induction false} SplitLinesKeepsText(s: string)
    ensures Squeeze(Flat(SplitLines(s))) == Squeeze(s)
  {
    if s != "" {
      var n := LineEnd(s);
      if n == |s| {
        FlatOne(s);
      } else {
        var m := n + BreakLength(s, n);
        SplitLinesKeepsText(s[m..]);
        SqueezeGap(s, n, m);
        FlatCons(s[..n], SplitLines(s[m..]));
        SqueezeConcat(s[..n], Flat(SplitLines(s[m..])));
      }
    }
  }

  /** sep.join(xs) */
  function Join(sep: string, xs: seq<string>): string {
    if xs == [] then "" else if |xs| == 1 then xs[0] else xs[0] + sep + Join(sep, xs[1..])
  }

  lemma {:induction false} JoinAppend(sep: string, xs: seq<string>, ys: seq<string>)
    requires xs != [] && ys != []
    ensures Join(sep, xs + ys) == Join(sep, xs) + sep + Join(sep, ys)
  {
    if |xs| == 1 {
      assert (xs + ys)[1..] == ys;
    } else {
      JoinAppend(sep, xs[1..], ys);
      assert (xs + ys)[1..] == xs[1..] + ys;
    }
  }

  lemma {:induction false} SqueezeJoin(sep: string, xs: seq<string>)
    requires Blank(sep)
    ensures Squeeze(Join(sep, xs)) == Squeeze(Flat(xs))
  {
    if xs == [] {
    } else if |xs| == 1 {
      assert Flat(xs) == xs[0] + Flat(xs[1..]) == xs[0];
    } else {
      SqueezeJoin(sep, xs[1..]);
      SqueezeConcat(xs[0] + sep, Join(sep, xs[1..]));
      SqueezeConcat(xs[0], sep);
      SqueezeBlank(sep);
      SqueezeConcat(xs[0], Flat(xs[1..]));
    }
  }
}
