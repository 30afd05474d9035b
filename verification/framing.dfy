/**
  Line framing shared by every reader of the worker's output: the buffer is
  split with `split('\n')`, the last piece is kept as the new buffer and the
  other pieces are the complete lines. This module defines the split and
  proves that it is the unique decomposition of the text into newline-free
  complete lines and a newline-free remainder, which gives loss-freedom and
  chunking invariance.
 */
module Framing {

  /** `s` holds no line feed. */
  predicate NoNewline(s: string) {
    '\n' !in s
  }

  /** Every element of `lines` is free of line feeds. */
  predicate AllLines(lines: seq<string>) {
    forall i :: 0 <= i < |lines| ==> NoNewline(lines[i])
  }

  /** The text made of each line followed by a line feed. */
  function Unlines(lines: seq<string>): string {
    if |lines| == 0 then "" else lines[0] + "\n" + Unlines(lines[1..])
  }

  /** The position of the first line feed of `s`. */
  function FirstNewline(s: string): (i: nat)
    requires '\n' in s
    ensures i < |s| && s[i] == '\n'
    ensures NoNewline(s[..i])
  {
    if s[0] == '\n' then 0
    else
      var j := FirstNewline(s[1..]);
      assert s[..j + 1] == [s[0]] + s[1..][..j];
      j + 1
  }

  /** `s.split('\n')`: the pieces between line feeds, always at least one. */
  function Split(s: string): (parts: seq<string>)
    ensures |parts| >= 1
    ensures AllLines(parts)
    ensures Unlines(parts[..|parts| - 1]) + parts[|parts| - 1] == s
    decreases |s|
  {
    if NoNewline(s) then
      assert Unlines([]) + s == s;
      [s]
    else
      var i := FirstNewline(s);
      var rest := Split(s[i + 1..]);
      SplitStep(s, i, rest);
      [s[..i]] + rest
  }

  /** One step of `Split`: a first line and the split of what follows it. */
  lemma SplitStep(s: string, i: nat, rest: seq<string>)
    requires i < |s| && s[i] == '\n' && NoNewline(s[..i])
    requires |rest| >= 1 && AllLines(rest)
    requires Unlines(rest[..|rest| - 1]) + rest[|rest| - 1] == s[i + 1..]
    ensures var parts := [s[..i]] + rest;
            AllLines(parts) && Unlines(parts[..|parts| - 1]) + parts[|parts| - 1] == s
  {
    var parts := [s[..i]] + rest;
    assert parts[..|parts| - 1] == [s[..i]] + rest[..|rest| - 1];
    assert parts[..|parts| - 1][1..] == rest[..|rest| - 1];
    assert Unlines(parts[..|parts| - 1]) == s[..i] + "\n" + Unlines(rest[..|rest| - 1]);
    assert s == s[..i] + "\n" + s[i + 1..];
  }

  /** The result of framing a text: its complete lines and the unterminated tail. */
  datatype Frame = Frame(complete: seq<string>, rest: string)

  /** `lines = buffer.split('\n'); buffer = lines.pop() || ''`: the complete
      lines are everything before the last piece, the last piece is the new
      buffer (`|| ''` only replaces a missing piece, and there always is one). */
  function Cut(s: string): (f: Frame)
    ensures AllLines(f.complete) && NoNewline(f.rest)
    ensures Unlines(f.complete) + f.rest == s
  {
    var parts := Split(s);
    Frame(parts[..|parts| - 1], parts[|parts| - 1])
  }

  /** Unlines distributes over concatenation. */
  lemma {:induction false} UnlinesAppend(a: seq<string>, b: seq<string>)
    ensures Unlines(a + b) == Unlines(a) + Unlines(b)
    decreases |a|
  {
    if |a| == 0 {
      assert a + b == b;
    } else {
      assert (a + b)[1..] == a[1..] + b;
      UnlinesAppend(a[1..], b);
    }
  }

  /** A text that starts with a newline-free line and a line feed determines
      that line. */
  lemma FirstLineDetermined(a: string, x: string, b: string, y: string)
    requires NoNewline(a) && NoNewline(b)
    requires a + "\n" + x == b + "\n" + y
    ensures a == b && x == y
  {
    var s := a + "\n" + x;
    if |a| < |b| {
      NewlineAt(a, x, b, y);
      assert false;
    } else if |b| < |a| {
      NewlineAt(b, y, a, x);
      assert false;
    } else {
      assert a == s[..|a|] == b;
      assert x == s[|a| + 1..] == y;
    }
  }

  /** Where the shorter first line ends, the longer one holds a line feed. */
  lemma NewlineAt(a: string, x: string, b: string, y: string)
    requires a + "\n" + x == b + "\n" + y
    requires |a| < |b|
    ensures b[|a|] == '\n'
  {
    var s := a + "\n" + x;
    assert s[|a|] == '\n';
  }

  /** A text with a line feed is not a newline-free remainder. */
  lemma NewlineInUnlines(lines: seq<string>, r: string)
    requires |lines| > 0
    ensures '\n' in Unlines(lines) + r
  {
    var s := Unlines(lines) + r;
    assert s[|lines[0]|] == '\n';
  }

  /** The decomposition of a text into complete lines and a remainder is unique. */
  lemma {:induction false} UnlinesUnique(a: seq<string>, r: string, b: seq<string>, q: string)
    requires AllLines(a) && AllLines(b) && NoNewline(r) && NoNewline(q)
    requires Unlines(a) + r == Unlines(b) + q
    ensures a == b && r == q
    decreases |a|
  {
    if |a| == 0 {
      if |b| > 0 {
        NewlineInUnlines(b, q);
        assert false;
      }
      assert Unlines(a) + r == r && Unlines(b) + q == q;
    } else if |b| == 0 {
      NewlineInUnlines(a, r);
      assert false;
    } else {
      assert Unlines(a) + r == a[0] + "\n" + (Unlines(a[1..]) + r);
      assert Unlines(b) + q == b[0] + "\n" + (Unlines(b[1..]) + q);
      FirstLineDetermined(a[0], Unlines(a[1..]) + r, b[0], Unlines(b[1..]) + q);
      UnlinesUnique(a[1..], r, b[1..], q);
      assert a == [a[0]] + a[1..];
      assert b == [b[0]] + b[1..];
    }
  }

  /** `Cut` is characterised by its contract: any decomposition of `s` into
      newline-free complete lines and a newline-free remainder is the one
      `Cut` returns. */
  lemma CutIsTheDecomposition(s: string, lines: seq<string>, rest: string)
    requires AllLines(lines) && NoNewline(rest)
    ensures Unlines(lines) + rest == s <==> Cut(s) == Frame(lines, rest)
  {
    if Unlines(lines) + rest == s {
      var f := Cut(s);
      UnlinesUnique(f.complete, f.rest, lines, rest);
    }
  }

  /** Cutting `s + a` and then the remainder plus `b` yields the same lines, in
      the same order, and the same remainder as cutting `s + a + b` at once. */
  lemma CutChunks(s: string, a: string, b: string)
    ensures var f1 := Cut(s + a);
            var f2 := Cut(f1.rest + b);
            Cut(s + (a + b)) == Frame(f1.complete + f2.complete, f2.rest)
  {
    var f1 := Cut(s + a);
    var f2 := Cut(f1.rest + b);
    var u1, u2 := Unlines(f1.complete), Unlines(f2.complete);
    UnlinesAppend(f1.complete, f2.complete);
    Assoc(u1, u2, f2.rest);
    Assoc(u1, f1.rest, b);
    Assoc(s, a, b);
    assert Unlines(f1.complete + f2.complete) + f2.rest == s + (a + b);
    assert AllLines(f1.complete + f2.complete);
    CutIsTheDecomposition(s + (a + b), f1.complete + f2.complete, f2.rest);
  }

  lemma Assoc(x: string, y: string, z: string)
    ensures x + (y + z) == x + y + z
  {
  }

  /** Text that is a run of complete lines leaves nothing behind. */
  lemma CutUnlines(lines: seq<string>)
    requires AllLines(lines)
    ensures Cut(Unlines(lines)) == Frame(lines, "")
  {
    assert Unlines(lines) + "" == Unlines(lines);
    CutIsTheDecomposition(Unlines(lines), lines, "");
  }

  /** A text without line feeds is all unterminated tail. */
  lemma CutNoLine(s: string)
    requires NoNewline(s)
    ensures Cut(s) == Frame([], s)
  {
    CutIsTheDecomposition(s, [], s);
    assert Unlines([]) + s == s;
  }

  /** An unterminated tail `x` completed by a later `y` and a line feed comes
      out as the single line `x + y`. */
  lemma CutGlued(x: string, y: string)
    requires NoNewline(x) && NoNewline(y)
    ensures Cut(x + (y + "\n")) == Frame([x + y], "")
  {
    assert NoNewline(x + y) by {
      assert forall k :: 0 <= k < |x + y| ==> (x + y)[k] == if k < |x| then x[k] else y[k - |x|];
    }
    assert x + (y + "\n") == Unlines([x + y]) + "";
    CutIsTheDecomposition(x + (y + "\n"), [x + y], "");
  }
}
