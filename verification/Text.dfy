/**
  Strings as the chunker handles them: whitespace, stripping, containment, and the ink that
  is left when all whitespace is ignored.
 */
module Text {
  predicate Space(c: char) {
    c == ' ' || '\t' <= c <= '\r'
  }

  /** The characters that are not whitespace, in order. */
  function Ink(s: string): string {
    if s == "" then "" else (if Space(s[0]) then "" else [s[0]]) + Ink(s[1..])
  }

  lemma Associate(a: string, b: string, c: string)
    ensures a + (b + c) == a + b + c
  {
  }

  lemma NoInkInNothing()
    ensures Ink("") == "" && InkAll([]) == ""
  {
  }

  lemma {:induction false} InkConcat(a: string, b: string)
    ensures Ink(a + b) == Ink(a) + Ink(b)
    decreases |a|
  {
    if a == "" {
      assert a + b == b;
    } else {
      assert (a + b)[1..] == a[1..] + b;
      InkConcat(a[1..], b);
    }
  }

  lemma {:induction false} BlankHasNoInk(s: string)
    requires forall i :: 0 <= i < |s| ==> Space(s[i])
    ensures Ink(s) == ""
    decreases |s|
  {
    if s != "" {
      BlankHasNoInk(s[1..]);
    }
  }

  function Lead(s: string): (n: nat)
    ensures n <= |s| && forall i :: 0 <= i < n ==> Space(s[i])
    ensures n < |s| ==> !Space(s[n])
  {
    if s != "" && Space(s[0]) then
      var n := Lead(s[1..]) + 1;
      assert forall i :: 0 < i < n ==> s[i] == s[1..][i - 1];
      n
    else 0
  }

  /** The length of s without its trailing whitespace. */
  function Trail(s: string): (n: nat)
    ensures n <= |s| && forall i :: n <= i < |s| ==> Space(s[i])
    ensures n > 0 ==> !Space(s[n - 1])
  {
    if s != "" && Space(s[|s| - 1]) then Trail(s[..|s| - 1]) else |s|
  }

  /** Non-empty, with ink at both ends. */
  predicate Stripped(s: string) {
    s != "" && !Space(s[0]) && !Space(s[|s| - 1])
  }

  /** str.strip() */
  function Strip(s: string): (r: string)
    ensures |r| <= |s| && (r != "" ==> Stripped(r))
  {
    if Lead(s) == |s| then "" else s[Lead(s)..Trail(s)]
  }

  lemma BlankEndsHaveNoInk(a: string, s: string, b: string)
    requires forall i :: 0 <= i < |a| ==> Space(a[i])
    requires forall i :: 0 <= i < |b| ==> Space(b[i])
    ensures Ink(a + s + b) == Ink(s)
  {
    hide Ink;
    InkConcat(a + s, b);
    InkConcat(a, s);
    BlankHasNoInk(a);
    BlankHasNoInk(b);
  }

  lemma StripKeepsInk(s: string)
    ensures Ink(Strip(s)) == Ink(s)
  {
    hide Ink, Lead, Trail;
    var a, b := Lead(s), Trail(s);
    if a == |s| {
      NoInkInNothing();
      BlankHasNoInk(s);
    } else {
      BlankEndsHaveNoInk(s[..a], s[a..b], s[b..]);
      assert s == s[..a] + s[a..b] + s[b..];
    }
  }

  lemma StripEmptyIff(s: string)
    ensures Strip(s) == "" <==> Ink(s) == ""
  {
    StripKeepsInk(s);
  }

  // ---------------------------------------------------------------- containment

  /** p occurs in t in one piece. */
  ghost predicate Contains(t: string, p: string) {
    exists before: string, after: string :: t == before + p + after
  }

  lemma ContainsAt(before: string, p: string, after: string)
    ensures Contains(before + p + after, p)
  {
  }

  lemma ContainsItself(t: string)
    ensures Contains(t, t)
  {
    ContainsAt("", t, "");
    assert "" + t + "" == t;
  }

  lemma ContainsLeft(a: string, b: string, p: string)
    requires Contains(a, p)
    ensures Contains(a + b, p)
  {
    var x: string, y: string :| a == x + p + y;
    ContainsAt(x, p, y + b);
    assert x + p + (y + b) == a + b;
  }

  lemma ContainsRight(a: string, b: string, p: string)
    requires Contains(b, p)
    ensures Contains(a + b, p)
  {
    var x: string, y: string :| b == x + p + y;
    ContainsAt(a + x, p, y);
    assert a + x + p + y == a + b;
  }

  lemma ContainsTransitive(a: string, b: string, p: string)
    requires Contains(a, b) && Contains(b, p)
    ensures Contains(a, p)
  {
    var x: string, y: string :| a == x + b + y;
    ContainsRight(x, b, p);
    ContainsLeft(x + b, y, p);
  }

  lemma ContainsOnlyIfLonger(t: string, p: string)
    requires Contains(t, p)
    ensures |p| <= |t|
  {
  }

  lemma ContainsStripped(t: string)
    ensures Contains(t, Strip(t))
  {
    var a, b := Lead(t), Trail(t);
    if a == |t| {
      ContainsAt("", "", t);
      assert "" + "" + t == t;
    } else {
      ContainsAt(t[..a], t[a..b], t[b..]);
      assert t[..a] + t[a..b] + t[b..] == t;
    }
  }

  /** Stripping the ends of a text loses nothing that has ink at both ends. */
  lemma StripKeeps(t: string, p: string)
    requires Stripped(p)
    ensures Contains(t, p) <==> Contains(Strip(t), p)
  {
    ContainsStripped(t);
    if Contains(t, p) {
      var x: string, y: string :| t == x + p + y;
      assert t[|x|] == p[0] && t[|x| + |p| - 1] == p[|p| - 1];
      StripAround(t, x, p, y);
    }
    if Contains(Strip(t), p) {
      ContainsTransitive(t, Strip(t), p);
    }
  }

  lemma StripAround(t: string, x: string, p: string, y: string)
    requires t == x + p + y && p != "" && !Space(t[|x|]) && !Space(t[|x| + |p| - 1])
    ensures Contains(Strip(t), p)
  {
    var a, b := Lead(t), Trail(t);
    assert a <= |x| && |x| + |p| <= b;
    ContainsAt(x[a..], p, y[..b - |x| - |p|]);
    Window(x, p, y, a, b);
  }

  lemma Window(x: string, p: string, y: string, a: nat, b: nat)
    requires a <= |x| && |x| + |p| <= b <= |x| + |p| + |y|
    ensures (x + p + y)[a..b] == x[a..] + p + y[..b - |x| - |p|]
  {
  }

  // ---------------------------------------------------------------- joining

  function Join(separator: string, parts: seq<string>): string {
    if parts == [] then "" else if |parts| == 1 then parts[0]
    else Join(separator, parts[..|parts| - 1]) + separator + parts[|parts| - 1]
  }

  /** The ink of several texts, one after the other. */
  function InkAll(parts: seq<string>): string {
    if parts == [] then "" else InkAll(parts[..|parts| - 1]) + Ink(parts[|parts| - 1])
  }

  lemma InkAllOneMore(parts: seq<string>, part: string)
    ensures InkAll(parts + [part]) == InkAll(parts) + Ink(part)
  {
    assert (parts + [part])[..|parts|] == parts;
  }

  lemma {:induction false} InkAllConcat(a: seq<string>, b: seq<string>)
    ensures InkAll(a + b) == InkAll(a) + InkAll(b)
    decreases |b|
  {
    NoInkInNothing();
    hide Ink;
    if b == [] {
      assert a + b == a;
    } else {
      var init, last := b[..|b| - 1], b[|b| - 1];
      InkAllConcat(a, init);
      InkAllOneMore(a + init, last);
      assert a + b == a + init + [last];
      Associate(InkAll(a), InkAll(init), Ink(last));
    }
  }

  lemma {:induction false} JoinKeepsInk(separator: string, parts: seq<string>)
    requires Ink(separator) == ""
    ensures Ink(Join(separator, parts)) == InkAll(parts)
    decreases |parts|
  {
    if |parts| > 1 {
      var init, last := parts[..|parts| - 1], parts[|parts| - 1];
      JoinKeepsInk(separator, init);
      InkConcat(Join(separator, init) + separator, last);
      InkConcat(Join(separator, init), separator);
    }
  }

  lemma {:induction false} JoinContains(separator: string, parts: seq<string>, i: nat)
    requires i < |parts|
    ensures Contains(Join(separator, parts), parts[i])
    decreases |parts|
  {
    var n := |parts| - 1;
    if n == 0 {
      ContainsItself(parts[0]);
    } else if i == n {
      ContainsItself(parts[n]);
      ContainsRight(Join(separator, parts[..n]) + separator, parts[n], parts[n]);
    } else {
      JoinContains(separator, parts[..n], i);
      ContainsLeft(Join(separator, parts[..n]), separator + parts[n], parts[i]);
      assert Join(separator, parts) == Join(separator, parts[..n]) + (separator + parts[n]);
    }
  }
}
