/** The online detector that holds back streamed text which may be the start of a textual tool
    call (internal/toolproxy/stream.go). The text arrives in arbitrary pieces. */
module ContentGates {

  /** The tag that opens a textual tool call. */
  const TAG := "<tool_call>"

  ghost predicate OccursAt(s: string, i: nat) {
    i + |TAG| <= |s| && s[i..i + |TAG|] == TAG
  }

  ghost predicate FirstOccurrence(s: string, i: nat) {
    OccursAt(s, i) && forall j: nat | j < i :: !OccursAt(s, j)
  }

  ghost predicate NoTag(s: string) {
    forall j: nat | j <= |s| :: !OccursAt(s, j)
  }

  /** The last n characters of s are the first n characters of the tag, and not all of it. */
  ghost predicate Held(s: string, n: nat) {
    n <= |s| && n < |TAG| && s[|s| - n..] == TAG[..n]
  }

  ghost predicate LongestHeld(s: string, n: nat) {
    Held(s, n) && forall m: nat | n < m <= |s| && m < |TAG| :: !Held(s, m)
  }

  /** What a gate is after the text s, however s was cut up: all text before the first tag is
      forwarded and the rest captured; without a tag, the longest suffix that could still become
      one is pending and everything before it is forwarded. */
  ghost predicate Settled(s: string, forwarded: string, pending: string, capturing: bool, captured: string) {
    if capturing then
      pending == "" && forwarded + captured == s && FirstOccurrence(s, |forwarded|)
    else
      captured == "" && NoTag(s) && forwarded + pending == s && LongestHeld(s, |pending|)
  }

  /** The text alone decides forwarded text and held state. */
  lemma SettledIsFunctional(s: string, f1: string, p1: string, c1: bool, t1: string, f2: string, p2: string, c2: bool, t2: string)
    requires Settled(s, f1, p1, c1, t1) && Settled(s, f2, p2, c2, t2)
    ensures f1 == f2 && p1 == p2 && c1 == c2 && t1 == t2
  {
    if c1 && c2 {
      assert f1 == s[..|f1|] && t1 == s[|f1|..];
      assert f2 == s[..|f2|] && t2 == s[|f2|..];
    } else if !c1 && !c2 {
      assert f1 == s[..|f1|] && p1 == s[|f1|..];
      assert f2 == s[..|f2|] && p2 == s[|f2|..];
    }
  }

  // ----- one more piece of text ---------------------------------------------------------

  lemma SliceOfFirst(a: string, b: string, i: nat, j: nat)
    requires i <= j <= |a|
    ensures (a + b)[i..j] == a[i..j]
  {
  }

  lemma SliceOfSecond(a: string, b: string, i: nat, j: nat)
    requires i <= j <= |b|
    ensures (a + b)[|a| + i..|a| + j] == b[i..j]
  {
  }

  /** An occurrence that starts in s and runs past its end leaves the start of the tag as the end of s. */
  lemma CutOccurrence(s: string, d: string, i: nat)
    requires OccursAt(s + d, i) && i < |s| < i + |TAG|
    ensures Held(s, |s| - i)
  {
    var (found, m) := ((s + d)[i..i + |TAG|], |s| - i);
    assert found[..m] == (s + d)[i..|s|];
    SliceOfFirst(s, d, i, |s|);
    assert s[i..|s|] == s[|s| - m..];
  }

  lemma OccursInPrefix(s: string, d: string, i: nat)
    requires OccursAt(s + d, i) && i + |TAG| <= |s|
    ensures OccursAt(s, i)
  {
    SliceOfFirst(s, d, i, i + |TAG|);
  }

  lemma NoOccurrenceBefore(s: string, fwd: string, pending: string, d: string, i: nat)
    requires Settled(s, fwd, pending, false, "") && OccursAt(s + d, i)
    ensures i >= |fwd|
  {
    if i < |fwd| {
      if i + |TAG| <= |s| {
        OccursInPrefix(s, d, i);
      } else {
        CutOccurrence(s, d, i);
      }
      assert false;
    }
  }

  /** Only the pending suffix of the text so far can reach into an occurrence that the next piece
      completes. */
  lemma OccurrenceShift(s: string, fwd: string, pending: string, d: string, i: nat)
    requires Settled(s, fwd, pending, false, "")
    ensures OccursAt(s + d, i) ==> i >= |fwd|
    ensures OccursAt(pending + d, i) <==> OccursAt(s + d, |fwd| + i)
  {
    Regroup(s, fwd, pending, d);
    if OccursAt(s + d, i) {
      NoOccurrenceBefore(s, fwd, pending, d, i);
    }
    hide NoTag, LongestHeld, Held;
    if i + |TAG| <= |pending + d| {
      SliceOfSecond(fwd, pending + d, i, i + |TAG|);
    }
  }

  lemma Regroup(s: string, fwd: string, pending: string, d: string)
    requires fwd + pending == s
    ensures s + d == fwd + (pending + d)
  {
  }

  lemma Rejoin(fwd: string, q: string, n: nat)
    requires n <= |q|
    ensures fwd + q[..n] + q[n..] == fwd + q
  {
  }

  lemma HeldShift(s: string, fwd: string, pending: string, d: string, m: nat)
    requires Settled(s, fwd, pending, false, "")
    ensures Held(pending + d, m) <==> Held(s + d, m)
  {
    var t, q := s + d, pending + d;
    assert t == fwd + q;
    if m <= |q| {
      assert q[|q| - m..] == t[|t| - m..];
    } else {
      HeldRestrict(s, d, m);
    }
  }

  /** A held suffix that reaches back beyond the last piece was held, shorter, before it. */
  lemma HeldRestrict(s: string, d: string, m: nat)
    requires m >= |d|
    ensures Held(s + d, m) ==> Held(s, m - |d|)
  {
    var t, k := s + d, m - |d|;
    if Held(t, m) {
      assert s[|s| - k..] == t[|t| - m..][..k] == TAG[..k];
    }
  }

  /** The first tag of the held text and the next piece is the first of the whole. */
  lemma FirstInWhole(s: string, fwd: string, pending: string, d: string, i: nat)
    requires Settled(s, fwd, pending, false, "") && FirstOccurrence(pending + d, i)
    ensures FirstOccurrence(s + d, |fwd| + i)
  {
    OccurrenceShift(s, fwd, pending, d, i);
    hide Settled, OccursAt;
    forall j: nat | j < |fwd| + i
      ensures !OccursAt(s + d, j)
    {
      OccurrenceShift(s, fwd, pending, d, j);
      if j >= |fwd| {
        OccurrenceShift(s, fwd, pending, d, j - |fwd|);
      }
    }
  }

  /** The step of the gate that finds a tag. */
  lemma CaptureSettles(s: string, fwd: string, pending: string, d: string, q: string, i: nat)
    requires Settled(s, fwd, pending, false, "")
    requires q == pending + d && FirstOccurrence(q, i)
    ensures Settled(s + d, fwd + q[..i], "", true, q[i..])
  {
    Regroup(s, fwd, pending, d);
    Rejoin(fwd, q, i);
    FirstInWhole(s, fwd, pending, d, i);
    hide NoTag, LongestHeld, OccursAt;
  }

  lemma NoTagExtends(s: string, fwd: string, pending: string, d: string)
    requires Settled(s, fwd, pending, false, "")
    requires NoTag(pending + d)
    ensures NoTag(s + d)
  {
    forall j: nat | j <= |s + d|
      ensures !OccursAt(s + d, j)
    {
      OccurrenceShift(s, fwd, pending, d, j);
      if j >= |fwd| {
        OccurrenceShift(s, fwd, pending, d, j - |fwd|);
      }
    }
  }

  lemma LongestHeldExtends(s: string, fwd: string, pending: string, d: string, keep: nat)
    requires Settled(s, fwd, pending, false, "")
    requires LongestHeld(pending + d, keep)
    ensures LongestHeld(s + d, keep)
  {
    HeldShift(s, fwd, pending, d, keep);
    forall m: nat | keep < m <= |s + d| && m < |TAG|
      ensures !Held(s + d, m)
    {
      HeldShift(s, fwd, pending, d, m);
    }
  }

  lemma HeldFits(q: string, keep: nat)
    requires LongestHeld(q, keep)
    ensures keep <= |q|
  {
  }

  /** The step of the gate that finds none. */
  lemma HoldSettles(s: string, fwd: string, pending: string, d: string, q: string, keep: nat)
    requires Settled(s, fwd, pending, false, "")
    requires q == pending + d && NoTag(q) && LongestHeld(q, keep)
    ensures Settled(s + d, fwd + q[..|q| - keep], q[|q| - keep..], false, "")
  {
    NoTagExtends(s, fwd, pending, d);
    LongestHeldExtends(s, fwd, pending, d, keep);
    Regroup(s, fwd, pending, d);
    Rejoin(fwd, q, |q| - keep);
    HeldFits(q, keep);
    hide NoTag, LongestHeld;
  }

  /** Once a tag was found, later text is only captured. */
  lemma CaptureContinues(s: string, fwd: string, captured: string, d: string)
    requires Settled(s, fwd, "", true, captured)
    ensures Settled(s + d, fwd, "", true, captured + d)
  {
    assert fwd + (captured + d) == s + d;
    assert (s + d)[|fwd|..|fwd| + |TAG|] == s[|fwd|..|fwd| + |TAG|];
    forall j: nat | j < |fwd|
      ensures !OccursAt(s + d, j)
    {
      assert !OccursAt(s, j);
      assert (s + d)[j..j + |TAG|] == s[j..j + |TAG|];
    }
  }

  // ----- the gate -----------------------------------------------------------------------

  /** strings.Index for the tag: the first occurrence, or -1. */
  method IndexOfTag(s: string) returns (i: int)
    ensures i >= 0 ==> FirstOccurrence(s, i)
    ensures i < 0 ==> NoTag(s)
  {
    i := 0;
    while i + |TAG| <= |s|
      invariant 0 <= i
      invariant forall j: nat | j < i :: !OccursAt(s, j)
    {
      if s[i..i + |TAG|] == TAG {
        return;
      }
      i := i + 1;
    }
    i := -1;
  }

  /** The length of the longest suffix of s that is a proper prefix of the tag. */
  method TagPrefixSuffix(s: string) returns (n: nat)
    ensures LongestHeld(s, n)
  {
    n := if |s| < |TAG| - 1 then |s| else |TAG| - 1;
    while n > 0
      invariant n <= |s| && n < |TAG|
      invariant forall m: nat | n < m <= |s| && m < |TAG| :: !Held(s, m)
    {
      if s[|s| - n..] == TAG[..n] {
        return;
      }
      n := n - 1;
    }
  }

  /** What has gone through a gate and what it holds. */
  datatype Passage = Passage(forwarded: string, pending: string, capturing: bool, captured: string)

  const NOTHING_YET := Passage("", "", false, "")

  /** The first occurrence at or after i, or -1. */
  ghost function IndexFrom(s: string, i: nat): (r: int)
    requires forall j: nat | j < i :: !OccursAt(s, j)
    ensures r >= 0 ==> FirstOccurrence(s, r)
    ensures r < 0 ==> NoTag(s)
    decreases |s| - i
  {
    if i + |TAG| > |s| then -1 else if s[i..i + |TAG|] == TAG then i else IndexFrom(s, i + 1)
  }

  /** The longest suffix of at most n characters that may become a tag. */
  ghost function KeepUpTo(s: string, n: nat): (k: nat)
    requires n <= |s| && n < |TAG| && forall m: nat | n < m <= |s| && m < |TAG| :: !Held(s, m)
    ensures LongestHeld(s, k)
  {
    if n == 0 || s[|s| - n..] == TAG[..n] then n else KeepUpTo(s, n - 1)
  }

  /** One more piece through the gate. */
  ghost function Through(g: Passage, d: string): Passage {
    if g.capturing then g.(captured := g.captured + d)
    else
      var q := g.pending + d;
      var i := IndexFrom(q, 0);
      if i >= 0 then Passage(g.forwarded + q[..i], "", true, q[i..])
      else
        var k := KeepUpTo(q, if |q| < |TAG| - 1 then |q| else |TAG| - 1);
        Passage(g.forwarded + q[..|q| - k], q[|q| - k..], false, "")
  }

  ghost predicate IsSettled(s: string, g: Passage) {
    Settled(s, g.forwarded, g.pending, g.capturing, g.captured)
  }

  lemma ThroughSettles(s: string, g: Passage, d: string)
    requires IsSettled(s, g)
    ensures IsSettled(s + d, Through(g, d))
  {
    hide Settled, OccursAt, FirstOccurrence, NoTag, Held, LongestHeld;
    StateShape(s, g);
    if g.capturing {
      CaptureContinues(s, g.forwarded, g.captured, d);
    } else {
      var q := g.pending + d;
      var i := IndexFrom(q, 0);
      if i >= 0 {
        CaptureSettles(s, g.forwarded, g.pending, d, q, i);
      } else {
        HoldSettles(s, g.forwarded, g.pending, d, q, KeepUpTo(q, if |q| < |TAG| - 1 then |q| else |TAG| - 1));
      }
    }
  }

  lemma StateShape(s: string, g: Passage)
    requires IsSettled(s, g)
    ensures if g.capturing then g.pending == "" else g.captured == ""
  {
  }

  class ContentGate {
    var pending: string
    var capturing: bool
    var captured: string

    /** All text pushed so far, and all text let through so far. */
    ghost var input: string
    ghost var forwarded: string

    ghost predicate Valid()
      reads this
    {
      IsSettled(input, Abs())
    }

    ghost function Abs(): Passage
      reads this
    {
      Passage(forwarded, pending, capturing, captured)
    }

    constructor ()
      ensures Valid() && input == "" && Abs() == NOTHING_YET
    {
      pending, capturing, captured := "", false, "";
      input, forwarded := "", "";
    }

    /** Appends a piece of text and returns the part that is safe to forward. */
    method Push(s: string) returns (out: string)
      requires Valid()
      modifies this
      ensures Valid()
      ensures input == old(input) + s && forwarded == old(forwarded) + out
      ensures Abs() == Through(old(Abs()), s)
    {
      ghost var before, fwd, p := input, forwarded, pending;
      ThroughSettles(before, Abs(), s);
      ghost var after := Through(Abs(), s);
      input := input + s;
      if capturing {
        CaptureContinues(before, fwd, captured, s);
        captured := captured + s;
        out := "";
        assert forwarded == fwd + out;
        return;
      }
      pending := pending + s;
      var q := pending;
      var i := IndexOfTag(q);
      if i >= 0 {
        CaptureSettles(before, fwd, p, s, q, i);
        out := q[..i];
        captured := q[i..];
        pending := "";
        capturing := true;
      } else {
        var keep := TagPrefixSuffix(q);
        HoldSettles(before, fwd, p, s, q, keep);
        out := q[..|q| - keep];
        pending := q[|q| - keep..];
      }
      forwarded := fwd + out;
      SettledIsFunctional(input, forwarded, pending, capturing, captured, after.forwarded, after.pending, after.capturing, after.captured);
    }
  }

  // ----- chunking never matters ---------------------------------------------------------

  ghost function Concat(pieces: seq<string>): string {
    if pieces == [] then "" else Concat(pieces[..|pieces| - 1]) + pieces[|pieces| - 1]
  }

  /** A gate fed the pieces one by one. */
  ghost function AllThrough(pieces: seq<string>): Passage {
    if pieces == [] then NOTHING_YET else Through(AllThrough(pieces[..|pieces| - 1]), pieces[|pieces| - 1])
  }

  method PushAll(pieces: seq<string>) returns (out: string, pending: string, capturing: bool, captured: string)
    ensures Passage(out, pending, capturing, captured) == AllThrough(pieces)
    ensures Settled(Concat(pieces), out, pending, capturing, captured)
  {
    hide Through, Settled;
    var gate := new ContentGate();
    out := "";
    for k := 0 to |pieces|
      invariant gate.Valid() && fresh(gate)
      invariant gate.input == Concat(pieces[..k]) && gate.forwarded == out && gate.Abs() == AllThrough(pieces[..k])
    {
      var piece := gate.Push(pieces[k]);
      assert pieces[..k + 1][..k] == pieces[..k];
      out := out + piece;
    }
    assert pieces[..|pieces|] == pieces;
    pending, capturing, captured := gate.pending, gate.capturing, gate.captured;
  }

  /** However the text was cut up, the gate ends in the settled state of the whole text. */
  lemma {:induction false} AllThroughSettles(pieces: seq<string>)
    ensures IsSettled(Concat(pieces), AllThrough(pieces))
  {
    if pieces != [] {
      AllThroughSettles(pieces[..|pieces| - 1]);
      hide Through, Settled;
      ThroughSettles(Concat(pieces[..|pieces| - 1]), AllThrough(pieces[..|pieces| - 1]), pieces[|pieces| - 1]);
    }
  }

  /** Two gates fed the same text in different pieces have forwarded the same and hold the same. */
  lemma ChunkingNeverMatters(xs: seq<string>, ys: seq<string>)
    requires Concat(xs) == Concat(ys)
    ensures AllThrough(xs) == AllThrough(ys)
  {
    AllThroughSettles(xs);
    AllThroughSettles(ys);
    var (g, h) := (AllThrough(xs), AllThrough(ys));
    SettledIsFunctional(Concat(xs), g.forwarded, g.pending, g.capturing, g.captured, h.forwarded, h.pending, h.capturing, h.captured);
  }

  /** Every text has a settled state: the two characterisations cover all texts. */
  lemma SettledExists(s: string) returns (g: Passage)
    ensures IsSettled(s, g)
  {
    g := AllThrough([s]);
    AllThroughSettles([s]);
    assert [s][..0] == [];
    assert Concat([s]) == Concat([]) + s == s;
  }
}
