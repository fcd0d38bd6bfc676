/** What the frames of a scan are, said without running the scanner: over the verdicts at
    all offsets of a buffer, the accepted packets are the one way to walk it from left to right. */
module ScanMeaning {
  import opened Protocol
  import opened Parser

  /** A verdict for every offset of a buffer; no packet is empty or runs past the end. */
  ghost predicate Fits(V: seq<Verdict>) {
    forall p :: 0 <= p < |V| ==> (V[p].Skip? ==> p + 1 < |V|) && (V[p].Accept? ==> 0 < V[p].size && p + V[p].size < |V|)
  }

  function Verdicts(s: Bytes, verify: bool): (V: seq<Verdict>)
    ensures |V| == |s| + 1 && Fits(V)
    ensures forall p :: 0 <= p <= |s| ==> V[p] == Decide(s[p..], verify)
  {
    seq(|s| + 1, p requires 0 <= p <= |s| => Decide(s[p..], verify))
  }

  ghost predicate AcceptedAt(V: seq<Verdict>, a: nat) { a < |V| && V[a].Accept? }

  ghost function EndOf(V: seq<Verdict>, a: nat): nat
    requires AcceptedAt(V, a)
  {
    a + V[a].size
  }

  /** The accepted offsets are packets between i and end, in order and disjoint. */
  ghost predicate Disjoint(V: seq<Verdict>, i: nat, starts: seq<nat>, end: nat) {
    && (forall k :: 0 <= k < |starts| ==> AcceptedAt(V, starts[k]) && i <= starts[k] && EndOf(V, starts[k]) <= end)
    && (forall j, k :: 0 <= j < k < |starts| ==> EndOf(V, starts[j]) <= starts[k])
  }

  /** Offset p is inside an accepted packet. */
  ghost predicate Covered(V: seq<Verdict>, starts: seq<nat>, p: nat) {
    exists k :: 0 <= k < |starts| && AcceptedAt(V, starts[k]) && starts[k] <= p < EndOf(V, starts[k])
  }

  /** Nothing between i and end was thrown away that the verdicts do not discard. */
  ghost predicate NothingMissed(V: seq<Verdict>, i: nat, starts: seq<nat>, end: nat) {
    && i <= end < |V|
    && V[end].NeedMore?
    && forall p :: i <= p < end ==> V[p].Skip? || Covered(V, starts, p)
  }

  function Walk(V: seq<Verdict>, i: nat): (r: (seq<nat>, nat))
    requires Fits(V) && i < |V|
    decreases |V| - i
  {
    match V[i]
    case NeedMore => ([], i)
    case Skip => Walk(V, i + 1)
    case Accept(n) =>
      var r := Walk(V, i + n);
      ([i] + r.0, r.1)
  }

  lemma DisjointCons(V: seq<Verdict>, i: nat, n: nat, st: seq<nat>, end: nat)
    requires i < |V| && V[i] == Accept(n) && i + n <= end
    requires Disjoint(V, i + n, st, end)
    ensures Disjoint(V, i, [i] + st, end)
  {
    var all := [i] + st;
    forall j, k | 0 <= j < k < |all| ensures AcceptedAt(V, all[j]) && EndOf(V, all[j]) <= all[k] {
      assert all[k] == st[k - 1];
      if j > 0 { assert all[j] == st[j - 1]; }
    }
  }

  lemma MissedCons(V: seq<Verdict>, i: nat, n: nat, st: seq<nat>, end: nat)
    requires i < |V| && V[i] == Accept(n)
    requires NothingMissed(V, i + n, st, end)
    ensures NothingMissed(V, i, [i] + st, end)
  {
    var all := [i] + st;
    forall p | i <= p < end ensures V[p].Skip? || Covered(V, all, p) {
      if p < i + n {
        assert all[0] == i;
      } else if !V[p].Skip? {
        var k :| 0 <= k < |st| && AcceptedAt(V, st[k]) && st[k] <= p < EndOf(V, st[k]);
        assert all[k + 1] == st[k];
      }
    }
  }

  lemma {:induction false} WalkIsWalk(V: seq<Verdict>, i: nat)
    requires Fits(V) && i < |V|
    ensures Disjoint(V, i, Walk(V, i).0, Walk(V, i).1) && NothingMissed(V, i, Walk(V, i).0, Walk(V, i).1)
    decreases |V| - i
  {
    match V[i] {
      case NeedMore =>
      case Skip => WalkIsWalk(V, i + 1);
      case Accept(n) =>
        WalkIsWalk(V, i + n);
        DisjointCons(V, i, n, Walk(V, i + n).0, Walk(V, i).1);
        MissedCons(V, i, n, Walk(V, i + n).0, Walk(V, i).1);
    }
  }

  lemma {:induction false} WalkUnique(V: seq<Verdict>, i: nat, starts: seq<nat>, end: nat)
    requires Fits(V) && i < |V| && Disjoint(V, i, starts, end) && NothingMissed(V, i, starts, end)
    ensures (starts, end) == Walk(V, i)
    decreases |V| - i
  {
    hide Disjoint, NothingMissed;
    match V[i] {
      case NeedMore =>
        FirstStart(V, i, starts, end);
      case Skip =>
        SkipFirst(V, i, starts, end);
        WalkUnique(V, i + 1, starts, end);
      case Accept(n) =>
        FirstStart(V, i, starts, end);
        WalkUniqueCons(V, i, n, starts, end);
        WalkUnique(V, i + n, starts[1..], end);
    }
  }

  lemma LaterStart(V: seq<Verdict>, i: nat, starts: seq<nat>, end: nat, k: nat)
    requires Fits(V) && Disjoint(V, i, starts, end) && k < |starts|
    ensures starts[k] >= i && (k > 0 ==> starts[k] > i)
  {
    if k > 0 {
      assert AcceptedAt(V, starts[0]);
      assert EndOf(V, starts[0]) <= starts[k];
    }
  }

  /** An undecidable offset is the end; a packet at the first offset is the first one taken. */
  lemma FirstStart(V: seq<Verdict>, i: nat, starts: seq<nat>, end: nat)
    requires Fits(V) && i < |V| && Disjoint(V, i, starts, end) && NothingMissed(V, i, starts, end)
    ensures V[i].NeedMore? ==> i == end && starts == []
    ensures V[i].Accept? ==> |starts| > 0 && starts[0] == i
  {
    if !V[i].Skip? && i < end {
      assert Covered(V, starts, i);
      var k :| 0 <= k < |starts| && AcceptedAt(V, starts[k]) && starts[k] <= i < EndOf(V, starts[k]);
      LaterStart(V, i, starts, end, k);
    } else if |starts| > 0 {
      assert EndOf(V, starts[0]) <= end;
    }
  }

  lemma SkipFirst(V: seq<Verdict>, i: nat, starts: seq<nat>, end: nat)
    requires Fits(V) && i < |V| && V[i].Skip?
    requires Disjoint(V, i, starts, end) && NothingMissed(V, i, starts, end)
    ensures Disjoint(V, i + 1, starts, end) && NothingMissed(V, i + 1, starts, end)
  {
    forall k | 0 <= k < |starts| ensures i + 1 <= starts[k] {
      assert AcceptedAt(V, starts[k]);
    }
  }

  lemma WalkUniqueCons(V: seq<Verdict>, i: nat, n: nat, starts: seq<nat>, end: nat)
    requires Fits(V) && i < |V| && V[i] == Accept(n)
    requires Disjoint(V, i, starts, end) && NothingMissed(V, i, starts, end)
    requires |starts| > 0 && starts[0] == i
    ensures starts == [i] + starts[1..]
    ensures Disjoint(V, i + n, starts[1..], end) && NothingMissed(V, i + n, starts[1..], end)
  {
    hide *;
    DisjointTail(V, i, n, starts, end);
    MissedTail(V, i, n, starts, end);
  }

  lemma DisjointTail(V: seq<Verdict>, i: nat, n: nat, starts: seq<nat>, end: nat)
    requires i < |V| && V[i] == Accept(n) && Disjoint(V, i, starts, end) && |starts| > 0 && starts[0] == i
    ensures i + n <= end && Disjoint(V, i + n, starts[1..], end)
  {
    var st := starts[1..];
    assert EndOf(V, starts[0]) == i + n;
    forall k | 0 <= k < |st|
      ensures AcceptedAt(V, st[k]) && i + n <= st[k] && EndOf(V, st[k]) <= end
    {
      assert st[k] == starts[k + 1];
      assert EndOf(V, starts[0]) <= starts[k + 1];
    }
    forall j, k | 0 <= j < k < |st| ensures EndOf(V, st[j]) <= st[k] {
      assert st[j] == starts[j + 1] && st[k] == starts[k + 1];
    }
  }

  lemma MissedTail(V: seq<Verdict>, i: nat, n: nat, starts: seq<nat>, end: nat)
    requires i < |V| && V[i] == Accept(n) && i + n <= end
    requires NothingMissed(V, i, starts, end) && |starts| > 0 && starts[0] == i
    ensures NothingMissed(V, i + n, starts[1..], end)
  {
    forall p | i + n <= p < end ensures V[p].Skip? || Covered(V, starts[1..], p) {
      if !V[p].Skip? { CoveredByTail(V, n, starts, p); }
    }
  }

  lemma CoveredByTail(V: seq<Verdict>, n: nat, starts: seq<nat>, p: nat)
    requires Covered(V, starts, p) && |starts| > 0 && starts[0] < |V| && V[starts[0]] == Accept(n) && starts[0] + n <= p
    ensures Covered(V, starts[1..], p)
  {
    var k :| 0 <= k < |starts| && AcceptedAt(V, starts[k]) && starts[k] <= p < EndOf(V, starts[k]);
    assert k > 0 && starts[1..][k - 1] == starts[k];
  }

  /** Offsets at which frames were taken. */
  predicate TakenAt(s: Bytes, starts: seq<nat>, frames: seq<Frame>) {
    && |starts| == |frames|
    && forall k :: 0 <= k < |starts| ==>
         starts[k] + 8 <= |s| && starts[k] + 8 + s[starts[k] + 5] <= |s| && frames[k] == FrameOf(s[starts[k]..])
  }

  /** V lists the verdicts at all offsets of s. */
  ghost predicate AreVerdicts(s: Bytes, verify: bool, V: seq<Verdict>) {
    |V| == |s| + 1 && Fits(V) && forall p :: 0 <= p <= |s| ==> V[p] == Decide(s[p..], verify)
  }

  lemma {:induction false} ScanFollowsWalk(s: Bytes, verify: bool, V: seq<Verdict>, i: nat)
    requires AreVerdicts(s, verify, V) && i <= |s|
    ensures |V| == |s| + 1 && Fits(V)
    ensures TakenAt(s, Walk(V, i).0, Scan(s[i..], verify).frames)
    ensures Walk(V, i).1 == i + Scan(s[i..], verify).consumed
    decreases |s| - i
  {
    hide *;
    VerdictHere(s, verify, V, i);
    if V[i].NeedMore? {
      WalkStops(s, V, verify, i);
    } else {
      WalkStep(V, i);
      var n := V[i].Advance();
      assert s[i..][n..] == s[i + n..];
      ScanFollowsWalk(s, verify, V, i + n);
      WalkFirst(s, V, verify, i);
    }
  }

  lemma VerdictHere(s: Bytes, verify: bool, V: seq<Verdict>, i: nat)
    requires AreVerdicts(s, verify, V) && i <= |s|
    ensures |V| == |s| + 1 && Fits(V) && V[i] == Decide(s[i..], verify)
  {}

  lemma VerdictsListed(s: Bytes, verify: bool)
    ensures AreVerdicts(s, verify, Verdicts(s, verify))
  {}

  lemma WalkStops(s: Bytes, V: seq<Verdict>, verify: bool, i: nat)
    requires i <= |s| && AreVerdicts(s, verify, V) && V[i].NeedMore?
    ensures Walk(V, i) == ([], i) && Scan(s[i..], verify) == ScanResult([], 0)
    ensures TakenAt(s, [], [])
  {
    ScanNothing(s[i..], verify);
  }

  lemma WalkFirst(s: Bytes, V: seq<Verdict>, verify: bool, i: nat)
    requires i <= |s| && AreVerdicts(s, verify, V) && !V[i].NeedMore?
    requires i + V[i].Advance() <= |s| && s[i..][V[i].Advance()..] == s[i + V[i].Advance()..]
    requires TakenAt(s, Walk(V, i + V[i].Advance()).0, Scan(s[i + V[i].Advance()..], verify).frames)
    ensures TakenAt(s, Walk(V, i).0, Scan(s[i..], verify).frames)
    ensures Walk(V, i).1 == Walk(V, i + V[i].Advance()).1
    ensures Scan(s[i..], verify).consumed == V[i].Advance() + Scan(s[i + V[i].Advance()..], verify).consumed
  {
    var here, n := s[i..], V[i].Advance();
    var st, fs := Walk(V, i + n).0, Scan(s[i + n..], verify).frames;
    assert |V| == |s| + 1 && Fits(V) && V[i] == Decide(here, verify);
    ScanStep(here, verify, n);
    EmitAt(s, verify, i);
    hide *;
    assert Walk(V, i) == (if V[i].Accept? then ([i] + st, Walk(V, i + n).1) else Walk(V, i + n)) by { WalkStep(V, i); }
    if V[i].Accept? {
      TakenCons(s, i, st, fs);
    } else {
      assert [] + fs == fs;
    }
  }

  lemma WalkStep(V: seq<Verdict>, i: nat)
    requires Fits(V) && i < |V| && !V[i].NeedMore?
    ensures V[i].Advance() >= 1 && i + V[i].Advance() < |V|
    ensures var r := Walk(V, i + V[i].Advance());
            Walk(V, i) == (if V[i].Accept? then ([i] + r.0, r.1) else r)
  {}

  lemma EmitAt(s: Bytes, verify: bool, i: nat)
    requires i <= |s|
    ensures Decide(s[i..], verify).Accept? ==>
              i + 8 <= |s| && i + 8 + s[i + 5] <= |s| && Emit(s[i..], verify) == [FrameOf(s[i..])]
    ensures !Decide(s[i..], verify).Accept? ==> Emit(s[i..], verify) == []
  {}

  lemma TakenCons(s: Bytes, i: nat, starts: seq<nat>, frames: seq<Frame>)
    requires i + 8 <= |s| && i + 8 + s[i + 5] <= |s| && TakenAt(s, starts, frames)
    ensures TakenAt(s, [i] + starts, [FrameOf(s[i..])] + frames)
  {
    var all, fs := [i] + starts, [FrameOf(s[i..])] + frames;
    forall k | 0 < k < |all| ensures all[k] == starts[k - 1] && fs[k] == frames[k - 1] {}
  }

  lemma TakenUnique(s: Bytes, starts: seq<nat>, fs: seq<Frame>, gs: seq<Frame>)
    ensures TakenAt(s, starts, fs) && TakenAt(s, starts, gs) ==> fs == gs
  {}

  /** Soundness, completeness and uniqueness: starts, frames and consumed are the scan's
      answer exactly when the starts are a walk over the verdicts of the buffer and the frames
      are the ones that sit there. */
  lemma ScanCharacterised(s: Bytes, verify: bool, starts: seq<nat>, frames: seq<Frame>, consumed: nat)
    ensures Disjoint(Verdicts(s, verify), 0, starts, consumed)
         && NothingMissed(Verdicts(s, verify), 0, starts, consumed)
         && TakenAt(s, starts, frames)
       <==> starts == Walk(Verdicts(s, verify), 0).0 && ScanResult(frames, consumed) == Scan(s, verify)
  {
    hide *;
    var V := Verdicts(s, verify);
    WalkIsWalk(V, 0);
    assert AreVerdicts(s, verify, V) by { VerdictsListed(s, verify); }
    ScanFollowsWalk(s, verify, V, 0);
    assert s[0..] == s;
    assert TakenAt(s, Walk(V, 0).0, frames) && TakenAt(s, Walk(V, 0).0, Scan(s, verify).frames)
      ==> frames == Scan(s, verify).frames by { TakenUnique(s, Walk(V, 0).0, frames, Scan(s, verify).frames); }
    if Disjoint(V, 0, starts, consumed) && NothingMissed(V, 0, starts, consumed) { WalkUnique(V, 0, starts, consumed); }
  }
}
