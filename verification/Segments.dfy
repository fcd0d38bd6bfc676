/** Segments of a day and what it means for one to be active, said without sorting. */
module Segments {
  import opened Options
  import opened Protocol

  const DAY := 1440

  /** A time of day as the schemas accept it: HH:MM, 00:00 to 23:59. */
  predicate IsClock(s: string) {
    && |s| == 5 && s[2] == ':'
    && IsDigit(s[0]) && IsDigit(s[1]) && IsDigit(s[3]) && IsDigit(s[4])
    && Digit(s[0]) * 10 + Digit(s[1]) < 24 && Digit(s[3]) < 6
  }

  predicate IsDigit(c: char) { '0' <= c <= '9' }

  function Digit(c: char): int { c as int - '0' as int }

  type Clock = s: string | IsClock(s) witness "00:00"

  datatype Segment = Segment(start: Clock, rpm: int) {
    /** toMin in the web app, toMinutes in the api: the same expression. */
    function Minute(): (m: int)
      ensures 0 <= m < DAY
    {
      ToMin(start)
    }
  }

  function ToMin(s: Clock): (m: int)
    ensures 0 <= m < DAY
  {
    (Digit(s[0]) * 10 + Digit(s[1])) * 60 + Digit(s[3]) * 10 + Digit(s[4])
  }

  function Char(d: int): char
    requires 0 <= d < 10
  {
    ('0' as int + d) as char
  }

  /** JavaScript's remainder: it takes the sign of the dividend. */
  function Rem(a: int, n: nat): int
    requires n > 0
  {
    if a >= 0 then a % n else -(-a % n)
  }

  function FromMin(min: real): (s: string) {
    var m := (Rem(Round(min), DAY) + DAY) % DAY;
    [Char(m / 60 / 10), Char(m / 60 % 10), ':', Char(m % 60 / 10), Char(m % 60 % 10)]
  }

  /** Printing a minute and reading it back keeps it, around the clock; and a valid time is
      printed back as it was. */
  lemma ClockRoundTrip(m: int, s: Clock)
    ensures IsClock(FromMin(m as real)) && ToMin(FromMin(m as real)) == m % DAY
    ensures FromMin(ToMin(s) as real) == s
  {
    PrintedClock(m, m % DAY / 60, m % DAY % 60);
    ReprintClock(s);
  }

  lemma ReprintClock(s: Clock)
    ensures FromMin(ToMin(s) as real) == s
  {
    hide FromMin;
    var h, q := Digit(s[0]) * 10 + Digit(s[1]), Digit(s[3]) * 10 + Digit(s[4]);
    PrintedClock(ToMin(s), h, q);
    assert s == [s[0], s[1], ':', s[3], s[4]];
  }

  lemma RemWraps(m: int)
    ensures (Rem(m, DAY) + DAY) % DAY == m % DAY
  {
    if m < 0 {
      var q, r := -m / DAY, -m % DAY;
      assert m == -q * DAY - r;
      if r == 0 { assert m % DAY == 0; } else { assert m == (-q - 1) * DAY + (DAY - r); }
    }
  }

  /** A minute count with its hours h and minutes q prints as the digits of both. */
  lemma PrintedClock(m: int, h: int, q: int)
    requires 0 <= h < 24 && 0 <= q < 60 && m % DAY == h * 60 + q
    ensures FromMin(m as real) == [Char(h / 10), Char(h % 10), ':', Char(q / 10), Char(q % 10)]
  {
    assert (m as real + 0.5).Floor == m;
    RemWraps(m);
    assert (h * 60 + q) / 60 == h && (h * 60 + q) % 60 == q;
    assert (h * 60 + q) / 60 / 10 == h / 10;
  }

  /** The active segment at minute t: of those that have started, the one with the latest
      start; of equal starts, the last listed. */
  function Best(segs: seq<Segment>, t: int): Option<Segment> {
    if segs == [] then None else Better(Best(segs[..|segs| - 1], t), segs[|segs| - 1], t)
  }

  function Better(b: Option<Segment>, x: Segment, t: int): Option<Segment> {
    if x.Minute() <= t && (b.None? || b.value.Minute() <= x.Minute()) then Some(x) else b
  }

  /** The speed at minute t: before the first start the day's last segment carries over. */
  function Resolve(segs: seq<Segment>, t: int): int {
    match Best(segs, t)
    case Some(s) => s.rpm
    case None =>
      match Best(segs, DAY)
      case Some(s) => s.rpm
      case None => 0
  }

  /** Segment k is the active one: started, and no started one is later, or equal and after. */
  ghost predicate IsActive(segs: seq<Segment>, t: int, k: int) {
    && 0 <= k < |segs| && segs[k].Minute() <= t
    && forall i :: 0 <= i < |segs| && segs[i].Minute() <= t ==>
         segs[i].Minute() < segs[k].Minute() || (segs[i].Minute() == segs[k].Minute() && i <= k)
  }

  lemma ActiveSnoc(segs: seq<Segment>, x: Segment, t: int, k: int)
    requires IsActive(segs, t, k)
    ensures if x.Minute() <= t && segs[k].Minute() <= x.Minute() then IsActive(segs + [x], t, |segs|)
            else IsActive(segs + [x], t, k)
  {
    hide Segment.Minute;
  }

  /** Best, said with indices: the active segment, if any has started. */
  lemma {:induction false} BestMeans(segs: seq<Segment>, t: int) returns (k: int)
    ensures Best(segs, t).None? <==> forall i :: 0 <= i < |segs| ==> segs[i].Minute() > t
    ensures Best(segs, t).Some? ==> IsActive(segs, t, k) && segs[k] == Best(segs, t).value
    decreases |segs|
  {
    hide Segment.Minute;
    k := 0;
    if segs != [] {
      var pre, x := segs[..|segs| - 1], segs[|segs| - 1];
      k := BestMeans(pre, t);
      assert segs == pre + [x];
      if Best(pre, t).Some? { ActiveSnoc(pre, x, t, k); }
      if x.Minute() <= t && (Best(pre, t).None? || Best(pre, t).value.Minute() <= x.Minute()) { k := |pre|; }
    }
  }

  /** The segment with the latest start of the day, the last listed of equal ones. */
  ghost predicate IsLatest(segs: seq<Segment>, k: int) {
    && 0 <= k < |segs|
    && forall i :: 0 <= i < |segs| ==>
         segs[i].Minute() < segs[k].Minute() || (segs[i].Minute() == segs[k].Minute() && i <= k)
  }

  /** Resolve, said with indices: the active segment's speed, or before the first start that of the
      latest segment of the day; zero only without segments. */
  lemma ResolveMeans(segs: seq<Segment>, t: int) returns (k: int)
    ensures segs == [] ==> Resolve(segs, t) == 0
    ensures segs != [] ==>
              && 0 <= k < |segs| && Resolve(segs, t) == segs[k].rpm
              && if exists i :: 0 <= i < |segs| && segs[i].Minute() <= t then IsActive(segs, t, k)
                 else IsLatest(segs, k)
  {
    k := BestMeans(segs, t);
    if Best(segs, t).None? { k := BestMeans(segs, DAY); }
    hide Best;
    if segs != [] { assert segs[0].Minute() <= DAY; }
  }

  /** Times of day as minutes, and back. */
  lemma ClockExamples()
    ensures ToMin("00:00") == 0 && ToMin("08:30") == 510 && ToMin("23:59") == 1439
    ensures FromMin(510.0) == "08:30" && FromMin(1440.0) == "00:00" && FromMin(-30.0) == "23:30"
    ensures FromMin(59.5) == "01:00"
  {
    PrintedExamples();
    hide FromMin;
  }

  lemma PrintedExamples()
    ensures FromMin(510.0) == "08:30" && FromMin(1440.0) == "00:00" && FromMin(-30.0) == "23:30"
    ensures FromMin(59.5) == "01:00"
  {
    hide FromMin;
    PrintedClock(510, 8, 30);
    PrintedClock(1440, 0, 0);
    PrintedClock(-30, 23, 30);
    PrintedClock(60, 1, 0);
    HalfGoesUp();
  }

  lemma HalfGoesUp()
    ensures FromMin(59.5) == FromMin(60.0)
  {}

  // ---------- the stable sort by start ----------

  ghost predicate Sorted(segs: seq<Segment>) {
    forall i, j :: 0 <= i < j < |segs| ==> segs[i].Minute() <= segs[j].Minute()
  }

  function Insert(segs: seq<Segment>, x: Segment): seq<Segment>
    decreases |segs|
  {
    if segs == [] || segs[|segs| - 1].Minute() <= x.Minute() then segs + [x]
    else Insert(segs[..|segs| - 1], x) + [segs[|segs| - 1]]
  }

  /** sortSegments: JavaScript's sort by start minute, which is stable. */
  function SortSegments(segs: seq<Segment>): seq<Segment> {
    if segs == [] then [] else Insert(SortSegments(segs[..|segs| - 1]), segs[|segs| - 1])
  }

  function StartingAt(segs: seq<Segment>, v: int): seq<Segment> {
    if segs == [] then []
    else
      var r, x := StartingAt(segs[..|segs| - 1], v), segs[|segs| - 1];
      if x.Minute() == v then r + [x] else r
  }

  lemma {:induction false} InsertKeeps(segs: seq<Segment>, x: Segment)
    ensures multiset(Insert(segs, x)) == multiset(segs) + multiset{x}
    decreases |segs|
  {
    hide Segment.Minute;
    if segs != [] && segs[|segs| - 1].Minute() > x.Minute() {
      var pre, last := segs[..|segs| - 1], segs[|segs| - 1];
      InsertKeeps(pre, x);
      assert segs == pre + [last];
    }
  }

  lemma InsertAmong(segs: seq<Segment>, x: Segment, i: nat)
    requires i < |Insert(segs, x)|
    ensures Insert(segs, x)[i] == x || Insert(segs, x)[i] in segs
  {
    InsertKeeps(segs, x);
    assert Insert(segs, x)[i] in multiset(Insert(segs, x));
  }

  lemma {:induction false} InsertSorts(segs: seq<Segment>, x: Segment)
    requires Sorted(segs)
    ensures Sorted(Insert(segs, x))
    decreases |segs|
  {
    hide Segment.Minute;
    if segs != [] && segs[|segs| - 1].Minute() > x.Minute() {
      var pre, last := segs[..|segs| - 1], segs[|segs| - 1];
      InsertSorts(pre, x);
      forall i | 0 <= i < |Insert(pre, x)| ensures Insert(pre, x)[i].Minute() <= last.Minute() {
        InsertAmong(pre, x, i);
      }
    }
  }

  lemma StartingSnoc(segs: seq<Segment>, x: Segment, v: int)
    ensures StartingAt(segs + [x], v) == if x.Minute() == v then StartingAt(segs, v) + [x] else StartingAt(segs, v)
  {
    assert (segs + [x])[..|segs|] == segs;
  }

  lemma {:induction false} InsertStable(segs: seq<Segment>, x: Segment, v: int)
    ensures StartingAt(Insert(segs, x), v) == StartingAt(segs + [x], v)
    decreases |segs|
  {
    hide Segment.Minute;
    if segs != [] && segs[|segs| - 1].Minute() > x.Minute() {
      var pre, last := segs[..|segs| - 1], segs[|segs| - 1];
      InsertStable(pre, x, v);
      assert segs == pre + [last];
      StartingSnoc(Insert(pre, x), last, v);
      StartingSnoc(pre, x, v);
      StartingSnoc(pre, last, v);
      StartingSnoc(segs, x, v);
    }
  }

  /** The sort is sorted, keeps every segment, and keeps equal starts in their order. */
  lemma {:induction false} SortIsStable(segs: seq<Segment>, v: int)
    ensures Sorted(SortSegments(segs))
    ensures multiset(SortSegments(segs)) == multiset(segs)
    ensures StartingAt(SortSegments(segs), v) == StartingAt(segs, v)
    decreases |segs|
  {
    hide Segment.Minute, Insert, Sorted, StartingAt;
    if segs == [] {
      SortedNothing();
    } else {
      var pre, x := segs[..|segs| - 1], segs[|segs| - 1];
      SortIsStable(pre, v);
      InsertSorts(SortSegments(pre), x);
      InsertKeeps(SortSegments(pre), x);
      InsertStable(SortSegments(pre), x, v);
      StartingSnoc(SortSegments(pre), x, v);
      StartingSnoc(pre, x, v);
      assert segs == pre + [x];
    }
  }

  lemma SortedNothing()
    ensures Sorted([])
  {}

  lemma {:induction false} BestInsert(segs: seq<Segment>, x: Segment, t: int)
    requires Sorted(segs)
    ensures Best(Insert(segs, x), t) == Better(Best(segs, t), x, t)
    decreases |segs|
  {
    if segs == [] || segs[|segs| - 1].Minute() <= x.Minute() {
      assert (segs + [x])[..|segs|] == segs;
    } else {
      var n := |segs| - 1;
      var pre, last := segs[..n], segs[n];
      BestInsert(pre, x, t);
      BestListed(pre, t);
      assert (Insert(pre, x) + [last])[..|Insert(pre, x)|] == Insert(pre, x);
    }
  }

  lemma {:induction false} BestListed(segs: seq<Segment>, t: int)
    ensures Best(segs, t).Some? ==> exists k :: 0 <= k < |segs| && segs[k] == Best(segs, t).value
    ensures Best(segs, t).Some? ==> Best(segs, t).value.Minute() <= t
    decreases |segs|
  {
    if segs != [] {
      BestListed(segs[..|segs| - 1], t);
      if Best(segs, t) == Some(segs[|segs| - 1]) {
        assert segs[|segs| - 1] == Best(segs, t).value;
      } else if Best(segs, t).Some? {
        var k :| 0 <= k < |segs| - 1 && segs[..|segs| - 1][k] == Best(segs, t).value;
        assert segs[k] == Best(segs, t).value;
      }
    }
  }

  /** Sorting changes nothing about which segment is active. */
  lemma {:induction false} BestOfSorted(segs: seq<Segment>, t: int)
    ensures Best(SortSegments(segs), t) == Best(segs, t)
    decreases |segs|
  {
    if segs != [] {
      var pre := segs[..|segs| - 1];
      BestOfSorted(pre, t);
      SortIsStable(pre, 0);
      BestInsert(SortSegments(pre), segs[|segs| - 1], t);
    }
  }

  /** In a sorted list the active segment is the last one that has started. */
  lemma BestStep(s: seq<Segment>, i: nat, t: int)
    requires Sorted(s) && i < |s|
    ensures Best(s[..i + 1], t) == if s[i].Minute() <= t then Some(s[i]) else Best(s[..i], t)
  {
    assert s[..i + 1][..i] == s[..i];
    BestListed(s[..i], t);
  }

  /** From index i on nothing has started yet, so the active segment is among the first i. */
  lemma {:induction false} BestPrefix(s: seq<Segment>, i: nat, n: nat, t: int)
    requires Sorted(s) && i <= n <= |s| && (i < |s| ==> s[i].Minute() > t)
    ensures Best(s[..n], t) == Best(s[..i], t)
    decreases n - i
  {
    hide Segment.Minute, Best;
    if i < n {
      BestPrefix(s, i, n - 1, t);
      BestStep(s, n - 1, t);
    }
  }

  /** Late in the day the active segment is the last in sorted order. */
  lemma BestLast(s: seq<Segment>)
    requires Sorted(s) && s != []
    ensures Best(s, DAY) == Some(s[|s| - 1])
  {
    BestStep(s, |s| - 1, DAY);
    assert s[..|s| - 1 + 1] == s;
  }
}
