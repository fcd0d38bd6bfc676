/** The web app's day: blocks that tile it, the speed looked up in them, and the hours run. */
module Timeline {
  import opened Segments

  datatype Block = Block(startMin: int, endMin: int, rpm: int)

  /** A block's share of the day, in percent. */
  function WidthPct(b: Block): real { (b.endMin - b.startMin) as real / 1440.0 * 100.0 }

  /** The part of the day before the first start belongs to the last segment. */
  function Lead(s: seq<Segment>): seq<Block>
    requires s != []
  {
    if s[0].Minute() > 0 then [Block(0, s[0].Minute(), s[|s| - 1].rpm)] else []
  }

  /** Segment i's block. */
  function BlockOf(s: seq<Segment>, i: nat): Block
    requires i < |s|
  {
    Block(s[i].Minute(), if i < |s| - 1 then s[i + 1].Minute() else DAY, s[i].rpm)
  }

  function BlocksUpTo(s: seq<Segment>, i: nat): seq<Block>
    requires s != [] && i <= |s|
  {
    if i == 0 then Lead(s) else BlocksUpTo(s, i - 1) + [BlockOf(s, i - 1)]
  }

  function Blocks(segs: seq<Segment>): seq<Block> {
    var s := SortSegments(segs);
    if s == [] then [] else BlocksUpTo(s, |s|)
  }

  /** timelineBlocks, without the widths. */
  method TimelineBlocks(segs: seq<Segment>) returns (raw: seq<Block>)
    ensures raw == Blocks(segs)
  {
    hide Segment.Minute;
    var sorted := SortSegments(segs);
    if |sorted| == 0 { return []; }
    raw := [];
    if sorted[0].Minute() > 0 {
      raw := raw + [Block(0, sorted[0].Minute(), sorted[|sorted| - 1].rpm)];
    }
    for i := 0 to |sorted|
      invariant raw == BlocksUpTo(sorted, i)
    {
      var startMin := sorted[i].Minute();
      var endMin := if i < |sorted| - 1 then sorted[i + 1].Minute() else DAY;
      raw := raw + [Block(startMin, endMin, sorted[i].rpm)];
    }
  }

  /** Blocks laid end to end from one minute to another. */
  ghost predicate Tiles(bs: seq<Block>, from: int, to: int) {
    && bs != [] && bs[0].startMin == from && bs[|bs| - 1].endMin == to
    && (forall i :: 0 <= i < |bs| ==> bs[i].startMin <= bs[i].endMin)
    && (forall i :: 0 <= i < |bs| - 1 ==> bs[i].endMin == bs[i + 1].startMin)
  }

  lemma TilesSnoc(bs: seq<Block>, from: int, b: Block)
    requires if bs == [] then b.startMin == from else Tiles(bs, from, b.startMin)
    requires b.startMin <= b.endMin
    ensures Tiles(bs + [b], from, b.endMin)
  {}

  /** Where the block of segment i would start. */
  function StartOf(s: seq<Segment>, i: nat): int
    requires i <= |s|
  {
    if i < |s| then s[i].Minute() else DAY
  }

  lemma {:induction false} TilesUpTo(s: seq<Segment>, i: nat)
    requires Sorted(s) && s != [] && i <= |s|
    ensures if BlocksUpTo(s, i) == [] then i == 0 && s[0].Minute() == 0 else Tiles(BlocksUpTo(s, i), 0, StartOf(s, i))
    decreases i
  {
    hide ToMin;
    if i > 0 {
      TilesUpTo(s, i - 1);
      TilesSnoc(BlocksUpTo(s, i - 1), 0, BlockOf(s, i - 1));
    }
  }

  /** The blocks of a non-empty list tile the whole day, in order and without gaps. */
  lemma BlocksTileDay(segs: seq<Segment>)
    requires segs != []
    ensures Tiles(Blocks(segs), 0, DAY)
  {
    SortIsStable(segs, 0);
    var s := SortSegments(segs);
    assert |multiset(s)| == |multiset(segs)|;
    TilesUpTo(s, |s|);
  }

  function TotalWidth(bs: seq<Block>): real {
    if bs == [] then 0.0 else TotalWidth(bs[..|bs| - 1]) + WidthPct(bs[|bs| - 1])
  }

  lemma {:induction false} WidthOfTiles(bs: seq<Block>, from: int, to: int)
    requires Tiles(bs, from, to)
    ensures TotalWidth(bs) == (to - from) as real / 1440.0 * 100.0
    decreases |bs|
  {
    if |bs| > 1 {
      WidthOfTiles(bs[..|bs| - 1], from, bs[|bs| - 2].endMin);
    } else {
      assert bs[..0] == [];
    }
  }

  /** The widths of the blocks add up to the whole bar. */
  lemma WidthsSumTo100(segs: seq<Segment>)
    requires segs != []
    ensures TotalWidth(Blocks(segs)) == 100.0
  {
    BlocksTileDay(segs);
    WidthOfTiles(Blocks(segs), 0, DAY);
  }

  // ---------- looking a minute up ----------

  predicate Holds(b: Block, m: int) { b.startMin <= m < b.endMin }

  /** The first block that holds the minute, or the first block at all. */
  function Lookup(bs: seq<Block>, m: int): int {
    if bs == [] then 0 else LookupFrom(bs, m, bs[0].rpm)
  }

  function LookupFrom(bs: seq<Block>, m: int, default: int): int {
    if bs == [] then default
    else if Holds(bs[0], m) then bs[0].rpm
    else LookupFrom(bs[1..], m, default)
  }

  /** Every block that holds a minute carries the speed that is active then. */
  lemma {:induction false} BlockResolves(s: seq<Segment>, i: nat, k: nat, m: int)
    requires Sorted(s) && s != [] && i <= |s| && k < |BlocksUpTo(s, i)|
    requires Holds(BlocksUpTo(s, i)[k], m)
    ensures BlocksUpTo(s, i)[k].rpm == Resolve(s, m)
    decreases i
  {
    if i > 0 && k < |BlocksUpTo(s, i - 1)| {
      BlockResolves(s, i - 1, k, m);
    } else if i > 0 {
      BestStep(s, i - 1, m);
      BestPrefix(s, i, |s|, m);
      assert s[..|s|] == s;
    } else {
      BestPrefix(s, 0, |s|, m);
      BestLast(s);
      assert s[..|s|] == s && s[..0] == [];
    }
  }

  /** Over tiles, the blocks before index j do not hold m exactly when m is past them. */
  lemma {:induction false} PastTiles(bs: seq<Block>, from: int, to: int, m: int, j: nat)
    requires Tiles(bs, from, to) && from <= m && j < |bs|
    requires forall i :: 0 <= i < j ==> !Holds(bs[i], m)
    ensures bs[j].startMin <= m
    decreases j
  {
    if j > 0 { PastTiles(bs, from, to, m, j - 1); }
  }

  /** rpmAt: the loop over the blocks. */
  method RpmAt(segs: seq<Segment>, minutes: int) returns (rpm: int)
    ensures rpm == Lookup(Blocks(segs), minutes)
  {
    var blocks := TimelineBlocks(segs);
    if |blocks| == 0 { return 0; }
    assert blocks[0..] == blocks;
    for k := 0 to |blocks|
      invariant blocks != [] && LookupFrom(blocks[k..], minutes, blocks[0].rpm) == Lookup(blocks, minutes)
    {
      var b := blocks[k];
      if minutes >= b.startMin && minutes < b.endMin { return b.rpm; }
      assert blocks[k..][1..] == blocks[k + 1..];
    }
    rpm := blocks[0].rpm;
  }

  /** Looking a minute of the day up in the blocks finds the speed that is active then. */
  lemma LookupResolves(segs: seq<Segment>, m: int)
    requires 0 <= m < DAY
    ensures Lookup(Blocks(segs), m) == Resolve(segs, m)
  {
    var s := SortSegments(segs);
    SortIsStable(segs, 0);
    assert |multiset(s)| == |multiset(segs)|;
    if segs != [] {
      BlocksTileDay(segs);
      BestOfSorted(segs, m);
      BestOfSorted(segs, DAY);
      var bs := Blocks(segs);
      assert bs[0..] == bs;
      LookupFinds(s, bs, m, 0);
    }
  }

  lemma {:induction false} LookupFinds(s: seq<Segment>, bs: seq<Block>, m: int, k: nat)
    requires Sorted(s) && s != [] && bs == BlocksUpTo(s, |s|) && Tiles(bs, 0, DAY) && 0 <= m < DAY
    requires k < |bs| && forall i :: 0 <= i < k ==> !Holds(bs[i], m)
    ensures LookupFrom(bs[k..], m, bs[0].rpm) == Resolve(s, m)
    decreases |bs| - k
  {
    PastTiles(bs, 0, DAY, m, k);
    if Holds(bs[k], m) {
      BlockResolves(s, |s|, k, m);
    } else {
      assert bs[k..][1..] == bs[k + 1..];
      LookupFinds(s, bs, m, k + 1);
    }
  }

  /** Before and after the day the first block's speed is shown. */
  lemma OutsideTheDay(segs: seq<Segment>, m: int)
    requires segs != [] && (m < 0 || m >= 1440)
    ensures Blocks(segs) != [] && Lookup(Blocks(segs), m) == Blocks(segs)[0].rpm
  {
    BlocksTileDay(segs);
    var bs := Blocks(segs);
    assert bs[0..] == bs;
    NoneHolds(bs, m, 0);
    hide Blocks;
  }

  lemma {:induction false} NoneHolds(bs: seq<Block>, m: int, k: nat)
    requires Tiles(bs, 0, DAY) && (m < 0 || m >= DAY) && k <= |bs|
    ensures LookupFrom(bs[k..], m, bs[0].rpm) == bs[0].rpm
    decreases |bs| - k
  {
    if k < |bs| {
      WithinTiles(bs, 0, DAY, k);
      assert bs[k..][1..] == bs[k + 1..];
      NoneHolds(bs, m, k + 1);
    }
  }

  lemma {:induction false} WithinTiles(bs: seq<Block>, from: int, end: int, k: nat)
    requires Tiles(bs, from, end) && k < |bs|
    ensures from <= bs[k].startMin <= bs[k].endMin <= end
  {
    StartsAfter(bs, from, end, k);
    EndsBefore(bs, from, end, k);
  }

  lemma {:induction false} StartsAfter(bs: seq<Block>, from: int, end: int, k: nat)
    requires Tiles(bs, from, end) && k < |bs|
    ensures from <= bs[k].startMin
    decreases k
  {
    if k > 0 { StartsAfter(bs, from, end, k - 1); }
  }

  lemma {:induction false} EndsBefore(bs: seq<Block>, from: int, end: int, k: nat)
    requires Tiles(bs, from, end) && k < |bs|
    ensures bs[k].endMin <= end
    decreases |bs| - k
  {
    if k < |bs| - 1 { EndsBefore(bs, from, end, k + 1); }
  }

  // ---------- hours run ----------

  function HoursOf(bs: seq<Block>): real {
    if bs == [] then 0.0
    else
      var b := bs[|bs| - 1];
      HoursOf(bs[..|bs| - 1]) + (if b.rpm > 0 then (b.endMin - b.startMin) as real / 60.0 else 0.0)
  }

  function RuntimeHours(segs: seq<Segment>): real { HoursOf(Blocks(segs)) }

  /** Minutes before n at which the pump is to run. */
  function MinutesRun(segs: seq<Segment>, n: nat): nat {
    if n == 0 then 0 else MinutesRun(segs, n - 1) + (if Resolve(segs, n - 1) > 0 then 1 else 0)
  }

  lemma {:induction false} MinutesOfBlock(s: seq<Segment>, from: nat, end: nat, rpm: int)
    requires from <= end && forall m :: from <= m < end ==> Resolve(s, m) == rpm
    ensures MinutesRun(s, end) == MinutesRun(s, from) + (if rpm > 0 then end - from else 0)
    decreases end
  {
    if from < end { MinutesOfBlock(s, from, end - 1, rpm); }
  }

  lemma HoursSnoc(bs: seq<Block>, b: Block)
    ensures HoursOf(bs + [b]) == HoursOf(bs) + (if b.rpm > 0 then (b.endMin - b.startMin) as real / 60.0 else 0.0)
  {
    assert (bs + [b])[..|bs|] == bs;
  }

  lemma {:induction false} HoursUpTo(s: seq<Segment>, i: nat)
    requires Sorted(s) && s != [] && i <= |s|
    ensures HoursOf(BlocksUpTo(s, i)) * 60.0 == MinutesRun(s, StartOf(s, i)) as real
    decreases i
  {
    hide Resolve, Segment.Minute, Sorted;
    var to := StartOf(s, i);
    if i > 0 {
      HoursUpTo(s, i - 1);
      StartsInOrder(s, i - 1);
      HoursSnoc(BlocksUpTo(s, i - 1), BlockOf(s, i - 1));
      forall m | StartOf(s, i - 1) <= m < to ensures Resolve(s, m) == s[i - 1].rpm {
        BlockResolves(s, i, |BlocksUpTo(s, i)| - 1, m);
      }
      MinutesOfBlock(s, StartOf(s, i - 1), to, s[i - 1].rpm);
    } else if s[0].Minute() > 0 {
      HoursSnoc([], Lead(s)[0]);
      assert [] + [Lead(s)[0]] == Lead(s);
      forall m | 0 <= m < to ensures Resolve(s, m) == s[|s| - 1].rpm {
        BlockResolves(s, 0, 0, m);
      }
      MinutesOfBlock(s, 0, to, s[|s| - 1].rpm);
    }
  }

  lemma StartsInOrder(s: seq<Segment>, i: nat)
    requires Sorted(s) && i < |s|
    ensures 0 <= StartOf(s, i) <= StartOf(s, i + 1)
  {}

  lemma {:induction false} MinutesSame(segs: seq<Segment>, n: nat)
    ensures MinutesRun(SortSegments(segs), n) == MinutesRun(segs, n)
  {
    hide Resolve, SortSegments, Segment.Minute;
    if n > 0 {
      MinutesSame(segs, n - 1);
      ResolveOfSorted(segs, n - 1);
    }
  }

  lemma ResolveOfSorted(segs: seq<Segment>, t: int)
    ensures Resolve(SortSegments(segs), t) == Resolve(segs, t)
  {
    hide Best, SortSegments, Segment.Minute;
    BestOfSorted(segs, t);
    BestOfSorted(segs, DAY);
  }

  /** Sixty times the hours shown is the number of minutes of the day the pump is to run. */
  lemma RuntimeCountsMinutes(segs: seq<Segment>)
    ensures RuntimeHours(segs) * 60.0 == MinutesRun(segs, DAY) as real
  {
    var s := SortSegments(segs);
    SortIsStable(segs, 0);
    assert |multiset(s)| == |multiset(segs)|;
    MinutesSame(segs, DAY);
    if segs == [] {
      MinutesOfBlock([], 0, DAY, 0);
    } else {
      HoursUpTo(s, |s|);
    }
  }
}
