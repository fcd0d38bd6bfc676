/** What the server does not merely avoid but does: a hold keeps asserting, a lasting outage cuts
    the app, and nothing is written while the link is down. */
module ServerLive {
  import opened Options
  import opened Server
  import G = Guardian

  // ---------- a hold keeps the pump alive ----------

  /** The bus log of hold h up to hi: it begins with the hold, and each write follows the one
      before after an interval, at most lag late. */
  ghost predicate Paced(c: Setup, h: Hold, bus: seq<Entry>, hi: nat) {
    && h.from < hi <= |bus| && bus[h.from].at == h.start && bus[hi - 1].at == h.lastAt
    && forall i :: h.from < i < hi ==>
         bus[i - 1].at + c.cfg.keepAliveMs <= bus[i].at <= bus[i - 1].at + c.cfg.keepAliveMs + c.lag
  }

  /** While it goes on the next tick is one interval after the last assert; with the link up
      throughout each assert was written. */
  ghost predicate Asserting(c: Setup, w: World, h: Hold) {
    && w.s.guardian.timer == G.Due(h.lastAt + c.cfg.keepAliveMs)
    && (h.upAll ==> w.up && |w.bus| - h.from == h.asserts && Paced(c, h, w.bus, |w.bus|))
  }

  /** After its end, with the link up throughout: all its asserts, then the release. */
  ghost predicate Asserted(c: Setup, w: World, h: Hold, at: int, up: bool) {
    && h.lastAt + c.cfg.keepAliveMs <= at <= h.lastAt + c.cfg.keepAliveMs + c.lag
    && (h.upAll ==> up && |w.bus| - h.from == h.asserts + 1 && Paced(c, h, w.bus, |w.bus| - 1))
  }

  ghost predicate HoldLive(c: Setup, w: World) {
    w.hold.Some? ==>
      var h := w.hold.value;
      match h.ended
      case None => Asserting(c, w, h)
      case Some(end) => Asserted(c, w, h, end.0, end.1)
  }

  lemma HoldOpens(c: Setup, w: World, e: Event)
    requires Enabled(c, w, e) && SocketsOk(w) && PhaseOk(w) && HoldOk(c, w) && HoldLive(c, w)
    requires e.Closed? && w.s.client == Some(e.sock)
    ensures HoldLive(c, Step(c, w, e))
  {
    assert w.hold.None?;
  }

  lemma HoldGoesOn(c: Setup, w: World, e: Event)
    requires GoodSetup(c) && Enabled(c, w, e) && PhaseOk(w) && HoldOk(c, w) && HoldLive(c, w)
    requires e.Tick? && Step(c, w, e).s.guardian.phase == G.Holding
    ensures HoldLive(c, Step(c, w, e))
  {
    var h := w.hold.value;
    assert HoldGoing(c.cfg, w, h) && Asserting(c, w, h);
    var w' := Step(c, w, e);
    var h' := w'.hold.value;
    assert h' == h.(asserts := h.asserts + 1, lastAt := e.at);
    if h.upAll {
      assert |w'.bus| == |w.bus| + 1 && w'.bus[..|w.bus|] == w.bus && w'.bus[|w.bus|].at == e.at;
      forall i | h.from < i < |w'.bus|
        ensures w'.bus[i - 1].at + c.cfg.keepAliveMs <= w'.bus[i].at <= w'.bus[i - 1].at + c.cfg.keepAliveMs + c.lag
      {
        if i < |w.bus| { assert w'.bus[i] == w.bus[i] && w'.bus[i - 1] == w.bus[i - 1]; }
      }
    }
  }

  lemma HoldCloses(c: Setup, w: World, e: Event)
    requires GoodSetup(c) && Enabled(c, w, e) && PhaseOk(w) && HoldOk(c, w) && HoldLive(c, w)
    requires e.Tick? && Step(c, w, e).s.guardian.phase != G.Holding
    ensures HoldLive(c, Step(c, w, e))
  {
    var h := w.hold.value;
    assert HoldGoing(c.cfg, w, h) && Asserting(c, w, h);
    var w' := Step(c, w, e);
    assert w'.hold == Some(h.(ended := Some((e.at, w.up))));
    if h.upAll {
      assert |w'.bus| == |w.bus| + 1 && w'.bus[..|w.bus|] == w.bus;
      PacedPrefix(c, h, w'.hold.value, w.bus, w'.bus);
    }
  }

  lemma PacedPrefix(c: Setup, h: Hold, h': Hold, bus: seq<Entry>, bus': seq<Entry>)
    requires Paced(c, h, bus, |bus|) && bus <= bus'
    requires h'.from == h.from && h'.start == h.start && h'.lastAt == h.lastAt
    ensures Paced(c, h', bus', |bus|)
  {}

  lemma HoldLiveKept(c: Setup, w: World, e: Event)
    requires GoodSetup(c) && Enabled(c, w, e) && SocketsOk(w) && PhaseOk(w) && HoldOk(c, w) && HoldLive(c, w)
    ensures HoldLive(c, Step(c, w, e))
  {
    hide HoldLive, HoldOk, SocketsOk, PhaseOk;
    if e.Closed? && w.s.client == Some(e.sock) {
      HoldOpens(c, w, e);
    } else if e.Tick? && Step(c, w, e).s.guardian.phase == G.Holding {
      HoldGoesOn(c, w, e);
    } else if e.Tick? {
      HoldCloses(c, w, e);
    } else {
      OthersKeepHold(c, w, e);
    }
  }

  /** No other event touches a hold, but that a lost link is noted and an app ends it. */
  lemma OthersKeepHold(c: Setup, w: World, e: Event)
    requires Enabled(c, w, e) && SocketsOk(w) && PhaseOk(w) && HoldOk(c, w) && HoldLive(c, w)
    requires !e.Tick? && !(e.Closed? && w.s.client == Some(e.sock))
    ensures HoldLive(c, Step(c, w, e))
  {
    hide Paced, G.OnTick, G.OnDisconnect, G.OnBytes;
    assert w.hold.Some? ==> w.s.client.None?;
  }

  // ---------- a lasting outage cuts the app ----------

  /** The cuts that the firings of the grace timer call for. */
  function CutsOf(graces: seq<Fired>): seq<Cut> {
    if graces == [] then []
    else
      var f, before := graces[|graces| - 1], CutsOf(graces[..|graces| - 1]);
      if f.client.Some? then before + [Cut(f.outage, f.since, f.at)] else before
  }

  predicate HasFired(w: World) { |w.graces| > 0 && w.graces[|w.graces| - 1].outage == w.outages }

  /** The firings so far: each within lag of 1500 ms after its outage began, one an outage; and
      whoever was the client then was cut. */
  ghost predicate Firings(c: Setup, w: World) {
    && (forall i :: 0 <= i < |w.graces| ==>
          var f := w.graces[i]; 0 < f.outage <= w.outages && f.since + 1500 <= f.at <= f.since + 1500 + c.lag)
    && (forall i, j :: 0 <= i < j < |w.graces| ==> w.graces[i].outage < w.graces[j].outage)
    && w.cuts == CutsOf(w.graces)
  }

  /** While the link is down the timer is armed for 1500 ms after, until it has fired. */
  ghost predicate Armed(c: Setup, w: World) {
    && (w.up || w.outages == 0 ==> w.s.lostTimer.None?)
    && (!w.up && w.outages > 0 ==>
          w.s.lostTimer == if HasFired(w) then None else Some(w.downSince + 1500))
    && (w.s.lostTimer.Some? ==> w.now <= w.s.lostTimer.value + c.lag)
    && (HasFired(w) ==> w.graces[|w.graces| - 1].since == w.downSince)
  }

  ghost predicate GraceLive(c: Setup, w: World) { Firings(c, w) && Armed(c, w) }

  lemma CutsSnoc(graces: seq<Fired>, f: Fired)
    ensures CutsOf(graces + [f]) ==
              if f.client.Some? then CutsOf(graces) + [Cut(f.outage, f.since, f.at)] else CutsOf(graces)
  {
    assert (graces + [f])[..|graces|] == graces;
  }

  lemma FiringsKept(c: Setup, w: World, e: Event)
    requires Enabled(c, w, e) && Firings(c, w) && Armed(c, w)
    ensures Firings(c, Step(c, w, e))
  {
    hide CutsOf, G.OnTick, G.OnDisconnect, G.OnBytes, G.OnConnect, Log;
    if e.Grace? {
      CutsSnoc(w.graces, Fired(w.outages, w.downSince, e.at, w.s.client));
    } else {
      assert Step(c, w, e).graces == w.graces && Step(c, w, e).cuts == w.cuts;
    }
  }

  lemma ArmedKept(c: Setup, w: World, e: Event)
    requires Enabled(c, w, e) && Firings(c, w) && Armed(c, w)
    ensures Armed(c, Step(c, w, e))
  {
    hide CutsOf, G.OnTick, G.OnDisconnect, G.OnBytes, G.OnConnect, Log;
  }

  lemma GraceLiveKept(c: Setup, w: World, e: Event)
    requires Enabled(c, w, e) && GraceLive(c, w)
    ensures GraceLive(c, Step(c, w, e))
  {
    hide Firings, Armed, Step, Enabled;
    FiringsKept(c, w, e);
    ArmedKept(c, w, e);
  }

  // ---------- all runs ----------

  lemma {:induction false} EveryRunLive(c: Setup, es: seq<Event>)
    requires GoodSetup(c) && IsRun(c, es)
    ensures HoldLive(c, Run(c, es)) && GraceLive(c, Run(c, es))
    decreases |es|
  {
    if es != [] {
      var w, e := Run(c, es[..|es| - 1]), es[|es| - 1];
      EveryRunLive(c, es[..|es| - 1]);
      EveryRunSafe(c, es[..|es| - 1]);
      hide Enabled, Step, SocketsOk, PhaseOk, SingleWriter, GraceOk, CutsOk, HoldOk, HoldLive, GraceLive;
      HoldLiveKept(c, w, e);
      GraceLiveKept(c, w, e);
    } else {
      NothingFired(c);
    }
  }

  lemma NothingFired(c: Setup)
    ensures HoldLive(c, START) && GraceLive(c, START)
  {}

  // ---------- the results ----------

  /** A hold keeps the pump alive: in every run, as long as a hold goes on with the link up since
      it began, the last thing on the bus is one of its keep-alives, no more than one interval and
      lag old; the hold's keep-alives begin with the hold and follow one another at that distance. */
  lemma HoldKeepsAlive(c: Setup, es: seq<Event>)
    requires GoodSetup(c) && IsRun(c, es)
    requires var hold := Run(c, es).hold; hold.Some? && hold.value.ended.None? && hold.value.upAll
    ensures var w := Run(c, es); var h := w.hold.value; var n := |w.bus|;
            && h.from < n && w.bus[h.from].at == h.start
            && (forall i :: h.from <= i < n ==> IsAssert(c.cfg, h, w.bus[i]))
            && w.now <= w.bus[n - 1].at + c.cfg.keepAliveMs + c.lag
            && (forall i :: h.from < i < n ==> w.bus[i].at <= w.bus[i - 1].at + c.cfg.keepAliveMs + c.lag)
  {
    hide Run, IsRun, SocketsOk, PhaseOk, SingleWriter, GraceOk, CutsOk, GraceLive, HoldGoing, Asserting, IsAssert;
    EveryRunSafe(c, es);
    EveryRunLive(c, es);
    ClockInTime(c, es);
    AssertingMeans(c, Run(c, es), Run(c, es).hold.value);
  }

  lemma AssertingMeans(c: Setup, w: World, h: Hold)
    requires HoldGoing(c.cfg, w, h) && Asserting(c, w, h) && h.upAll
    requires w.s.guardian.timer.Due? ==> w.now <= w.s.guardian.timer.at + c.lag
    ensures var n := |w.bus|;
            && h.from < n && w.bus[h.from].at == h.start
            && (forall i :: h.from <= i < n ==> IsAssert(c.cfg, h, w.bus[i]))
            && w.now <= w.bus[n - 1].at + c.cfg.keepAliveMs + c.lag
            && (forall i :: h.from < i < n ==> w.bus[i].at <= w.bus[i - 1].at + c.cfg.keepAliveMs + c.lag)
  {
    hide IsAssert;
  }

  /** And it keeps it so to the end: when it is released at the deadline, the last keep-alive is
      no more than one interval and lag old. */
  lemma HoldKeptToTheEnd(c: Setup, es: seq<Event>)
    requires GoodSetup(c) && IsRun(c, es)
    requires var hold := Run(c, es).hold; hold.Some? && hold.value.ended.Some? && hold.value.upAll
    ensures var w := Run(c, es); var h := w.hold.value; var n := |w.bus|;
            && h.from < n - 1 && w.bus[h.from].at == h.start
            && w.bus[n - 1] == Entry(h.ended.value.0, Guard, G.Release(c.cfg.pumpAddr), None)
            && (forall i :: h.from < i < n ==> w.bus[i].at <= w.bus[i - 1].at + c.cfg.keepAliveMs + c.lag)
  {
    hide Run, IsRun, SocketsOk, PhaseOk, SingleWriter, GraceOk, CutsOk, GraceLive, HoldEnded, Asserted;
    EveryRunSafe(c, es);
    EveryRunLive(c, es);
    var h := Run(c, es).hold.value;
    AssertedMeans(c, Run(c, es), h, h.ended.value.0, h.ended.value.1);
  }

  lemma AssertedMeans(c: Setup, w: World, h: Hold, at: int, up: bool)
    requires HoldEnded(c, w, h, at, up) && Asserted(c, w, h, at, up) && h.upAll
    ensures var n := |w.bus|;
            && h.from < n - 1 && w.bus[h.from].at == h.start
            && w.bus[n - 1] == Entry(at, Guard, G.Release(c.cfg.pumpAddr), None)
            && (forall i :: h.from < i < n ==> w.bus[i].at <= w.bus[i - 1].at + c.cfg.keepAliveMs + c.lag)
  {
    hide Asserts;
  }

  /** When the grace timer fires with a client, that client is destroyed and counted as one cut of
      the current outage. */
  lemma GraceCuts(c: Setup, es: seq<Event>, e: Event, k: nat)
    requires GoodSetup(c) && IsRun(c, es) && Enabled(c, Run(c, es), e)
    requires e.Grace? && Run(c, es).s.client == Some(k)
    ensures var w, w' := Run(c, es), Step(c, Run(c, es), e);
            k !in w'.live && k in w'.doomed && w'.cuts == w.cuts + [Cut(w.outages, w.downSince, e.at)]
  {
    EveryRunSafe(c, es);
    hide Run, IsRun;
  }

  /** A lasting outage: in every run, when the link has been down for more than 1500 ms and lag,
      the grace timer has fired in this outage, once, and if there was a client then, the outage
      cut it, once; before that the timer is armed for 1500 ms after the link went down. */
  lemma LastingOutageCuts(c: Setup, es: seq<Event>)
    requires GoodSetup(c) && IsRun(c, es) && !Run(c, es).up && Run(c, es).outages > 0
    ensures var w := Run(c, es);
            && (!HasFired(w) ==> w.s.lostTimer == Some(w.downSince + 1500) && w.now <= w.downSince + 1500 + c.lag)
            && (HasFired(w) ==>
                  var f := w.graces[|w.graces| - 1];
                  && f.since == w.downSince && f.since + 1500 <= f.at <= f.since + 1500 + c.lag
                  && (f.client.Some? ==> |w.cuts| > 0 && w.cuts[|w.cuts| - 1] == Cut(w.outages, w.downSince, f.at))
                  && (f.client.None? ==> forall i :: 0 <= i < |w.cuts| ==> w.cuts[i].outage < w.outages))
            && (forall i, j :: 0 <= i < j < |w.cuts| ==> w.cuts[i].outage < w.cuts[j].outage)
  {
    hide Run, IsRun, SocketsOk, PhaseOk, SingleWriter, HoldOk, HoldLive, GraceOk, GraceLive;
    EveryRunSafe(c, es);
    EveryRunLive(c, es);
    GraceLiveMeans(c, Run(c, es));
  }

  lemma GraceLiveMeans(c: Setup, w: World)
    requires GraceLive(c, w) && !w.up && w.outages > 0
    ensures !HasFired(w) ==> w.s.lostTimer == Some(w.downSince + 1500) && w.now <= w.downSince + 1500 + c.lag
    ensures HasFired(w) ==>
              var f := w.graces[|w.graces| - 1];
              && f.since == w.downSince && f.since + 1500 <= f.at <= f.since + 1500 + c.lag
              && (f.client.Some? ==> |w.cuts| > 0 && w.cuts[|w.cuts| - 1] == Cut(w.outages, w.downSince, f.at))
              && (f.client.None? ==> forall i :: 0 <= i < |w.cuts| ==> w.cuts[i].outage < w.outages)
  {
    if HasFired(w) {
      var before := w.graces[..|w.graces| - 1];
      assert forall i :: 0 <= i < |before| ==> before[i] == w.graces[i];
      CutsBelow(before, CutsOf(before), w.outages);
    }
  }

  /** Cuts belong to the outages in which the timer fired. */
  lemma {:induction false} CutsBelow(graces: seq<Fired>, cuts: seq<Cut>, n: nat)
    requires cuts == CutsOf(graces) && forall i :: 0 <= i < |graces| ==> graces[i].outage < n
    ensures forall i :: 0 <= i < |cuts| ==> cuts[i].outage < n
    decreases |graces|
  {
    if graces != [] { CutsBelow(graces[..|graces| - 1], CutsOf(graces[..|graces| - 1]), n); }
  }

  /** Nothing is written while the link is down. */
  lemma DownLinkIsSilent(c: Setup, w: World, e: Event)
    requires Enabled(c, w, e) && !w.up
    ensures Step(c, w, e).bus == w.bus
  {}
}
