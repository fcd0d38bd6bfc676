/** What the guardian knows inside its server: the meaning of all bytes its clients ever sent. */
module ServerTraffic {
  import opened Protocol
  import opened Parser
  import opened Options
  import opened Server
  import opened HandOver
  import G = Guardian

  /** The bytes of each app connection so far, in the order of the connections. */
  function Streams(es: seq<Event>): seq<Bytes> {
    if es == [] then []
    else
      var r := Streams(es[..|es| - 1]);
      match es[|es| - 1]
      case Accept(_) => r + [[]]
      case Data(_, _, chunk) => if r == [] then r else r[|r| - 1 := r[|r| - 1] + chunk]
      case _ => r
  }

  /** Their meaning: the complete frames of each connection, sniffed in order, from scratch. */
  function IntentOf(streams: seq<Bytes>, pump: int): G.Intent {
    if streams == [] then G.Intent(false, false, 0)
    else
      var n := |streams| - 1;
      G.SniffAll(IntentOf(streams[..n], pump), Scan(streams[n], false).frames, pump)
  }

  /** The guardian's intent and carried-over bytes are those of the streams. */
  ghost predicate Knows(c: Setup, w: World, streams: seq<Bytes>) {
    && w.s.guardian.intent == IntentOf(streams, c.cfg.pumpAddr)
    && w.s.guardian.rx == (if streams == [] then [] else Leftover(streams[|streams| - 1], false))
    && (streams == [] ==> w.live == {})
  }

  lemma NewConnection(c: Setup, w: World, streams: seq<Bytes>, e: Event)
    requires Knows(c, w, streams) && e.Accept?
    ensures Knows(c, Step(c, w, e), streams + [[]])
  {
    ScanNothing([], false);
    assert (streams + [[]])[..|streams|] == streams;
  }

  lemma MoreBytes(c: Setup, w: World, streams: seq<Bytes>, e: Event)
    requires Knows(c, w, streams) && e.Data? && streams != []
    ensures Knows(c, Step(c, w, e), streams[|streams| - 1 := streams[|streams| - 1] + e.chunk])
  {
    var n := |streams| - 1;
    var before, stream := streams[..n], streams[n];
    var streams' := streams[n := stream + e.chunk];
    assert streams'[..n] == before;
    ScanAppend(stream, e.chunk, false);
    LeftoverBounded(stream + e.chunk, false);
    SniffAllAppend(IntentOf(before, c.cfg.pumpAddr), Scan(stream, false).frames,
                   Scan(Leftover(stream, false) + e.chunk, false).frames, c.cfg.pumpAddr);
    hide Scan, G.SniffAll;
  }

  lemma OtherEvents(c: Setup, w: World, streams: seq<Bytes>, e: Event)
    requires Knows(c, w, streams) && !e.Accept? && !e.Data?
    ensures Knows(c, Step(c, w, e), streams)
  {
    hide IntentOf, Leftover, G.KeepAlive;
  }

  /** In every run the guardian's intent is the meaning of all its clients' bytes: however they
      were cut into reads, whether the link was up or down, and across connections, of which each
      is read from its own beginning. */
  lemma {:induction false} GuardianKnowsTheTraffic(c: Setup, es: seq<Event>)
    requires IsRun(c, es)
    ensures Knows(c, Run(c, es), Streams(es))
    decreases |es|
  {
    hide Knows, Step;
    if es == [] {
      NothingKnown(c);
    } else {
      var before, e := es[..|es| - 1], es[|es| - 1];
      var w := Run(c, before);
      GuardianKnowsTheTraffic(c, before);
      if e.Accept? {
        NewConnection(c, w, Streams(before), e);
      } else if e.Data? {
        SomeConnection(c, w, Streams(before), e.sock);
        MoreBytes(c, w, Streams(before), e);
      } else {
        OtherEvents(c, w, Streams(before), e);
      }
    }
  }

  lemma NothingKnown(c: Setup)
    ensures Knows(c, Run(c, []), [])
  {}

  lemma SomeConnection(c: Setup, w: World, streams: seq<Bytes>, sock: nat)
    requires Knows(c, w, streams) && sock in w.live
    ensures streams != []
  {}

  /** When the app vanishes, in any run: if its traffic means that the pump is to run, the guardian
      starts to hold that, and writes it at once if the link is up; otherwise it writes nothing. */
  lemma CloseHoldsTheTraffic(c: Setup, es: seq<Event>, e: Event)
    requires IsRun(c, es) && Enabled(c, Run(c, es), e)
    requires e.Closed? && Run(c, es).s.client == Some(e.sock)
    ensures var w, w' := Run(c, es), Step(c, Run(c, es), e);
            var i := IntentOf(Streams(es), c.cfg.pumpAddr);
            && w'.s.client.None?
            && (i.IsRunning() ==>
                  && w'.s.guardian.phase == G.Holding && w'.hold.Some? && w'.hold.value.intent == i
                  && w'.bus == (if w.up then w.bus + [Entry(e.at, Guard, G.KeepAlive(i, c.cfg.pumpAddr), None)]
                                else w.bus))
            && (!i.IsRunning() ==> w'.s.guardian.phase == G.Idle && w'.bus == w.bus)
  {
    GuardianKnowsTheTraffic(c, es);
    hide Run, IsRun, IntentOf, Streams, Leftover;
  }
}
