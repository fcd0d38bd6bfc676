/** The guardian process as a whole: the upstream client's notifications are what drives the
    server's view of the link. */
module Process {
  import opened Options
  import S = Server
  import U = Upstream

  datatype Setup = Setup(link: U.Setup, server: S.Setup)

  datatype World = World(u: U.World, s: S.World)

  /** An event of the link, or one of the server's own. */
  datatype Event = Link(link: U.Event) | Own(own: S.Event)

  /** What a link event tells the server: onConnected, onDisconnected, or nothing. */
  function Notified(c: Setup, w: World, e: U.Event): Option<S.Event> {
    match e
    case Connect(at) => Some(S.LinkUp(at))
    case Close(at, random) =>
      if U.OnClose(c.link.cfg, w.u.s, at, random).1.notedDown then Some(S.LinkDown(at)) else None
    case _ => None
  }

  /** Each side's events are possible as it says; that link notifications alternate is not
      assumed. One clock serves both. */
  predicate Enabled(c: Setup, w: World, e: Event) {
    match e
    case Link(l) =>
      && U.Enabled(c.link, w.u, l) && l.at >= w.s.now && S.InTime(c.server, w.s, l.at)
    case Own(o) => !o.LinkUp? && !o.LinkDown? && S.Enabled(c.server, w.s, o) && o.at >= w.u.now
  }

  function Step(c: Setup, w: World, e: Event): World {
    match e
    case Link(l) =>
      var note := Notified(c, w, l);
      World(U.Step(c.link, w.u, l), if note.Some? then S.Step(c.server, w.s, note.value) else w.s)
    case Own(o) => w.(s := S.Step(c.server, w.s, o))
  }

  predicate IsRun(c: Setup, es: seq<Event>) {
    es == [] || (IsRun(c, es[..|es| - 1]) && Enabled(c, Run(c, es[..|es| - 1]), es[|es| - 1]))
  }

  function Run(c: Setup, es: seq<Event>): World {
    if es == [] then World(U.START, S.START) else Step(c, Run(c, es[..|es| - 1]), es[|es| - 1])
  }

  // ---------- the two sides of a run ----------

  function LinkSide(es: seq<Event>): seq<U.Event> {
    if es == [] then []
    else
      var r := LinkSide(es[..|es| - 1]);
      if es[|es| - 1].Link? then r + [es[|es| - 1].link] else r
  }

  function ServerSide(c: Setup, es: seq<Event>): seq<S.Event> {
    if es == [] then []
    else
      var r := ServerSide(c, es[..|es| - 1]);
      match es[|es| - 1]
      case Own(o) => r + [o]
      case Link(l) =>
        var note := Notified(c, Run(c, es[..|es| - 1]), l);
        if note.Some? then r + [note.value] else r
  }

  lemma ServerSnoc(c: S.Setup, es: seq<S.Event>, e: S.Event)
    requires S.IsRun(c, es) && S.Enabled(c, S.Run(c, es), e)
    ensures S.IsRun(c, es + [e]) && S.Run(c, es + [e]) == S.Step(c, S.Run(c, es), e)
  {
    assert (es + [e])[..|es|] == es;
  }

  /** The server's idea of the link is the client's, until close(). */
  predicate Agree(w: World) { !w.u.s.closing ==> w.s.up == w.u.s.connected }

  /** So whatever the link tells the server is something the server can be told then. */
  lemma NotifiedInTurn(c: Setup, w: World, l: U.Event)
    requires Enabled(c, w, Link(l)) && U.MachineOk(w.u) && Agree(w)
    ensures Notified(c, w, l).Some? ==> S.Enabled(c.server, w.s, Notified(c, w, l).value)
    ensures Agree(Step(c, w, Link(l)))
  {}

  lemma OwnKeepsAgree(c: Setup, w: World, o: S.Event)
    requires Enabled(c, w, Own(o)) && Agree(w)
    ensures Agree(Step(c, w, Own(o)))
  {}

  /** Every run of the process is a run of the client and a run of the server: with the client
      in charge of the link, its notifications do alternate as the server's results need. */
  lemma {:induction false} BothSidesRun(c: Setup, es: seq<Event>)
    requires U.GoodSetup(c.link) && IsRun(c, es)
    ensures U.IsRun(c.link, LinkSide(es)) && Run(c, es).u == U.Run(c.link, LinkSide(es))
    ensures S.IsRun(c.server, ServerSide(c, es)) && Run(c, es).s == S.Run(c.server, ServerSide(c, es))
    ensures Agree(Run(c, es))
    decreases |es|
  {
    if es != [] {
      var before := es[..|es| - 1];
      var w := Run(c, before);
      BothSidesRun(c, before);
      U.EveryRunSafe(c.link, LinkSide(before));
      assert U.MachineOk(w.u);
      hide U.Step, U.Enabled, S.Step, S.Enabled, U.IsRun, U.Run, S.IsRun, S.Run, U.Safe, U.MachineOk, Agree, Notified;
      match es[|es| - 1] {
        case Link(l) =>
          NotifiedInTurn(c, w, l);
          U.RunSnoc(c.link, LinkSide(before), l);
          if Notified(c, w, l).Some? { ServerSnoc(c.server, ServerSide(c, before), Notified(c, w, l).value); }
        case Own(o) =>
          OwnKeepsAgree(c, w, o);
          ServerSnoc(c.server, ServerSide(c, before), o);
      }
    }
  }

  /** The safety of both sides, with nothing assumed about the order of notifications. */
  lemma ProcessSafe(c: Setup, es: seq<Event>)
    requires U.GoodSetup(c.link) && S.GoodSetup(c.server) && IsRun(c, es)
    ensures U.Safe(c.link, Run(c, es).u) && S.Safe(c.server, Run(c, es).s)
    ensures !Run(c, es).u.s.closing ==> Run(c, es).s.up == Run(c, es).u.s.connected
  {
    BothSidesRun(c, es);
    U.EveryRunSafe(c.link, LinkSide(es));
    S.EveryRunSafe(c.server, ServerSide(c, es));
    hide U.Safe, S.Safe, Run;
  }
}
