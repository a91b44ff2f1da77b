/**
  What a forward connection comes to once its queues are empty: without drops the channels that one end chose
  are known to the other, and an end that has closed leaves no record behind.
*/
module ForwardSettles {
  import opened Link
  import opened Forward

  // ---------------------------------------------------------------- what one message changes

  /** The first choice of a downlink on an announcement is reported over the announced uplink, whatever chose it. */
  lemma {:induction false} AnnouncementIsAnswered(cli: Client, c: Channel, u: Channel, wrote: bool)
    requires cli.downlink == 0
    ensures var out := cli.Receive(c, SelectUplink(u), wrote);
            && (out.next.downlink == 0 ==> out.reply == None)
            && (out.next.downlink > 0 ==> out.reply == Some(Letter(u, SelectDownlink(out.next.downlink))))
            && (out.next.downlink > 0 && cli.pair == None ==> out.next.downlink == c)
            && (out.next.downlink == 0 <==> !cli.registered || cli.target == "" || (cli.pair == None && cli.NoteUplink(u).GivesWay(c)))
  {
  }

  /** What ends the client's registration, and what it notes as its uplink on the way. */
  lemma {:induction false} UnregisteredIff(cli: Client, c: Channel, m: Msg, wrote: bool)
    requires cli.registered && cli.downlink > 0
    ensures var out := cli.Receive(c, m, wrote);
            && (!out.next.registered <==> m == Close || m == Status(false) || (m.Data? && c == cli.downlink && (cli.bare || !wrote)))
            && (!out.next.registered && m.Data? ==> out.reply == Some(Letter(c, Close)))
            && (out.next.uplink != cli.uplink <==> cli.uplink == 0 && (m.SelectUplink? || m.Close?))
  {
  }

  /** Once the channels are chosen, data is taken from the chosen channel alone. */
  lemma {:induction false} DataIsTakenIff(srv: Server, cli: Client, c: Channel, m: Msg, hot: Option<Pair>, alive: bool, room: bool, wrote: bool)
    ensures srv.Receive(c, m, hot, alive, room).accepted <==> srv.live && m.Data? && c == srv.uplink && room
    ensures cli.downlink > 0 ==>
              (cli.Receive(c, m, wrote).accepted <==> cli.registered && m.Data? && c == cli.downlink && !cli.bare && wrote)
  {
  }

  // ---------------------------------------------------------------- selection comes to an end

  predicate Alive(a: Action) {
    a.ToServer? ==> a.alive
  }

  predicate Announces(m: Msg, u: nat) {
    m.SelectUplink? && m.ch == u
  }

  /** The announcement is the next message on the channel. */
  predicate Awaits(s: State, c: Channel) {
    Waiting(s.down, c) && Announces(Head(s.down, c), s.srv.uplink)
  }

  /** The client would not choose the channel even then. */
  predicate Passes(s: State, c: nat) {
    s.cli.pair == None && s.cli.target == PREBIND_TARGET && c == s.srv.uplink
  }

  predicate Reports(m: Msg, d: nat) {
    m.SelectDownlink? && m.ch == d
  }

  predicate Reported(s: State) {
    s.srv.uplink in s.up && exists i :: 0 <= i < |s.up[s.srv.uplink]| && Reports(s.up[s.srv.uplink][i], s.cli.downlink)
  }

  /** What either end does not know is still on its way to it. */
  ghost predicate OnTheWay(s: State) {
    && (s.cli.uplink == 0 ==> forall c :: c in s.down ==> Awaits(s, c))
    && (s.cli.downlink == 0 && s.cli.target != "" ==> forall c :: c in s.down && !Passes(s, c) ==> Awaits(s, c))
    && (s.cli.downlink != 0 && s.srv.live && s.srv.downlink == 0 ==> Reported(s))
    && (s.cli.downlink != 0 ==> !Passes(s, s.cli.downlink))
    && (s.cli.bare && s.cli.downlink != 0 ==> s.srv.uplink > 0 && s.results == [Pair(s.srv.uplink, s.cli.downlink)])
  }

  ghost predicate Settling(s: State) {
    && Inv(s)
    && (s.cli.target == "" ==> s.cli.downlink == 0)
    && (s.lives == 1 && !s.lost && s.cli.registered && s.offers != [] ==> OnTheWay(s))
  }

  lemma {:induction false} AnnouncementSettles(s: State, c: Channel, wrote: bool)
    requires Inv(s) && s.lives == 1 && !s.lost && s.cli.registered && s.offers != [] && OnTheWay(s)
    requires Waiting(s.down, c) && Head(s.down, c).SelectUplink?
    ensures OnTheWay(ClientGets(s, c, wrote))
  {
    var t := ClientGets(s, c, wrote);
    var u := Head(s.down, c).ch;
    assert s.down[c][0] == SelectUplink(u);
    assert u == s.srv.uplink && t.cli.uplink == u;
    if s.cli.downlink == 0 {
      AnnouncementIsAnswered(s.cli, c, u, wrote);
      if t.cli.downlink != 0 && s.srv.live {
        assert t.up[u][|s.up[u]|] == SelectDownlink(t.cli.downlink);
      }
    } else {
      assert t.up == s.up && t.results == s.results && t.cli.downlink == s.cli.downlink;
    }
  }

  /** Nothing else is first on a channel that still waits for the announcement. */
  lemma {:induction false} OtherReadSettles(s: State, c: Channel, wrote: bool)
    requires Inv(s) && s.lives == 1 && !s.lost && s.cli.registered && s.offers != [] && OnTheWay(s)
    requires Waiting(s.down, c) && !Head(s.down, c).SelectUplink? && ClientGets(s, c, wrote).cli.registered
    ensures OnTheWay(ClientGets(s, c, wrote))
  {
    var t := ClientGets(s, c, wrote);
    assert s.down[c] != [];
    assert t.cli == s.cli;
  }

  lemma {:induction false} ClientReadSettles(s: State, c: Channel, wrote: bool)
    requires Settling(s) && Waiting(s.down, c)
    ensures Settling(ClientGets(s, c, wrote))
  {
    var t := ClientGets(s, c, wrote);
    ClientGetsKeeps(s, c, wrote);
    ReceiveFrame(s.cli, c, Head(s.down, c), wrote);
    if t.lives == 1 && !t.lost && t.cli.registered && t.offers != [] {
      if Head(s.down, c).SelectUplink? {
        AnnouncementSettles(s, c, wrote);
      } else {
        OtherReadSettles(s, c, wrote);
      }
    }
  }

  lemma {:induction false} LaterReadSettles(s: State, c: Channel, hit: bool, room: bool)
    requires Inv(s) && s.lives == 1 && !s.lost && s.cli.registered && s.offers != [] && OnTheWay(s)
    requires Waiting(s.up, c) && ServerGets(s, c, hit, true, room).lives == 1
    ensures OnTheWay(ServerGets(s, c, hit, true, room))
  {
    var t := ServerGets(s, c, hit, true, room);
    var m := Head(s.up, c);
    assert s.up[c][0] == m;
    assert t.down == s.down && t.cli == s.cli && t.srv.uplink == s.srv.uplink;
    if t.cli.downlink != 0 && t.srv.live && t.srv.downlink == 0 {
      var i :| 0 <= i < |s.up[s.srv.uplink]| && Reports(s.up[s.srv.uplink][i], s.cli.downlink);
      if c == s.srv.uplink {
        assert i > 0;
        assert t.up[c][i - 1] == s.up[c][i];
      }
    }
  }

  lemma {:induction false} BirthAnnounces(s: State, c: Channel, hit: bool, room: bool)
    requires Inv(s) && s.lives == 0 && Waiting(s.up, c) && ServerGets(s, c, hit, true, room).offers != []
    ensures var t := ServerGets(s, c, hit, true, room);
            && t.cli == s.cli && t.srv.uplink == c && t.cli.downlink == 0
            && forall x :: x in t.down ==> t.down[x] == [SelectUplink(c)]
  {
    assert Head(s.up, c) == Connect;
    BirthKeepsSelection(s, c, hit, true, room);
  }

  lemma {:induction false} BirthSettles(s: State, c: Channel, hit: bool, room: bool)
    requires Inv(s) && s.lives == 0 && !s.lost && Waiting(s.up, c) && ServerGets(s, c, hit, true, room).offers != []
    ensures OnTheWay(ServerGets(s, c, hit, true, room))
  {
    BirthAnnounces(s, c, hit, room);
    var t := ServerGets(s, c, hit, true, room);
    forall x | x in t.down ensures Awaits(t, x) {
      assert t.down[x] == [SelectUplink(c)];
    }
  }

  lemma {:induction false} ServerReadSettles(s: State, c: Channel, hit: bool, room: bool)
    requires Settling(s) && Waiting(s.up, c)
    ensures Settling(ServerGets(s, c, hit, true, room))
  {
    var t := ServerGets(s, c, hit, true, room);
    ServerGetsKeeps(s, c, hit, true, room);
    if t.lives == 1 && !t.lost && t.cli.registered && t.offers != [] {
      if s.lives == 0 {
        BirthSettles(s, c, hit, room);
      } else {
        LaterReadSettles(s, c, hit, room);
      }
    }
  }

  lemma {:induction false} ReportedStays(s: State, t: State)
    requires Grown(s.up, t.up) && t.cli == s.cli && t.srv.uplink == s.srv.uplink && Reported(s)
    ensures Reported(t)
  {
    var u := s.srv.uplink;
    assert s.up[u] <= t.up[u];
    var i :| 0 <= i < |s.up[u]| && Reports(s.up[u][i], s.cli.downlink);
    assert t.up[u][i] == s.up[u][i];
  }

  /** Whatever is sent stands behind what is on its way. */
  lemma {:induction false} GrowthSettles(s: State, t: State)
    requires OnTheWay(s) && t.cli == s.cli && t.results == s.results && Grown(s.up, t.up) && Grown(s.down, t.down)
    requires t.srv.uplink == s.srv.uplink && t.srv.downlink == s.srv.downlink && (t.srv.live ==> s.srv.live)
    ensures OnTheWay(t)
  {
    forall c | c in t.down && Awaits(s, c) ensures Awaits(t, c) {
      assert s.down[c] <= t.down[c];
    }
    if Reported(s) {
      ReportedStays(s, t);
    }
  }

  lemma {:induction false} StepGrows(s: State, a: Action)
    requires !a.ToServer? && !a.ToClient? && !a.LoseUp? && !a.LoseDown?
    ensures Grown(s.up, Apply(s, a).up) && Grown(s.down, Apply(s, a).down)
  {
    var chosen := if s.cli.registered then s.cli.uplink else 0;
    match a
    case Write(p) => SendGrows(s.up, chosen, Data(p));
    case CloseWrite => SendGrows(s.up, chosen, Close);
    case ClientClose => SendGrows(s.up, chosen, Close);
    case TargetDialed(ok) =>
      SendGrows(s.down, s.srv.downlink, Status(ok));
      var sent := Send(s.down, s.srv.downlink, Status(ok));
      SendGrows(sent, s.srv.downlink, Close);
      GrownTwice(s.down, sent, Send(sent, s.srv.downlink, Close));
    case Forwarded(p) => SendGrows(s.down, s.srv.downlink, Data(p));
    case _ =>
  }

  lemma {:induction false} StepFrame(s: State, a: Action)
    requires !a.ToServer? && !a.ToClient? && !a.LoseUp? && !a.LoseDown?
    ensures var t := Apply(s, a);
            && t.results == s.results && t.offers == s.offers && t.lives == s.lives && t.lost == s.lost
            && (t.cli.registered ==> t.cli == s.cli) && t.cli.target == s.cli.target && t.cli.downlink == s.cli.downlink
            && t.srv.uplink == s.srv.uplink && t.srv.downlink == s.srv.downlink && (t.srv.live ==> s.srv.live)
  {
  }

  lemma {:induction false} OtherStepSettles(s: State, a: Action)
    requires Settling(s) && !a.ToServer? && !a.ToClient?
    ensures Settling(Apply(s, a))
  {
    var t := Apply(s, a);
    StepKeeps(s, a);
    if !a.LoseUp? && !a.LoseDown? {
      StepGrows(s, a);
      StepFrame(s, a);
      if t.lives == 1 && !t.lost && t.cli.registered && t.offers != [] {
        GrowthSettles(s, t);
      }
    }
  }

  lemma {:induction false} StepSettles(s: State, a: Action)
    requires Settling(s) && Alive(a)
    ensures Settling(Apply(s, a))
  {
    match a
    case ToServer(c, hit, _, room) => if Waiting(s.up, c) { ServerReadSettles(s, c, hit, room); }
    case ToClient(c, wrote) => if Waiting(s.down, c) { ClientReadSettles(s, c, wrote); }
    case _ => OtherStepSettles(s, a);
  }

  lemma {:induction false} RunSettles(s: State, acts: seq<Action>)
    requires Settling(s) && forall i :: 0 <= i < |acts| ==> Alive(acts[i])
    ensures Settling(Run(s, acts))
    decreases |acts|
  {
    if acts != [] {
      StepSettles(s, acts[0]);
      RunSettles(Apply(s, acts[0]), acts[1..]);
    }
  }

  /**
    Without drops, with one record and with chosen downlinks still open: when the queues are empty, an announced
    record and a registered client know the same channels, both of them. A client without a target chooses no
    downlink, and a race none on a single channel; any other has chosen one. A race has then reported its pair.
  */
  lemma {:induction false} QuietEndsAreSettled(cfg: Config, acts: seq<Action>)
    requires ValidConfig(cfg) && forall i :: 0 <= i < |acts| ==> Alive(acts[i])
    requires var s := Run(Init(cfg), acts); s.lives == 1 && !s.lost && Quiet(s.up) && Quiet(s.down)
    ensures var s := Run(Init(cfg), acts);
            s.cli.registered && s.srv.live && s.offers != [] ==>
              && s.cli.uplink == s.srv.uplink > 0
              && s.cli.downlink == s.srv.downlink
              && (s.cli.downlink == 0 <==> s.cli.target == "" || (s.cli.pair == None && s.cli.target == PREBIND_TARGET && cfg.channels == {s.srv.uplink}))
              && (cfg.kind == Prebind && s.cli.downlink > 0 ==> s.results == [Pair(s.srv.uplink, s.cli.downlink)])
  {
    InitInv(cfg);
    RunSettles(Init(cfg), acts);
    KindIsKept(Init(cfg), acts);
    var s := Run(Init(cfg), acts);
    if s.cli.registered && s.srv.live && s.offers != [] {
      assert OnTheWay(s);
      assert s.cfg.pair.up in s.down && s.down[s.cfg.pair.up] == [];
      if s.cli.downlink == 0 && s.cli.target != "" {
        assert forall c :: c in s.down ==> Passes(s, c);
        assert cfg.channels == {s.srv.uplink};
      }
    }
  }

  lemma {:induction false} KindIsKept(s: State, acts: seq<Action>)
    ensures Run(s, acts).cfg == s.cfg
    decreases |acts|
  {
    if acts != [] {
      KindIsKept(Apply(s, acts[0]), acts[1..]);
    }
  }

  // ---------------------------------------------------------------- closing comes to an end

  /** A living record has a close message coming; one that is still to be built has it behind every opening message. */
  ghost predicate Ending(s: State) {
    s.lives <= 1 && !s.lost ==>
      && (s.srv.live ==> Holds(s.up, Close))
      && (s.lives == 0 ==> forall c :: Opened(s, c) ==> Close in s.up[c])
  }

  lemma {:induction false} ServerReadEnds(s: State, c: Channel, hit: bool, alive: bool, room: bool)
    requires Inv(s) && Ending(s) && Waiting(s.up, c)
    ensures Ending(ServerGets(s, c, hit, alive, room))
  {
    var t := ServerGets(s, c, hit, alive, room);
    var m := Head(s.up, c);
    assert s.up[c][0] == m;
    if t.lives <= 1 && !t.lost {
      if m != Close {
        PopHolds(s.up, c, Close);
      }
      if s.lives == 0 && m == Connect {
        assert Opened(s, c) && Close in t.up[c];
      } else if s.lives == 0 {
        assert !Opened(s, c);
      }
    }
  }

  lemma {:induction false} ClientReadEnds(s: State, c: Channel, wrote: bool)
    requires Ending(s) && Waiting(s.down, c)
    ensures Ending(ClientGets(s, c, wrote))
  {
    var t := ClientGets(s, c, wrote);
    var out := s.cli.Receive(c, Head(s.down, c), wrote);
    if out.reply.Some? {
      PostGrows(s.up, out.reply.value.ch, out.reply.value.msg);
    }
    assert Grown(s.up, t.up);
    GrownHolds(s.up, t.up, Close);
  }

  lemma {:induction false} StepEnds(s: State, a: Action)
    requires Inv(s) && Ending(s)
    ensures Ending(Apply(s, a))
  {
    match a
    case ToServer(c, hit, alive, room) => if Waiting(s.up, c) { ServerReadEnds(s, c, hit, alive, room); }
    case ToClient(c, wrote) => if Waiting(s.down, c) { ClientReadEnds(s, c, wrote); }
    case LoseUp(_) =>
    case LoseDown(_) =>
    case _ =>
      StepGrows(s, a);
      StepFrame(s, a);
      GrownHolds(s.up, Apply(s, a).up, Close);
  }

  lemma {:induction false} RunEnds(s: State, acts: seq<Action>)
    requires Inv(s) && Ending(s)
    ensures Ending(Run(s, acts))
    decreases |acts|
  {
    if acts != [] {
      StepKeeps(s, acts[0]);
      StepEnds(s, acts[0]);
      RunEnds(Apply(s, acts[0]), acts[1..]);
    }
  }

  /** The client hangs up, stops writing, or finds that its application takes no more data. */
  predicate Stops(s: State, a: Action) {
    match a
    case ClientClose => true
    case CloseWrite => true
    case ToClient(c, wrote) =>
      !wrote && Waiting(s.down, c) && Head(s.down, c).Data? && s.cli.registered && s.cli.downlink == c
    case _ => false
  }

  lemma {:induction false} StopSends(s: State, a: Action)
    requires Inv(s) && Stops(s, a)
    ensures Ending(Apply(s, a))
  {
    var t := Apply(s, a);
    if s.lives <= 1 && !s.lost {
      if a.ToClient? {
        assert s.down[a.ch] != [];
        assert t.up == Post(s.up, a.ch, Close) && a.ch in s.up;
        assert t.up[a.ch][|s.up[a.ch]|] == Close;
      } else {
        var chosen := if s.cli.registered then s.cli.uplink else 0;
        forall c | c in s.up && UnsetOr(chosen, c) ensures Close in t.up[c] {
          SendAt(s.up, chosen, Close, c);
          assert t.up[c][|s.up[c]|] == Close;
        }
        assert s.srv.live ==> UnsetOr(chosen, s.srv.uplink) && s.srv.uplink in s.up;
      }
    }
  }

  /**
    When the client hangs up, half-closes or cannot pass data on, then without drops and with one record at most
    no record is left once the queues to the server are empty.
  */
  lemma {:induction false} StopEndsTheRecord(cfg: Config, before: seq<Action>, a: Action, after: seq<Action>)
    requires ValidConfig(cfg) && Stops(Run(Init(cfg), before), a)
    ensures var t := Run(Apply(Run(Init(cfg), before), a), after);
            t.lives <= 1 && !t.lost && Quiet(t.up) ==> !t.srv.live
  {
    var s := Run(Init(cfg), before);
    InitInv(cfg);
    RunKeeps(Init(cfg), before);
    StopSends(s, a);
    StepKeeps(s, a);
    RunEnds(Apply(s, a), after);
  }

  /** The client has a close message coming. */
  ghost predicate Leaving(s: State) {
    s.cli.registered && !s.lost ==> Holds(s.down, Close)
  }

  lemma {:induction false} StepLeaves(s: State, a: Action)
    requires Leaving(s)
    ensures Leaving(Apply(s, a))
  {
    match a
    case ToServer(c, hit, alive, room) =>
      if Waiting(s.up, c) {
        SendGrows(s.down, 0, SelectUplink(c));
        GrownHolds(s.down, Broadcast(s.down, SelectUplink(c)), Close);
      }
    case ToClient(c, wrote) =>
      if Waiting(s.down, c) {
        ReceiveFrame(s.cli, c, Head(s.down, c), wrote);
        if Head(s.down, c) != Close { PopHolds(s.down, c, Close); }
      }
    case LoseUp(_) =>
    case LoseDown(_) =>
    case _ =>
      StepGrows(s, a);
      StepFrame(s, a);
      GrownHolds(s.down, Apply(s, a).down, Close);
  }

  lemma {:induction false} RunLeaves(s: State, acts: seq<Action>)
    requires Leaving(s)
    ensures Leaving(Run(s, acts))
    decreases |acts|
  {
    if acts != [] {
      StepLeaves(s, acts[0]);
      RunLeaves(Apply(s, acts[0]), acts[1..]);
    }
  }

  /**
    When the server cannot reach the target, then without drops the client is not registered any more once the
    queues to it are empty.
  */
  lemma {:induction false} FailedDialEndsTheClient(cfg: Config, before: seq<Action>, after: seq<Action>)
    requires ValidConfig(cfg) && cfg.kind != Prebind
    requires var s := Run(Init(cfg), before); s.lives == 1 && s.srv.live && !s.srv.serving
    ensures var t := Run(Apply(Run(Init(cfg), before), TargetDialed(false)), after);
            !t.lost && Quiet(t.down) ==> !t.cli.registered
  {
    var s := Run(Init(cfg), before);
    InitInv(cfg);
    RunKeeps(Init(cfg), before);
    KindIsKept(Init(cfg), before);
    var t := Apply(s, TargetDialed(false));
    if s.cli.registered && !s.lost {
      var c: Channel := if s.srv.downlink == 0 then s.cfg.pair.up else s.srv.downlink;
      assert c in s.down && UnsetOr(s.srv.downlink, c);
      var told := Send(s.down, s.srv.downlink, Status(false));
      SendAt(told, s.srv.downlink, Close, c);
      assert t.down[c][|told[c]|] == Close;
    }
    RunLeaves(t, after);
  }
}
