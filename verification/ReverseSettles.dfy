/**
  What a reverse connection comes to once its queues are empty: without drops each end knows the channel the
  other receives on, the dial has its verdict, and an end that has closed leaves no record behind.
*/
module ReverseSettles {
  import opened Link
  import opened Reverse

  // ---------------------------------------------------------------- what one message changes

  /** An adopted announcement is answered on the announced channel with the channel it came over. */
  lemma {:induction false} AdoptionIsAnswered(s: State, c: Channel, x: Channel, wrote: bool)
    requires s.srv.live && Waiting(s.up, c) && Head(s.up, c) == SelectUplink(x) && x in s.down
    ensures var t := ServerGets(s, c, wrote);
            if s.srv.sendCh == 0 || (s.srv.preset && !s.srv.repaired)
            then t.srv.sendCh == x && t.srv.recvCh == c && t.down[x] == s.down[x] + [SelectDownlink(c)]
            else t.srv == s.srv && t.down == s.down
  {
  }

  /** Data is taken from the receiving channel alone: by the server while it lives, by the client once its dial is done. */
  lemma {:induction false} DataIsTakenIff(srv: Server, cli: Client, c: Channel, m: Msg, hot: Option<Pair>, wrote: bool)
    ensures srv.Receive(c, m, wrote).accepted <==> srv.live && m.Data? && c == srv.recvCh && wrote
    ensures cli.Receive(c, m, hot, wrote).accepted <==> cli.present && m.Data? && c == cli.recvCh && cli.dialed && wrote
  {
  }

  /** A dial always has a verdict when its record goes. */
  lemma {:induction false} EndsWithVerdict(cfg: Config, acts: seq<Action>)
    ensures var s := Run(Init(cfg), acts); !s.srv.live ==> s.srv.verdict == Accepted || s.srv.verdict == Refused
  {
    VerdictStays(Init(cfg), acts);
  }

  lemma {:induction false} VerdictStays(s: State, acts: seq<Action>)
    requires s.srv.live || s.srv.verdict != Open
    ensures var t := Run(s, acts); t.srv.live || t.srv.verdict != Open
    decreases |acts|
  {
    if acts != [] {
      VerdictStep(s, acts[0]);
      VerdictStays(Apply(s, acts[0]), acts[1..]);
    }
  }

  lemma {:induction false} VerdictRead(srv: Server, c: Channel, m: Msg, wrote: bool)
    requires srv.live || srv.verdict != Open
    ensures var t := srv.Receive(c, m, wrote).next; t.live || t.verdict != Open
  {
  }

  lemma {:induction false} VerdictStep(s: State, a: Action)
    requires s.srv.live || s.srv.verdict != Open
    ensures var t := Apply(s, a); t.srv.live || t.srv.verdict != Open
  {
    match a
    case ToServer(c, wrote) => if Waiting(s.up, c) { VerdictRead(s.srv, c, Head(s.up, c), wrote); }
    case ToClient(c, hit, wrote) =>
    case _ =>
  }

  // ---------------------------------------------------------------- selection comes to an end

  /** What an end does not know is still on its way to it. */
  ghost predicate OnTheWay(s: State) {
    && (s.cli.present && s.srv.live && Adopted(s) && s.cli.sendCh == 0 ==>
          s.cli.recvCh in s.down && s.srv.recvCh > 0 && SelectDownlink(s.srv.recvCh) in s.down[s.cli.recvCh])
    && (s.cli.dialed && s.srv.live && s.srv.verdict == Open ==> Holds(s.up, Status(true)))
  }

  ghost predicate Settling(s: State) {
    Inv(s) && (s.lives == 1 && !s.lost ==> OnTheWay(s))
  }

  lemma {:induction false} AdoptionSettles(s: State, c: Channel, wrote: bool)
    requires Settling(s) && s.lives == 1 && !s.lost && Waiting(s.up, c) && Head(s.up, c).SelectUplink?
    ensures OnTheWay(ServerGets(s, c, wrote))
  {
    var t := ServerGets(s, c, wrote);
    assert s.up[c][0] == Head(s.up, c);
    PopHolds(s.up, c, Status(true));
    if s.srv.live && !Adopted(s) && s.cli.present {
      assert Head(s.up, c).ch == s.cli.recvCh;
      SentHolds(s.down, s.cli.recvCh, SelectDownlink(c), s.cli.recvCh);
    }
  }

  lemma {:induction false} OtherReadSettles(s: State, c: Channel, wrote: bool)
    requires Settling(s) && s.lives == 1 && !s.lost && Waiting(s.up, c) && !Head(s.up, c).SelectUplink?
    ensures OnTheWay(ServerGets(s, c, wrote))
  {
    var t := ServerGets(s, c, wrote);
    var m := Head(s.up, c);
    if m != Status(true) {
      PopHolds(s.up, c, Status(true));
    }
    if t.srv.live {
      assert t.down == s.down && t.cli == s.cli;
      assert t.srv == s.srv || (m.Status? && t.srv == s.srv.Settle(m.ok));
    }
  }

  lemma {:induction false} ServerReadSettles(s: State, c: Channel, wrote: bool)
    requires Settling(s) && Waiting(s.up, c)
    ensures Settling(ServerGets(s, c, wrote))
  {
    ServerGetsKeeps(s, c, wrote);
    if s.lives == 1 && !s.lost {
      if Head(s.up, c).SelectUplink? {
        AdoptionSettles(s, c, wrote);
      } else {
        OtherReadSettles(s, c, wrote);
      }
    }
  }

  lemma {:induction false} LaterReadFrame(s: State, c: Channel, hit: bool, wrote: bool)
    requires Waiting(s.down, c) && ClientGets(s, c, hit, wrote).lives == s.lives
    ensures var t := ClientGets(s, c, hit, wrote);
            && t.down == Pop(s.down, c) && t.srv == s.srv && (t.up == s.up || t.up == Send(s.up, s.cli.sendCh, Close))
            && (t.cli.present ==> s.cli.present) && t.cli.recvCh == s.cli.recvCh && t.cli.dialed == s.cli.dialed
            && (t.cli.sendCh == s.cli.sendCh || t.cli.sendCh != 0)
            && (s.cli.present && s.cli.sendCh == 0 && c == s.cli.recvCh && Head(s.down, c).SelectDownlink? ==> t.cli.sendCh != 0)
  {
  }

  lemma {:induction false} LaterReadSettles(s: State, c: Channel, hit: bool, wrote: bool)
    requires Settling(s) && s.lives == 1 && !s.lost && Waiting(s.down, c) && ClientGets(s, c, hit, wrote).lives == 1
    ensures OnTheWay(ClientGets(s, c, hit, wrote))
  {
    var t := ClientGets(s, c, hit, wrote);
    var m := Head(s.down, c);
    LaterReadFrame(s, c, hit, wrote);
    if t.up != s.up {
      SendGrows(s.up, s.cli.sendCh, Close);
      GrownHolds(s.up, t.up, Status(true));
    }
    if t.cli.present && t.srv.live && Adopted(t) && t.cli.sendCh == 0 {
      if m != SelectDownlink(s.srv.recvCh) {
        PopHolds(s.down, c, SelectDownlink(s.srv.recvCh));
      }
    }
  }

  lemma {:induction false} ClientReadSettles(s: State, c: Channel, hit: bool, wrote: bool)
    requires Settling(s) && Waiting(s.down, c)
    ensures Settling(ClientGets(s, c, hit, wrote))
  {
    ClientGetsKeeps(s, c, hit, wrote);
    var t := ClientGets(s, c, hit, wrote);
    if t.lives == 1 && !t.lost {
      if s.lives == 1 {
        LaterReadSettles(s, c, hit, wrote);
      } else {
        assert !Adopted(t) && !t.cli.dialed;
      }
    }
  }

  lemma {:induction false} ClientActGrows(s: State, a: Action)
    requires a.TargetDialed? || a.ClientReads? || a.ClientQuits?
    ensures Grown(s.up, Apply(s, a).up) && Apply(s, a).down == s.down
  {
    match a
    case TargetDialed(ok) => SendGrows(s.up, 0, Status(ok));
    case ClientReads(p) => SendGrows(s.up, s.cli.sendCh, Data(p));
    case ClientQuits => SendGrows(s.up, s.cli.sendCh, Close);
  }

  /** What an end does of its own accord adds to the queues. */
  lemma {:induction false} ActGrows(s: State, a: Action)
    requires a.TargetDialed? || a.ClientReads? || a.ClientQuits? || a.ServerWrites? || a.ServerQuits?
    ensures Grown(s.up, Apply(s, a).up) && Grown(s.down, Apply(s, a).down)
  {
    match a
    case ServerWrites(p) => SendGrows(s.down, s.srv.sendCh, Data(p));
    case ServerQuits => SendGrows(s.down, s.srv.sendCh, Close);
    case _ => ClientActGrows(s, a);
  }

  lemma {:induction false} ActFrame(s: State, a: Action)
    requires a.TargetDialed? || a.ClientReads? || a.ClientQuits? || a.ServerWrites? || a.ServerQuits?
    ensures var t := Apply(s, a);
            && t.cfg == s.cfg && t.lives == s.lives && t.lost == s.lost && t.asked == s.asked && (t.srv.live ==> t.srv == s.srv)
            && (t.srv.live ==> s.srv.live) && (t.cli.present ==> s.cli.present)
            && t.cli.sendCh == s.cli.sendCh && t.cli.recvCh == s.cli.recvCh
            && (t.cli.dialed && !s.cli.dialed ==> t.up == Broadcast(s.up, Status(true)))
  {
  }

  lemma {:induction false} ActSettles(s: State, a: Action)
    requires Settling(s)
    requires a.TargetDialed? || a.ClientReads? || a.ClientQuits? || a.ServerWrites? || a.ServerQuits?
    ensures Settling(Apply(s, a))
  {
    var t := Apply(s, a);
    StepKeeps(s, a);
    ActGrows(s, a);
    ActFrame(s, a);
    if t.lives == 1 && !t.lost {
      if t.srv.live && s.srv.recvCh > 0 { GrownHolds(s.down, t.down, SelectDownlink(s.srv.recvCh)); }
      if t.cli.dialed && !s.cli.dialed {
        SentHolds(s.up, 0, Status(true), s.cfg.pair.up);
      } else {
        GrownHolds(s.up, t.up, Status(true));
      }
    }
  }

  lemma {:induction false} StepSettles(s: State, a: Action)
    requires Settling(s)
    ensures Settling(Apply(s, a))
  {
    match a
    case ToClient(c, hit, wrote) => if Waiting(s.down, c) { ClientReadSettles(s, c, hit, wrote); }
    case ToServer(c, wrote) => if Waiting(s.up, c) { ServerReadSettles(s, c, wrote); }
    case LoseUp(_) => StepKeeps(s, a);
    case LoseDown(_) => StepKeeps(s, a);
    case _ => ActSettles(s, a);
  }

  lemma {:induction false} RunSettles(s: State, acts: seq<Action>)
    requires Settling(s)
    ensures Settling(Run(s, acts))
    decreases |acts|
  {
    if acts != [] {
      StepSettles(s, acts[0]);
      RunSettles(Apply(s, acts[0]), acts[1..]);
    }
  }

  /**
    Without drops and with one client record: when the queues are empty, two living ends send where the other
    receives, in both directions, and a dial that has succeeded has been accepted.
  */
  lemma {:induction false} QuietEndsAreSettled(cfg: Config, acts: seq<Action>)
    requires ValidConfig(cfg)
    requires var s := Run(Init(cfg), acts); s.lives == 1 && !s.lost && Quiet(s.up) && Quiet(s.down)
    ensures var s := Run(Init(cfg), acts);
            s.srv.live && s.cli.present ==>
              && s.srv.sendCh == s.cli.recvCh > 0
              && s.cli.sendCh == s.srv.recvCh > 0
              && (s.srv.verdict == Accepted <==> s.cli.dialed)
  {
    InitInv(cfg);
    RunSettles(Init(cfg), acts);
    KindIsKept(Init(cfg), acts);
    var s := Run(Init(cfg), acts);
    if s.srv.live && s.cli.present {
      assert OnTheWay(s) && Born(s);
      assert s.cfg.pair.up in s.up && s.up[s.cfg.pair.up] == [];
    }
  }

  // ---------------------------------------------------------------- closing comes to an end

  /** The client hangs up, or finds that its target takes no more data. */
  predicate Stops(s: State, a: Action) {
    match a
    case ClientQuits => s.cli.present
    case ToClient(c, _, wrote) =>
      !wrote && Waiting(s.down, c) && Head(s.down, c).Data? && s.cli.present && s.cli.dialed && s.cli.recvCh == c
    case _ => false
  }

  /** A living server has a close message coming. */
  ghost predicate Ending(s: State) {
    s.srv.live && !s.lost ==> Holds(s.up, Close)
  }

  lemma {:induction false} StepEnds(s: State, a: Action)
    requires Ending(s)
    ensures Ending(Apply(s, a))
  {
    match a
    case ToClient(c, hit, wrote) =>
      if Waiting(s.down, c) {
        SendGrows(s.up, 0, SelectUplink(c));
        SendGrows(s.up, s.cli.sendCh, Close);
        GrownHolds(s.up, Apply(s, a).up, Close);
      }
    case ToServer(c, wrote) =>
      if Waiting(s.up, c) && Head(s.up, c) != Close { PopHolds(s.up, c, Close); }
    case LoseUp(_) =>
    case LoseDown(_) =>
    case _ =>
      ActGrows(s, a);
      GrownHolds(s.up, Apply(s, a).up, Close);
  }

  lemma {:induction false} RunEnds(s: State, acts: seq<Action>)
    requires Ending(s)
    ensures Ending(Run(s, acts))
    decreases |acts|
  {
    if acts != [] {
      StepEnds(s, acts[0]);
      RunEnds(Apply(s, acts[0]), acts[1..]);
    }
  }

  /** Without drops, when a client record stops, the server's record is gone once the queues to it are empty. */
  lemma {:induction false} StopEndsTheServer(cfg: Config, before: seq<Action>, a: Action, after: seq<Action>)
    requires ValidConfig(cfg) && Run(Init(cfg), before).lives == 1 && Stops(Run(Init(cfg), before), a)
    ensures var t := Run(Apply(Run(Init(cfg), before), a), after); !t.lost && Quiet(t.up) ==> !t.srv.live
  {
    var s := Run(Init(cfg), before);
    InitInv(cfg);
    RunKeeps(Init(cfg), before);
    KindIsKept(Init(cfg), before);
    if s.srv.live && !s.lost {
      var c: Channel := if s.cli.sendCh == 0 then s.cfg.pair.up else s.cli.sendCh;
      assert c in s.up;
      SentHolds(s.up, s.cli.sendCh, Close, c);
    }
    RunEnds(Apply(s, a), after);
  }

  /** No success is reported before the failure. */
  predicate FailsFirst(q: seq<Msg>) {
    exists i :: 0 <= i < |q| && q[i] == Status(false) && Status(true) !in q[..i]
  }

  ghost predicate Refusing(s: State) {
    s.srv.live && !s.lost ==> s.srv.verdict == Open && forall c :: c in s.up ==> FailsFirst(s.up[c])
  }

  lemma {:induction false} GrownFails(q: seq<Msg>, r: seq<Msg>)
    requires FailsFirst(q) && q <= r
    ensures FailsFirst(r)
  {
    var i :| 0 <= i < |q| && q[i] == Status(false) && Status(true) !in q[..i];
    assert r[..i] == q[..i];
  }

  lemma {:induction false} PopFails(q: seq<Msg>)
    requires FailsFirst(q) && q[0] != Status(false)
    ensures FailsFirst(q[1..]) && q[0] != Status(true)
  {
    var i :| 0 <= i < |q| && q[i] == Status(false) && Status(true) !in q[..i];
    assert q[1..][i - 1] == Status(false);
    assert forall k :: 0 <= k < i - 1 ==> q[1..][k] == q[..i][k + 1];
    assert q[0] == q[..i][0];
  }

  lemma {:induction false} GrowthRefuses(s: State, t: State)
    requires Refusing(s) && Grown(s.up, t.up) && (t.srv.live ==> s.srv.live && t.srv.verdict == s.srv.verdict) && t.lost == s.lost
    ensures Refusing(t)
  {
    if t.srv.live && !t.lost {
      forall c | c in t.up ensures FailsFirst(t.up[c]) {
        GrownFails(s.up[c], t.up[c]);
      }
    }
  }

  lemma {:induction false} StepRefuses(s: State, a: Action)
    requires Refusing(s)
    ensures Refusing(Apply(s, a))
  {
    var t := Apply(s, a);
    match a
    case ToClient(c, hit, wrote) =>
      if Waiting(s.down, c) {
        SendGrows(s.up, 0, SelectUplink(c));
        SendGrows(s.up, s.cli.sendCh, Close);
        GrowthRefuses(s, t);
      }
    case ToServer(c, wrote) =>
      if Waiting(s.up, c) && s.srv.live && !s.lost && t.srv.live {
        PopFails(s.up[c]);
      }
    case LoseUp(_) =>
    case LoseDown(_) =>
    case _ =>
      ActGrows(s, a);
      ActFrame(s, a);
      GrowthRefuses(s, t);
  }

  lemma {:induction false} RunRefuses(s: State, acts: seq<Action>)
    requires Refusing(s)
    ensures Refusing(Run(s, acts))
    decreases |acts|
  {
    if acts != [] {
      StepRefuses(s, acts[0]);
      RunRefuses(Apply(s, acts[0]), acts[1..]);
    }
  }

  /** Without drops, when the first record's dial fails, the server's record is gone once the queues to it are empty. */
  lemma {:induction false} FailedDialIsRefused(cfg: Config, before: seq<Action>, after: seq<Action>)
    requires ValidConfig(cfg)
    requires var s := Run(Init(cfg), before); s.lives == 1 && s.cli.present && !s.cli.dialed
    ensures var t := Run(Apply(Run(Init(cfg), before), TargetDialed(false)), after);
            !t.lost && Quiet(t.up) ==> !t.srv.live
  {
    var s := Run(Init(cfg), before);
    InitInv(cfg);
    RunKeeps(Init(cfg), before);
    KindIsKept(Init(cfg), before);
    var t := Apply(s, TargetDialed(false));
    forall c | c in t.up ensures FailsFirst(t.up[c]) {
      assert t.up[c] == s.up[c] + [Status(false)];
      assert t.up[c][..|s.up[c]|] == s.up[c];
    }
    RunRefuses(t, after);
    StepKeeps(s, TargetDialed(false));
    RunKeeps(t, after);
    KindIsKept(t, after);
    assert cfg.pair.up in Run(t, after).up;
  }

  // ---------------------------------------------------------------- the server's end

  /** While there is no client record, the dial message is first on the channels it was sent on. */
  ghost predicate Offered(s: State) {
    s.lives == 0 && !s.lost ==>
      forall c :: c in s.down && (s.cfg.kind == PresetSent ==> c == s.cfg.pair.down) ==> Waiting(s.down, c) && Head(s.down, c) == Connect
  }

  /** A client record has a close message coming; one that is still to be built has it behind a dial message. */
  ghost predicate Leaving(s: State) {
    s.lives <= 1 && !s.lost ==>
      && (s.cli.present ==> Holds(s.down, Close))
      && (s.lives == 0 ==> exists c :: Waiting(s.down, c) && Head(s.down, c) == Connect && Close in s.down[c])
  }

  lemma {:induction false} StepOffers(s: State, a: Action)
    requires Inv(s) && Offered(s)
    ensures Offered(Apply(s, a))
  {
    match a
    case ToClient(c, hit, wrote) => if Waiting(s.down, c) { assert s.down[c][0] == Head(s.down, c); }
    case ToServer(c, wrote) => if Waiting(s.up, c) { assert s.up[c] != []; }
    case LoseUp(_) =>
    case LoseDown(_) =>
    case _ =>
      ActGrows(s, a);
      ActFrame(s, a);
      GrowthOffers(s, Apply(s, a));
  }

  lemma {:induction false} GrowthOffers(s: State, t: State)
    requires Offered(s) && Grown(s.down, t.down) && t.lives == s.lives && t.lost == s.lost && t.cfg == s.cfg
    ensures Offered(t)
  {
    forall c | c in t.down && Waiting(s.down, c) ensures Waiting(t.down, c) && Head(t.down, c) == Head(s.down, c) {
      assert s.down[c] <= t.down[c];
    }
  }

  lemma {:induction false} RunOffers(s: State, acts: seq<Action>)
    requires Inv(s) && Offered(s)
    ensures Offered(Run(s, acts))
    decreases |acts|
  {
    if acts != [] {
      StepKeeps(s, acts[0]);
      StepOffers(s, acts[0]);
      RunOffers(Apply(s, acts[0]), acts[1..]);
    }
  }

  lemma {:induction false} GrowthLeaves(s: State, t: State)
    requires Leaving(s) && Grown(s.down, t.down) && (t.cli.present ==> s.cli.present) && t.lives == s.lives && t.lost == s.lost
    ensures Leaving(t)
  {
    GrownHolds(s.down, t.down, Close);
    if s.lives == 0 && !s.lost {
      var c :| Waiting(s.down, c) && Head(s.down, c) == Connect && Close in s.down[c];
      assert s.down[c] <= t.down[c];
      assert Waiting(t.down, c) && Head(t.down, c) == Connect && Close in t.down[c];
    }
  }

  lemma {:induction false} ClientReadLeaves(s: State, c: Channel, hit: bool, wrote: bool)
    requires Leaving(s) && Waiting(s.down, c) && (s.lives == 0 ==> !s.cli.present)
    ensures Leaving(ClientGets(s, c, hit, wrote))
  {
    var t := ClientGets(s, c, hit, wrote);
    var m := Head(s.down, c);
    if m != Close {
      PopHolds(s.down, c, Close);
    }
    if s.lives == 0 && !s.lost {
      var x :| Waiting(s.down, x) && Head(s.down, x) == Connect && Close in s.down[x];
      if t.lives == 0 {
        assert x != c;
        assert Waiting(t.down, x) && Head(t.down, x) == Connect && Close in t.down[x];
      } else {
        assert Holds(s.down, Close);
      }
    }
  }

  lemma {:induction false} StepLeaves(s: State, a: Action)
    requires Inv(s) && Leaving(s)
    ensures Leaving(Apply(s, a))
  {
    var t := Apply(s, a);
    match a
    case ToClient(c, hit, wrote) => if Waiting(s.down, c) { ClientReadLeaves(s, c, hit, wrote); }
    case ToServer(c, wrote) =>
      if Waiting(s.up, c) {
        var out := s.srv.Receive(c, Head(s.up, c), wrote);
        SendGrows(s.down, out.next.sendCh, SelectDownlink(c));
        SendGrows(s.down, s.srv.sendCh, Close);
        GrowthLeaves(s, t);
      }
    case LoseUp(_) =>
    case LoseDown(_) =>
    case _ =>
      ActGrows(s, a);
      ActFrame(s, a);
      GrowthLeaves(s, t);
  }

  lemma {:induction false} RunLeaves(s: State, acts: seq<Action>)
    requires Inv(s) && Leaving(s)
    ensures Leaving(Run(s, acts))
    decreases |acts|
  {
    if acts != [] {
      StepKeeps(s, acts[0]);
      StepLeaves(s, acts[0]);
      RunLeaves(Apply(s, acts[0]), acts[1..]);
    }
  }

  /**
    When a living server hangs up, whether or not a client record exists yet, then without drops and with one
    record at most no client record is left once the queues to it are empty.
  */
  lemma {:induction false} ServerQuitEndsTheClient(cfg: Config, before: seq<Action>, after: seq<Action>)
    requires ValidConfig(cfg) && Run(Init(cfg), before).srv.live
    ensures var t := Run(Apply(Run(Init(cfg), before), ServerQuits), after);
            t.lives <= 1 && !t.lost && Quiet(t.down) ==> !t.cli.present
  {
    var s := Run(Init(cfg), before);
    InitInv(cfg);
    RunKeeps(Init(cfg), before);
    RunOffers(Init(cfg), before);
    KindIsKept(Init(cfg), before);
    QuitLeaves(s);
    StepKeeps(s, ServerQuits);
    RunLeaves(Apply(s, ServerQuits), after);
  }

  lemma {:induction false} QuitLeaves(s: State)
    requires Inv(s) && Offered(s) && s.srv.live
    ensures Leaving(Apply(s, ServerQuits))
  {
    if s.lives <= 1 && !s.lost {
      var c: Channel := if s.srv.sendCh == 0 || s.lives == 0 then s.cfg.pair.down else s.srv.sendCh;
      if c in s.down {
        SentHolds(s.down, s.srv.sendCh, Close, c);
        SendGrows(s.down, s.srv.sendCh, Close);
      }
    }
  }
}
