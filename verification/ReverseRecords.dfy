/**
  Reverse selection when the client's record comes and goes any number of times, one per copy of the dial
  message: when the ends stay in agreement, and when the streams stay in order.
*/
module ReverseRecords {
  import opened Link
  import opened Reverse

  // ---------------------------------------------------------------- agreement

  /** The steps that set agreeing ends apart, whatever records came before: all three write a channel. */
  predicate Splits(s: State, a: Action) {
    s.srv.live &&
    match a
    case ToClient(c, hit, _) =>
      Waiting(s.down, c) &&
      (match Head(s.down, c)
       // a client record is born: the server may have chosen for an earlier one
       case Connect =>
         !s.cli.present &&
         (!UnsetOr(s.srv.sendCh, c) ||
          (hit && s.cfg.kind != Classic && s.cfg.pair.down == c && s.cfg.pair.up != s.srv.recvCh))
       case SelectDownlink(x) => s.cli.present && s.cli.recvCh == c && s.cli.sendCh == 0 && x != s.srv.recvCh
       case _ => false)
    case ToServer(c, _) =>
      Waiting(s.up, c) && s.cli.present && !Chosen(s.srv) &&
      (match Head(s.up, c)
       case SelectUplink(x) => x != s.cli.recvCh || !UnsetOr(s.cli.sendCh, c)
       case _ => false)
    case _ => false
  }

  lemma {:induction false} StepAgreesIff(s: State, a: Action)
    requires Agreement(s)
    ensures Agreement(Apply(s, a)) <==> !Splits(s, a)
  {
    match a
    case ToClient(c, hit, wrote) => if Waiting(s.down, c) { ReadAgreesIff(s, c, hit, wrote); }
    case ToServer(c, wrote) => if Waiting(s.up, c) { AdoptAgreesIff(s, c, wrote); }
    case _ =>
  }

  lemma {:induction false} ReadAgreesIff(s: State, c: Channel, hit: bool, wrote: bool)
    requires Agreement(s) && Waiting(s.down, c)
    ensures Agreement(ClientGets(s, c, hit, wrote)) <==> !Splits(s, ToClient(c, hit, wrote))
  {
  }

  lemma {:induction false} AdoptAgreesIff(s: State, c: Channel, wrote: bool)
    requires Agreement(s) && Waiting(s.up, c)
    ensures Agreement(ServerGets(s, c, wrote)) <==> !Splits(s, ToServer(c, wrote))
  {
  }

  /** Every state of the run from here on agrees. */
  ghost predicate AgreesThroughout(s: State, acts: seq<Action>)
    decreases |acts|
  {
    Agreement(s) && (acts == [] || AgreesThroughout(Apply(s, acts[0]), acts[1..]))
  }

  ghost predicate NeverSplits(s: State, acts: seq<Action>)
    decreases |acts|
  {
    acts == [] || (!Splits(s, acts[0]) && NeverSplits(Apply(s, acts[0]), acts[1..]))
  }

  lemma {:induction false} ThroughoutIff(s: State, acts: seq<Action>)
    requires Agreement(s)
    ensures AgreesThroughout(s, acts) <==> NeverSplits(s, acts)
    decreases |acts|
  {
    if acts != [] {
      StepAgreesIff(s, acts[0]);
      if !Splits(s, acts[0]) {
        ThroughoutIff(Apply(s, acts[0]), acts[1..]);
      }
    }
  }

  /**
    For every run, with any number of client records and any drops: the ends agree all the way exactly when no
    step of it is one of those.
  */
  lemma {:induction false} EndsAgreeThroughoutIff(cfg: Config, acts: seq<Action>)
    ensures AgreesThroughout(Init(cfg), acts) <==> NeverSplits(Init(cfg), acts)
  {
    ThroughoutIff(Init(cfg), acts);
  }

  const TwoCopies := Config(Classic, {1, 2}, Pair(1, 2))

  /** A classic dial that both ends have settled on channel 1, while a copy of the opening waits on channel 2. */
  lemma {:induction false} SettledOnOne() returns (s: State)
    ensures Reaches(TwoCopies, s) && !s.lost && s.lives == 1 && s.cfg == TwoCopies
    ensures s.srv == Server(true, 1, 1, false, false, Open) && s.cli.present && !s.cli.dialed
    ensures 2 in s.down && s.down[2] == [Connect] && 1 in s.up && s.up[1] == []
  {
    var s0 := Init(TwoCopies);
    assert Run(s0, []) == s0;
    assert 1 in s0.down && s0.down[1] == [Connect] && 2 in s0.down && s0.down[2] == [Connect];
    var s1 := Apply(s0, ToClient(1, false, true));
    ReachesNext(TwoCopies, s0, ToClient(1, false, true));
    assert 1 in s1.up && s1.up[1] == [SelectUplink(1)] && s1.down[2] == [Connect];
    s := Apply(s1, ToServer(1, true));
    ReachesNext(TwoCopies, s1, ToServer(1, true));
  }

  /** Accepted, and then the client record goes. */
  lemma {:induction false} AcceptedAndGone() returns (s: State)
    ensures Reaches(TwoCopies, s) && !s.lost && s.lives == 1 && s.cfg == TwoCopies
    ensures s.srv == Server(true, 1, 1, false, false, Accepted) && !s.cli.present
    ensures 2 in s.down && s.down[2] == [Connect]
  {
    var s2 := SettledOnOne();
    var s3 := Apply(s2, TargetDialed(true));
    ReachesNext(TwoCopies, s2, TargetDialed(true));
    assert s3.up[1] == [Status(true)] && s3.down[2] == [Connect];
    var s4 := Apply(s3, ToServer(1, true));
    ReachesNext(TwoCopies, s3, ToServer(1, true));
    s := Apply(s4, ClientQuits);
    ReachesNext(TwoCopies, s4, ClientQuits);
  }

  /** The late copy builds a second client record on another channel, after the dial was accepted. */
  lemma {:induction false} SecondClientRecordDisagrees()
    ensures exists s :: Reaches(TwoCopies, s) && !s.lost && s.lives == 2 && s.srv.verdict == Accepted && !Agreement(s)
  {
    var s := AcceptedAndGone();
    ReachesNext(TwoCopies, s, ToClient(2, false, true));
    assert !Agreement(Apply(s, ToClient(2, false, true)));
  }

  // ---------------------------------------------------------------- streams

  /** The first client record has come and gone. */
  ghost predicate Gone(s: State) {
    s.lives > 1 || (s.lives == 1 && !s.cli.present)
  }

  /** The server has adopted a later record's announcement in place of the pair that the first record took. */
  ghost predicate Crossed(s: State) {
    s.hot && s.srv.repaired
  }

  /** A copy of the dial message is the first on its channel, and none is left on the first record's. */
  ghost predicate Copies(s: State) {
    forall c, i :: c in s.down && 0 <= i < |s.down[c]| && s.down[c][i].Connect? ==>
      i == 0 && c != s.first && (s.cfg.kind == PresetSent ==> c == s.cfg.pair.down)
  }

  ghost predicate Firsts(s: State) {
    && (s.lives == 0 <==> s.first == 0)
    && (s.lives == 0 ==> !s.hot)
    && (s.lives == 1 ==> s.first == s.cli.recvCh && s.hot == !s.asked && s.first in s.cfg.channels)
    && (s.lives > 1 ==> s.cfg.kind != PresetSent && s.cli.recvCh != s.first && s.cli.recvCh in s.cfg.channels)
    && (s.hot ==> s.cfg.kind != Classic && s.first == s.cfg.pair.down)
  }

  /** Before its dial is done a first record has said nothing but, perhaps, its announcement. */
  ghost predicate Undialed(s: State) {
    s.lives == 1 && s.cli.present && !s.cli.dialed ==>
      s.sentUp == [] && forall c, i :: c in s.up && 0 <= i < |s.up[c]| ==> s.up[c][i].SelectUplink?
  }

  /** Data goes to the first record's channel only. */
  ghost predicate OneWayDown(s: State) {
    forall c :: c in s.down && c != s.first ==> DataOf(s.down[c]) == []
  }

  /** The payloads in front of the first close message. */
  function Before(q: seq<Msg>): seq<Payload> {
    if q == [] || q[0].Close? then []
    else if q[0].Data? then [q[0].payload] + Before(q[1..])
    else Before(q[1..])
  }

  /** The first word after announcements is that the dial failed. */
  predicate FailsFirst(q: seq<Msg>) {
    q != [] && (q[0] == Status(false) || (q[0].SelectUplink? && FailsFirst(q[1..])))
  }

  lemma {:induction false} BeforeAppend(q: seq<Msg>, m: Msg)
    ensures Close in q ==> Before(q + [m]) == Before(q)
    ensures Before(q + [Close]) <= DataOf(q)
  {
    if q == [] {
      assert [] + [Close] == [Close];
    } else {
      assert (q + [m])[1..] == q[1..] + [m] && (q + [Close])[1..] == q[1..] + [Close];
      BeforeAppend(q[1..], m);
    }
  }

  lemma {:induction false} FailsFirstAppend(q: seq<Msg>, m: Msg)
    ensures FailsFirst(q) ==> FailsFirst(q + [m])
    ensures (forall i :: 0 <= i < |q| ==> q[i].SelectUplink?) ==> FailsFirst(q + [Status(false)])
  {
    if q != [] {
      assert (q + [m])[1..] == q[1..] + [m] && (q + [Status(false)])[1..] == q[1..] + [Status(false)];
      FailsFirstAppend(q[1..], m);
    }
  }

  /** The server knows the first record's channels. */
  ghost predicate Fixed(s: State) {
    s.hot || Adopted(s)
  }

  ghost predicate CutOff(s: State, q: seq<Msg>) {
    Close in q && s.gotUp + Before(q) <= s.sentUp
  }

  /** The first record's close stands between the server and whatever a later record sends. */
  ghost predicate ClosedOff(s: State) {
    forall c :: c in s.up && (Fixed(s) ==> c == s.srv.recvCh) ==> CutOff(s, s.up[c])
  }

  /** Or its failed dial does. */
  ghost predicate FailedOff(s: State) {
    s.srv.verdict == Open && s.gotUp == [] && forall c :: c in s.up ==> FailsFirst(s.up[c])
  }

  predicate Announces(m: Msg, c: nat) {
    m.SelectUplink? && m.ch == c
  }

  ghost predicate Routed(s: State) {
    if Fixed(s) then s.srv.sendCh == s.first && s.srv.recvCh in s.up
    else s.srv.verdict == Open && s.gotUp == [] && forall c :: c in s.up ==> Waiting(s.up, c) && Announces(s.up[c][0], s.first)
  }

  ghost predicate UpAfter(s: State) {
    s.gotUp <= s.sentUp && s.first > 0 && (s.srv.preset ==> s.srv.sendCh != 0) && (s.srv.live ==> Routed(s) && (FailedOff(s) || ClosedOff(s)))
  }

  ghost predicate Later(s: State) {
    && Inv(s) && Copies(s) && Firsts(s) && Undialed(s)
    && (!s.lost && !Crossed(s) ==> OneWayDown(s))
    && (!s.lost && !Crossed(s) && Gone(s) ==> UpAfter(s) && s.gotDown <= s.sentDown)
  }

  lemma {:induction false} InitLater(cfg: Config)
    requires ValidConfig(cfg)
    ensures Later(Init(cfg))
  {
    var s := Init(cfg);
    InitInv(cfg);
    assert DataOf([Connect]) == [] by { assert [Connect][1..] == []; }
    assert forall c :: c in s.down ==> s.down[c] == [] || s.down[c] == [Connect];
  }

  // ---------------------------------------------------------------- the way up

  ghost predicate GrownBy(up: Queues, next: Queues, m: Msg) {
    next.Keys == up.Keys && forall c :: c in up ==> next[c] == up[c] || next[c] == up[c] + [m]
  }

  lemma {:induction false} SendGrowsBy(up: Queues, chosen: nat, m: Msg)
    ensures GrownBy(up, Send(up, chosen, m), m)
  {
  }

  /** Whatever later records add stands behind the end of the first. */
  lemma {:induction false} GrowKeeps(s: State, t: State, m: Msg)
    requires UpAfter(s) && GrownBy(s.up, t.up, m) && s.sentUp <= t.sentUp
    requires t.srv == s.srv && t.gotUp == s.gotUp && t.first == s.first && t.hot == s.hot
    ensures UpAfter(t)
  {
    forall c | c in s.up
      ensures FailsFirst(s.up[c]) ==> FailsFirst(t.up[c])
      ensures CutOff(s, s.up[c]) ==> CutOff(t, t.up[c])
    {
      FailsFirstAppend(s.up[c], m);
      BeforeAppend(s.up[c], m);
    }
  }

  /** While the first record is there, the line between the ends is whole. */
  ghost predicate Whole(s: State) {
    if Fixed(s) then
      && s.srv.sendCh == s.first && s.srv.recvCh in s.up && UnsetOr(s.cli.sendCh, s.srv.recvCh)
      && s.gotUp + DataOf(s.up[s.srv.recvCh]) == s.sentUp
    else
      && s.srv.verdict == Open && s.gotUp == [] && s.cli.sendCh == 0
      && forall c :: c in s.up ==> Waiting(s.up, c) && Announces(s.up[c][0], s.first) && DataOf(s.up[c]) == s.sentUp
  }

  lemma {:induction false} FirstIsWhole(s: State)
    requires Inv(s) && Firsts(s) && s.lives == 1 && s.cli.present && !s.lost
    ensures s.gotUp <= s.sentUp && s.first > 0 && (s.srv.preset ==> s.srv.sendCh != 0) && (s.srv.live ==> Whole(s))
  {
  }

  lemma {:induction false} CloseCutsOff(s: State, c: Channel)
    requires c in s.up && UnsetOr(s.cli.sendCh, c) && s.gotUp + DataOf(s.up[c]) == s.sentUp
    ensures var up := Send(s.up, s.cli.sendCh, Close); c in up && CutOff(s, up[c]) && up[c] == s.up[c] + [Close]
  {
    SendAt(s.up, s.cli.sendCh, Close, c);
    BeforeAppend(s.up[c], Close);
    assert (s.up[c] + [Close])[|s.up[c]|] == Close;
  }

  /** The first record leaves with a close message on its way of sending. */
  lemma {:induction false} ClosingEnds(s: State, t: State)
    requires Inv(s) && Firsts(s) && s.lives == 1 && s.cli.present && !s.lost
    requires t.up == Send(s.up, s.cli.sendCh, Close) && t.sentUp == s.sentUp
    requires t.srv == s.srv && t.gotUp == s.gotUp && t.first == s.first && t.hot == s.hot
    ensures UpAfter(t)
  {
    FirstIsWhole(s);
    if s.srv.live {
      forall c | c in s.up && (Fixed(s) ==> c == s.srv.recvCh)
        ensures c in t.up && CutOff(t, t.up[c]) && t.up[c] == s.up[c] + [Close]
      {
        CloseCutsOff(s, c);
      }
      assert ClosedOff(t);
    }
  }

  /** Or with the news that its dial failed, on every channel. */
  lemma {:induction false} FailingEnds(s: State, t: State)
    requires Inv(s) && Firsts(s) && Undialed(s) && s.lives == 1 && s.cli.present && !s.cli.dialed && !s.lost
    requires t.up == Broadcast(s.up, Status(false)) && t.sentUp == s.sentUp
    requires t.srv == s.srv && t.gotUp == s.gotUp && t.first == s.first && t.hot == s.hot
    ensures UpAfter(t)
  {
    FirstIsWhole(s);
    if s.srv.live {
      forall c | c in s.up ensures FailsFirst(t.up[c]) {
        FailsFirstAppend(s.up[c], Status(false));
      }
      assert FailedOff(t);
    }
  }

  lemma {:induction false} AdoptedFirst(s: State, c: Channel, wrote: bool)
    requires UpAfter(s) && Waiting(s.up, c) && s.srv.live && !Fixed(s)
    requires Shape(s) && !Crossed(ServerGets(s, c, wrote))
    ensures UpAfter(ServerGets(s, c, wrote))
  {
    var t := ServerGets(s, c, wrote);
    assert Announces(s.up[c][0], s.first);
    assert Fixed(t) && t.srv.sendCh == s.first && t.srv.recvCh == c;
    assert Before(s.up[c]) == Before(s.up[c][1..]);
  }

  lemma {:induction false} ServerReadKeepsUp(s: State, c: Channel, wrote: bool)
    requires UpAfter(s) && Waiting(s.up, c) && Shape(s) && !Crossed(ServerGets(s, c, wrote))
    ensures UpAfter(ServerGets(s, c, wrote))
  {
    var t := ServerGets(s, c, wrote);
    var m := Head(s.up, c);
    if t.srv.live {
      if !Fixed(s) {
        AdoptedFirst(s, c, wrote);
      } else {
        assert s.up[c][0] == m && !m.Close?;
        assert t.srv == s.srv || t.srv == s.srv.Settle(true);
        if FailedOff(s) {
          assert FailsFirst(s.up[c]);
          assert FailedOff(t);
        } else {
          FixedReadKeeps(s, c, wrote);
        }
      }
    }
  }

  lemma {:induction false} FixedReadKeeps(s: State, c: Channel, wrote: bool)
    requires UpAfter(s) && Waiting(s.up, c) && Fixed(s) && ClosedOff(s) && Shape(s)
    requires ServerGets(s, c, wrote).srv.live && !Crossed(ServerGets(s, c, wrote))
    ensures UpAfter(ServerGets(s, c, wrote))
  {
    var t := ServerGets(s, c, wrote);
    var m := Head(s.up, c);
    assert t.srv.sendCh == s.srv.sendCh && t.srv.recvCh == s.srv.recvCh && Fixed(t);
    if c == s.srv.recvCh {
      assert s.up[c][0] == m && !m.Close?;
      assert CutOff(s, s.up[c]);
      var rest := s.up[c][1..];
      assert s.up[c] == [m] + rest;
      assert Close in rest;
      if m.Data? {
        assert t.gotUp == s.gotUp + [m.payload];
        assert (s.gotUp + [m.payload]) + Before(rest) == s.gotUp + ([m.payload] + Before(rest));
      }
      assert CutOff(t, t.up[c]);
      assert t.gotUp <= t.gotUp + Before(rest);
    }
  }

  // ---------------------------------------------------------------- the way down

  lemma {:induction false} SendKeepsCopies(s: State, t: State, chosen: nat, m: Msg)
    requires Copies(s) && !m.Connect? && t.down == Send(s.down, chosen, m) && t.cfg == s.cfg && t.first == s.first
    ensures Copies(t)
  {
  }

  /** The dial message read last is the only copy on its channel. */
  lemma {:induction false} PopKeepsCopies(s: State, t: State, c: Channel)
    requires Copies(s) && Waiting(s.down, c) && t.down == Pop(s.down, c) && t.cfg == s.cfg
    requires t.first == s.first || t.first == c
    ensures Copies(t)
  {
    assert forall i :: 0 <= i < |s.down[c]| - 1 ==> t.down[c][i] == s.down[c][i + 1];
  }

  lemma {:induction false} SendKeepsOneWay(s: State, t: State, chosen: nat, m: Msg)
    requires OneWayDown(s) && t.down == Send(s.down, chosen, m) && t.first == s.first && (m.Data? ==> chosen == s.first != 0)
    ensures OneWayDown(t)
  {
    forall c | c in s.down && c != s.first ensures DataOf(t.down[c]) == [] {
      SendAt(s.down, chosen, m, c);
    }
  }

  lemma {:induction false} PopKeepsOneWay(s: State, t: State, c: Channel)
    requires OneWayDown(s) && Waiting(s.down, c) && t.down == Pop(s.down, c)
    requires t.first == s.first || s.first == 0
    ensures OneWayDown(t)
  {
    if c != s.first {
      assert DataOf(s.down[c]) == [];
    }
  }

  /** Whenever data may flow, the server sends to the first record's channel. */
  lemma {:induction false} AcceptedSendsToFirst(s: State)
    requires Later(s) && !s.lost && !Crossed(s) && s.srv.live && s.srv.verdict == Accepted
    ensures s.srv.sendCh == s.first != 0
  {
    if s.lives > 1 || !s.cli.present {
      assert Gone(s) ==> Routed(s);
    }
  }

  // ---------------------------------------------------------------- each step

  lemma {:induction false} ClientReadKeepsFirsts(s: State, c: Channel, hit: bool, wrote: bool)
    requires Later(s) && Waiting(s.down, c)
    ensures var t := ClientGets(s, c, hit, wrote); Copies(t) && Firsts(t)
  {
    var t := ClientGets(s, c, hit, wrote);
    assert s.down[c][0] == Head(s.down, c);
    PopKeepsCopies(s, t, c);
  }

  lemma {:induction false} BirthIsUndialed(s: State, c: Channel, hit: bool, wrote: bool)
    requires Inv(s) && s.lives == 0 && Waiting(s.down, c) && Head(s.down, c) == Connect
    ensures Undialed(ClientGets(s, c, hit, wrote))
  {
    BirthKeepsSelection(s, c, hit, wrote);
    var t := ClientGets(s, c, hit, wrote);
    assert t.sentUp == [];
  }

  lemma {:induction false} StillUndialed(s: State, c: Channel, hit: bool, wrote: bool)
    requires Undialed(s) && s.lives == 1 && Waiting(s.down, c) && ClientGets(s, c, hit, wrote).lives == 1
    ensures Undialed(ClientGets(s, c, hit, wrote))
  {
    var t := ClientGets(s, c, hit, wrote);
    if t.cli.present && !t.cli.dialed {
      assert s.cli.present && !s.cli.dialed && t.up == s.up && t.sentUp == s.sentUp;
    }
  }

  lemma {:induction false} ClientReadKeepsUndialed(s: State, c: Channel, hit: bool, wrote: bool)
    requires Later(s) && Waiting(s.down, c)
    ensures Undialed(ClientGets(s, c, hit, wrote))
  {
    if s.lives == 0 && Head(s.down, c) == Connect {
      BirthIsUndialed(s, c, hit, wrote);
    } else if s.lives == 1 && ClientGets(s, c, hit, wrote).lives == 1 {
      StillUndialed(s, c, hit, wrote);
    }
  }

  lemma {:induction false} ClientReadKeepsUp(s: State, c: Channel, hit: bool, wrote: bool)
    requires Later(s) && Waiting(s.down, c)
    requires var t := ClientGets(s, c, hit, wrote); !s.lost && !Crossed(t) && Gone(t)
    ensures UpAfter(ClientGets(s, c, hit, wrote))
  {
    var t := ClientGets(s, c, hit, wrote);
    if Gone(s) {
      var m := if t.lives > s.lives then SelectUplink(c) else Close;
      assert GrownBy(s.up, t.up, m);
      GrowKeeps(s, t, m);
    } else {
      assert s.cli.Ends(c, Head(s.down, c), wrote);
      ClosingEnds(s, t);
    }
  }

  /** Later records are never given data. */
  lemma {:induction false} ClientReadKeepsDown(s: State, c: Channel, hit: bool, wrote: bool)
    requires Later(s) && Waiting(s.down, c)
    requires var t := ClientGets(s, c, hit, wrote); !s.lost && !Crossed(t) && Gone(t)
    ensures var t := ClientGets(s, c, hit, wrote); t.gotDown <= t.sentDown
  {
    if s.lives > 1 && c != s.first {
      assert DataOf(s.down[c]) == [];
      assert !s.down[c][0].Data?;
    }
  }

  lemma {:induction false} ClientReadKeeps(s: State, c: Channel, hit: bool, wrote: bool)
    requires Later(s) && Waiting(s.down, c)
    ensures Later(ClientGets(s, c, hit, wrote))
  {
    var t := ClientGets(s, c, hit, wrote);
    ClientGetsKeeps(s, c, hit, wrote);
    ClientReadKeepsFirsts(s, c, hit, wrote);
    ClientReadKeepsUndialed(s, c, hit, wrote);
    if !s.lost && !Crossed(t) {
      assert !Crossed(s);
      PopKeepsOneWay(s, t, c);
      if Gone(t) {
        ClientReadKeepsUp(s, c, hit, wrote);
        ClientReadKeepsDown(s, c, hit, wrote);
      }
    }
  }

  lemma {:induction false} ServerReadKeeps(s: State, c: Channel, wrote: bool)
    requires Later(s) && Waiting(s.up, c)
    ensures Later(ServerGets(s, c, wrote))
  {
    var t := ServerGets(s, c, wrote);
    ServerGetsKeeps(s, c, wrote);
    ServerFrame(s.srv, c, Head(s.up, c), wrote);
    var answer := s.srv.Receive(c, Head(s.up, c), wrote).answer;
    var chosen := if answer then t.srv.sendCh else s.srv.sendCh;
    var m := if answer then SelectDownlink(c) else Close;
    if t.down != s.down {
      SendKeepsCopies(s, t, chosen, m);
    }
    assert Undialed(t) by {
      assert forall i :: 0 <= i < |t.up[c]| ==> t.up[c][i] == s.up[c][i + 1];
    }
    if !s.lost && !Crossed(t) {
      assert !Crossed(s);
      if t.down != s.down {
        SendKeepsOneWay(s, t, chosen, m);
      }
      if Gone(t) {
        ServerReadKeepsUp(s, c, wrote);
      }
    }
  }

  lemma {:induction false} ClientActGrows(s: State, a: Action, t: State)
    requires s.cli.present && (a.TargetDialed? || a.ClientReads? || a.ClientQuits?) && t == Apply(s, a) && UpAfter(s)
    ensures UpAfter(t)
  {
    if t != s {
      var m := match a case TargetDialed(ok) => Status(ok) case ClientReads(p) => Data(p) case _ => Close;
      SendGrowsBy(s.up, if a.TargetDialed? then 0 else s.cli.sendCh, m);
      GrowKeeps(s, t, m);
    }
  }

  lemma {:induction false} ClientActKeepsUp(s: State, a: Action, t: State)
    requires Later(s) && s.cli.present && (a.TargetDialed? || a.ClientReads? || a.ClientQuits?) && t == Apply(s, a) != s
    requires Gone(t) && !s.lost && !Crossed(s)
    ensures UpAfter(t)
  {
    if Gone(s) {
      ClientActGrows(s, a, t);
    } else if a.TargetDialed? {
      FailingEnds(s, t);
    } else {
      ClosingEnds(s, t);
    }
  }

  lemma {:induction false} ClientActFrame(s: State, a: Action, t: State)
    requires Copies(s) && Firsts(s) && Undialed(s)
    requires s.cli.present && (a.TargetDialed? || a.ClientReads? || a.ClientQuits?) && t == Apply(s, a)
    ensures Copies(t) && Firsts(t) && Undialed(t) && (OneWayDown(s) ==> OneWayDown(t))
    ensures t.lost == s.lost && t.gotDown == s.gotDown && t.sentDown == s.sentDown
    ensures (Crossed(t) ==> Crossed(s)) && (Crossed(s) ==> Crossed(t))
  {
    assert t.down == s.down && t.srv == s.srv && t.cfg == s.cfg;
    if t != s {
      assert t.cli.present ==> t.cli.dialed;
    }
  }

  /** What a client record does of its own accord. */
  lemma {:induction false} ClientActKeeps(s: State, a: Action)
    requires Later(s) && s.cli.present && (a.TargetDialed? || a.ClientReads? || a.ClientQuits?)
    ensures Later(Apply(s, a))
  {
    var t := Apply(s, a);
    StepKeeps(s, a);
    ClientActFrame(s, a, t);
    if t != s && Gone(t) && !s.lost && !Crossed(s) {
      ClientActKeepsUp(s, a, t);
      if !Gone(s) {
        assert DownStream(s);
      }
    }
  }

  lemma {:induction false} ServerActFrame(s: State, a: Action, t: State)
    requires s.srv.live && (a.ServerWrites? || a.ServerQuits?) && t == Apply(s, a)
    ensures t.cfg == s.cfg && t.first == s.first && t.lost == s.lost && Crossed(t) == Crossed(s) && Gone(t) == Gone(s)
    ensures Firsts(t) == Firsts(s) && Undialed(t) == Undialed(s) && (UpAfter(s) ==> UpAfter(t))
    ensures t.gotDown == s.gotDown && s.sentDown <= t.sentDown
    ensures t != s ==> t.down == Send(s.down, s.srv.sendCh, if a.ServerWrites? then Data(a.payload) else Close)
  {
  }

  lemma {:induction false} ServerActKeeps(s: State, a: Action)
    requires Later(s) && s.srv.live && (a.ServerWrites? || a.ServerQuits?)
    ensures Later(Apply(s, a))
  {
    var t := Apply(s, a);
    if t != s {
      StepKeeps(s, a);
      ServerActFrame(s, a, t);
      var m := if a.ServerWrites? then Data(a.payload) else Close;
      SendKeepsCopies(s, t, s.srv.sendCh, m);
      if !s.lost && !Crossed(s) {
        if a.ServerWrites? {
          AcceptedSendsToFirst(s);
        }
        SendKeepsOneWay(s, t, s.srv.sendCh, m);
      }
    }
  }

  lemma {:induction false} LoseFrame(s: State, a: Action, t: State)
    requires Copies(s) && Firsts(s) && Undialed(s) && (a.LoseUp? || a.LoseDown?) && t == Apply(s, a)
    ensures Copies(t) && Firsts(t) && Undialed(t) && (t == s || t.lost)
  {
    if a.LoseDown? && Waiting(s.down, a.ch) {
      PopKeepsCopies(s, t, a.ch);
    } else if a.LoseUp? && Waiting(s.up, a.ch) {
      assert forall i :: 0 <= i < |t.up[a.ch]| ==> t.up[a.ch][i] == s.up[a.ch][i + 1];
    }
  }

  lemma {:induction false} LoseKeepsLater(s: State, a: Action)
    requires Later(s) && (a.LoseUp? || a.LoseDown?)
    ensures Later(Apply(s, a))
  {
    StepKeeps(s, a);
    LoseFrame(s, a, Apply(s, a));
  }

  lemma {:induction false} StepKeepsLater(s: State, a: Action)
    requires Later(s)
    ensures Later(Apply(s, a))
  {
    match a
    case ToClient(c, hit, wrote) => if Waiting(s.down, c) { ClientReadKeeps(s, c, hit, wrote); }
    case ToServer(c, wrote) => if Waiting(s.up, c) { ServerReadKeeps(s, c, wrote); }
    case TargetDialed(_) => if s.cli.present { ClientActKeeps(s, a); }
    case ClientReads(_) => if s.cli.present { ClientActKeeps(s, a); }
    case ClientQuits => if s.cli.present { ClientActKeeps(s, a); }
    case ServerWrites(_) => if s.srv.live { ServerActKeeps(s, a); }
    case ServerQuits => if s.srv.live { ServerActKeeps(s, a); }
    case LoseUp(_) => LoseKeepsLater(s, a);
    case LoseDown(_) => LoseKeepsLater(s, a);
  }

  lemma {:induction false} RunKeepsLater(s: State, acts: seq<Action>)
    requires Later(s)
    ensures Later(Run(s, acts))
    decreases |acts|
  {
    if acts != [] {
      StepKeepsLater(s, acts[0]);
      RunKeepsLater(Apply(s, acts[0]), acts[1..]);
    }
  }

  // ---------------------------------------------------------------- over every run

  /**
    However many records the client builds: without drops each end accepts a prefix of what the other sent,
    unless an announcement has been adopted in place of a pair that the first record had taken.
  */
  lemma {:induction false} RecordsKeepStreams(cfg: Config, acts: seq<Action>)
    requires ValidConfig(cfg)
    ensures var s := Run(Init(cfg), acts); !s.lost && !Crossed(s) ==> Streams(s)
  {
    InitLater(cfg);
    RunKeepsLater(Init(cfg), acts);
  }

  /** The preset unicast failed, so the dial message went out on every channel, and there is one beside the preset's. */
  predicate Exposed(cfg: Config, x: Channel) {
    cfg.kind == PresetFailed && x in cfg.channels && x != cfg.pair.down
  }

  lemma {:induction false} UnexposedKeepsStreams(cfg: Config, acts: seq<Action>)
    requires ValidConfig(cfg) && forall x :: !Exposed(cfg, x)
    ensures var s := Run(Init(cfg), acts); !s.lost ==> Streams(s)
  {
    var s := Run(Init(cfg), acts);
    InitLater(cfg);
    RunKeepsLater(Init(cfg), acts);
    KindIsKept(Init(cfg), acts);
    if Crossed(s) {
      assert s.lives > 1;
      assert Exposed(cfg, s.cli.recvCh);
    }
  }

  /** A channel on which a first record that took the pair does not send. */
  function Aside(cfg: Config, x: Channel): Channel {
    if cfg.pair.up == cfg.pair.down then x else cfg.pair.down
  }

  /** The first record takes the pair, passes [7] on over it, and goes; nothing has been read yet. */
  lemma {:induction false} TookAndWent(cfg: Config, x: Channel) returns (s: State)
    requires ValidConfig(cfg) && Exposed(cfg, x)
    ensures Reaches(cfg, s) && s.cfg == cfg && !s.lost && s.srv == Preset(cfg) && !s.cli.present && s.lives == 1
    ensures s.sentUp == [[7]] && s.gotUp == [] && x in s.down && s.down[x] == [Connect]
    ensures var y := Aside(cfg, x); y in s.up && s.up[y] == [Status(true)]
  {
    var d, y := cfg.pair.down, Aside(cfg, x);
    var s0 := Init(cfg);
    assert Run(s0, []) == s0;
    assert s0.down[x] == [Connect] && s0.down[d] == [Connect] && s0.up[y] == [];
    var s1 := Apply(s0, ToClient(d, true, true));
    ReachesNext(cfg, s0, ToClient(d, true, true));
    assert s1.cli == Client(true, d, cfg.pair.up, false) && s1.up == s0.up && s1.down[x] == [Connect];
    var s2 := Apply(s1, TargetDialed(true));
    ReachesNext(cfg, s1, TargetDialed(true));
    assert s2.up[y] == [Status(true)];
    var s3 := Apply(s2, ClientReads([7]));
    ReachesNext(cfg, s2, ClientReads([7]));
    assert s3.up[y] == [Status(true)] && s3.sentUp == [] + [[7]];
    s := Apply(s3, ClientQuits);
    ReachesNext(cfg, s3, ClientQuits);
  }

  /** The server adopts the next record's announcement, and hears from it on another channel. */
  lemma {:induction false} TookOver(cfg: Config, x: Channel) returns (s: State)
    requires ValidConfig(cfg) && Exposed(cfg, x)
    ensures Reaches(cfg, s) && s.cfg == cfg && !s.lost && s.srv.live && s.cli == Client(true, x, 0, false)
    ensures s.sentUp == [[7]] && s.gotUp == []
    ensures var y := Aside(cfg, x); s.srv.recvCh == y && y in s.up && s.up[y] == []
  {
    var y := Aside(cfg, x);
    var s4 := TookAndWent(cfg, x);
    var s5 := Apply(s4, ToClient(x, true, true));
    ReachesNext(cfg, s4, ToClient(x, true, true));
    assert s5.cli == Client(true, x, 0, false) && s5.up[y] == [Status(true), SelectUplink(x)];
    var s6 := Apply(s5, ToServer(y, true));
    ReachesNext(cfg, s5, ToServer(y, true));
    assert s6.up[y] == [SelectUplink(x)] && s6.srv == Preset(cfg).(verdict := Accepted);
    s := Apply(s6, ToServer(y, true));
    ReachesNext(cfg, s6, ToServer(y, true));
    assert s.srv == Server(true, x, y, true, true, Accepted);
  }

  /** It dials, and passes [8] on. */
  lemma {:induction false} ReadMore(cfg: Config, x: Channel) returns (s: State)
    requires ValidConfig(cfg) && Exposed(cfg, x)
    ensures Reaches(cfg, s) && !s.lost && s.srv.live && s.sentUp == [[7], [8]] && s.gotUp == []
    ensures var y := Aside(cfg, x); s.srv.recvCh == y && y in s.up && s.up[y] == [Status(true), Data([8])]
  {
    var y := Aside(cfg, x);
    var s7 := TookOver(cfg, x);
    var s8 := Apply(s7, TargetDialed(true));
    ReachesNext(cfg, s7, TargetDialed(true));
    assert s8.up[y] == [Status(true)] && s8.cli == Client(true, x, 0, true);
    s := Apply(s8, ClientReads([8]));
    ReachesNext(cfg, s8, ClientReads([8]));
    assert s.sentUp == [[7]] + [[8]];
  }

  /** The server passes on the second target's bytes, and the first's are missing. */
  lemma {:induction false} ExposedCanLeaveGap(cfg: Config, x: Channel)
    requires ValidConfig(cfg) && Exposed(cfg, x)
    ensures exists s :: Reaches(cfg, s) && !s.lost && s.sentUp == [[7], [8]] && s.gotUp == [[8]]
  {
    var y := Aside(cfg, x);
    var s9 := ReadMore(cfg, x);
    var s10 := Apply(s9, ToServer(y, true));
    ReachesNext(cfg, s9, ToServer(y, true));
    assert s10.up[y] == [Data([8])] && s10.srv.live && s10.srv.recvCh == y;
    ReachesNext(cfg, s10, ToServer(y, true));
    assert Apply(s10, ToServer(y, true)).gotUp == [] + [[8]];
  }

  /**
    With any number of client records and nothing dropped, the streams can come out of order or with a gap
    exactly when the preset unicast has failed and there is a channel beside the preset's.
  */
  lemma {:induction false} StreamsCanBreakIff(cfg: Config)
    requires ValidConfig(cfg)
    ensures (exists s :: Reaches(cfg, s) && !s.lost && !Streams(s)) <==> exists x :: Exposed(cfg, x)
  {
    if x :| Exposed(cfg, x) {
      ExposedCanLeaveGap(cfg, x);
      var s :| Reaches(cfg, s) && !s.lost && s.sentUp == [[7], [8]] && s.gotUp == [[8]];
      assert s.gotUp[0] != s.sentUp[0];
      assert !Streams(s);
    } else {
      forall s | Reaches(cfg, s) && !s.lost ensures Streams(s) {
        var acts :| Run(Init(cfg), acts) == s;
        UnexposedKeepsStreams(cfg, acts);
      }
    }
  }
}
