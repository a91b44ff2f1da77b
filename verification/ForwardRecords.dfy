/**
  Forward selection when the server's record comes and goes any number of times: when the ends stay in
  agreement, and what the streams still promise.
*/
module ForwardRecords {
  import opened Link
  import opened Forward

  // ---------------------------------------------------------------- agreement

  /** The downlink that a message arriving on `c` makes the client choose, or 0. */
  function Chooses(cli: Client, c: Channel): nat {
    if cli.downlink != 0 || cli.target == "" then 0
    else if cli.pair.Some? then cli.pair.value.down
    else if cli.GivesWay(c) then 0
    else c
  }

  /** The two ends would hold different channels. */
  predicate Clash(a: nat, b: nat) {
    a != 0 && b != 0 && a != b
  }

  /** The steps that set agreeing ends apart, whatever records came before. */
  predicate Splits(s: State, a: Action) {
    s.cli.registered &&
    match a
    case ToServer(c, hit, alive, room) =>
      Waiting(s.up, c) &&
      (match Head(s.up, c)
       // a record is built on another uplink than the client's, or promoted to another downlink
       case Connect =>
         !s.srv.live &&
         (Clash(s.cli.uplink, c) ||
          (var hot := HotEntry(s.cfg, hit); hot.Some? && hot.value.up == c && Clash(s.cli.downlink, hot.value.down)))
       // a choice that the client made for an earlier record
       case SelectDownlink(d) => s.srv.live && alive && c == s.srv.uplink && s.srv.downlink == 0 && Clash(s.cli.downlink, d)
       case _ => false)
    case ToClient(c, wrote) =>
      Waiting(s.down, c) && s.srv.live &&
      (match Head(s.down, c)
       // an announcement of an earlier record, or a first choice beside the server's
       case SelectUplink(u) =>
         (s.cli.uplink == 0 && u != s.srv.uplink) || Clash(Chooses(s.cli.NoteUplink(u), c), s.srv.downlink)
       case Data(_) =>
         var d := Chooses(s.cli, c);
         Clash(d, s.srv.downlink) && (d != c || (!s.cli.bare && wrote))
       case _ => false)
    case _ => false
  }

  lemma {:induction false} ServerReadAgreesIff(s: State, c: Channel, hit: bool, alive: bool, room: bool)
    requires Agreement(s) && Waiting(s.up, c)
    ensures Agreement(ServerGets(s, c, hit, alive, room)) <==> !Splits(s, ToServer(c, hit, alive, room))
  {
  }

  lemma {:induction false} AnnouncedAgreesIff(s: State, c: Channel, wrote: bool)
    requires Agreement(s) && Waiting(s.down, c) && Head(s.down, c).SelectUplink?
    ensures Agreement(ClientGets(s, c, wrote)) <==> !Splits(s, ToClient(c, wrote))
  {
  }

  lemma {:induction false} DataAgreesIff(s: State, c: Channel, wrote: bool)
    requires Agreement(s) && Waiting(s.down, c) && Head(s.down, c).Data?
    ensures Agreement(ClientGets(s, c, wrote)) <==> !Splits(s, ToClient(c, wrote))
  {
  }

  lemma {:induction false} ClientReadAgreesIff(s: State, c: Channel, wrote: bool)
    requires Agreement(s) && Waiting(s.down, c)
    ensures Agreement(ClientGets(s, c, wrote)) <==> !Splits(s, ToClient(c, wrote))
  {
    if Head(s.down, c).SelectUplink? {
      AnnouncedAgreesIff(s, c, wrote);
    } else if Head(s.down, c).Data? {
      DataAgreesIff(s, c, wrote);
    }
  }

  /** From any agreeing state, a step leaves the ends in agreement exactly when it is not one of those. */
  lemma {:induction false} StepAgreesIff(s: State, a: Action)
    requires Agreement(s)
    ensures Agreement(Apply(s, a)) <==> !Splits(s, a)
  {
    match a
    case ToServer(c, hit, alive, room) => if Waiting(s.up, c) { ServerReadAgreesIff(s, c, hit, alive, room); }
    case ToClient(c, wrote) => if Waiting(s.down, c) { ClientReadAgreesIff(s, c, wrote); }
    case _ =>
  }

  /** Every state of the run from here on agrees. */
  ghost predicate AgreesThroughout(s: State, acts: seq<Action>)
    decreases |acts|
  {
    Agreement(s) && (acts == [] || AgreesThroughout(Apply(s, acts[0]), acts[1..]))
  }

  ghost predicate NeverSplits(s: State, acts: seq<Action>)
    decreases |acts|
  {
    acts == [] || (!Splits(s, acts[0]) && NeverSplits(Apply(s, acts[0]), acts[1..]))
  }

  lemma {:induction false} ThroughoutIff(s: State, acts: seq<Action>)
    requires Agreement(s)
    ensures AgreesThroughout(s, acts) <==> NeverSplits(s, acts)
    decreases |acts|
  {
    if acts != [] {
      StepAgreesIff(s, acts[0]);
      if !Splits(s, acts[0]) {
        ThroughoutIff(Apply(s, acts[0]), acts[1..]);
      }
    }
  }

  /**
    For every run, with any number of server records and any drops: the ends agree all the way exactly when no
    step of it is one of those.
  */
  lemma {:induction false} EndsAgreeThroughoutIff(cfg: Config, acts: seq<Action>)
    ensures AgreesThroughout(Init(cfg), acts) <==> NeverSplits(Init(cfg), acts)
  {
    ThroughoutIff(Init(cfg), acts);
  }

  /** Two records have come, on channels 1 and 2; the client has heard of neither, and still agrees. */
  lemma {:induction false} RebuiltUnheard() returns (s: State)
    ensures Reaches(TwoChannels, s) && s.lives == 2 && !s.lost && s.srv.live && s.srv.uplink == 2 && Agreement(s)
    ensures s.cli == Init(TwoChannels).cli && 1 in s.down && s.down[1] == [SelectUplink(1), SelectUplink(2)]
  {
    var s0 := Init(TwoChannels);
    ReachesInit(TwoChannels);
    assert 1 in s0.up && s0.up[1] == [Connect] && 2 in s0.up && s0.up[2] == [Connect];
    var s1 := Apply(s0, ToServer(1, false, true, true));
    ReachesNext(TwoChannels, s0, ToServer(1, false, true, true));
    assert s1.up[2] == [Connect] && s1.down[1] == [SelectUplink(1)];
    var s2 := Apply(s1, Retire);
    ReachesNext(TwoChannels, s1, Retire);
    s := Apply(s2, ToServer(2, false, true, true));
    ReachesNext(TwoChannels, s2, ToServer(2, false, true, true));
  }

  /** A rebuilt record that agrees can still be lost to the announcement of the record before it. */
  lemma {:induction false} StaleAnnouncementDisagrees()
    ensures exists s :: Reaches(TwoChannels, s) && s.lives == 2 && !s.lost && !Agreement(s)
  {
    var s := RebuiltUnheard();
    ReachesNext(TwoChannels, s, ToClient(1, true));
    assert !Agreement(Apply(s, ToClient(1, true)));
  }

  // ---------------------------------------------------------------- the stream up, record by record

  /** A copy of the opening message still waits on the channel. */
  predicate Pending(up: Queues, c: Channel) {
    c in up && up[c] != [] && up[c][0] == Connect
  }

  /** No opening message stands behind another message. */
  ghost predicate OpensFirst(up: Queues) {
    forall c, i :: c in up && 0 < i < |up[c]| ==> up[c][i] != Connect
  }

  /** What a record on the channel has, and will have, is a prefix of what was sent: all of it on the client's own uplink. */
  ghost predicate InLine(line: seq<Payload>, s: State, c: Channel) {
    line <= s.sentUp && (UnsetOr(s.cli.uplink, c) ==> line == s.sentUp)
  }

  ghost predicate UpLines(s: State) {
    && OpensFirst(s.up)
    && (s.srv.live ==> s.srv.uplink in s.up)
    && (!s.lost && !s.strayed ==>
          && (forall c :: Pending(s.up, c) ==> InLine(DataOf(s.up[c]), s, c))
          && (s.srv.live ==> InLine(s.took + DataOf(s.up[s.srv.uplink]), s, s.srv.uplink)))
  }

  lemma {:induction false} InitUpLines(cfg: Config)
    requires ValidConfig(cfg)
    ensures UpLines(Init(cfg))
  {
    var s := Init(cfg);
    assert DataOf([Connect]) == [] by { assert [Connect][1..] == []; }
    assert forall c :: c in s.up ==> s.up[c] == [] || s.up[c] == [Connect];
  }

  function Sends(s: State, m: Msg, strayed: bool): State {
    s.(up := ClientSends(s, m), sentUp := if m.Data? then s.sentUp + [m.payload] else s.sentUp, strayed := strayed)
  }

  /** One line grows with a send that reaches it, or falls behind a unicast on the client's uplink. */
  lemma {:induction false} LineGrows(s: State, m: Msg, c: Channel, took: seq<Payload>, t: State)
    requires c in s.up && (m.Data? || m.Close?) && t == Sends(s, m, s.strayed)
    requires m.Data? ==> s.cli.registered || s.cli.uplink == 0
    requires InLine(took + DataOf(s.up[c]), s, c)
    ensures c in t.up && InLine(took + DataOf(t.up[c]), t, c)
  {
    var chosen := if s.cli.registered then s.cli.uplink else 0;
    SendAt(s.up, chosen, m, c);
    if m.Data? && (chosen == 0 || chosen == c) {
      assert took + (DataOf(s.up[c]) + [m.payload]) == (took + DataOf(s.up[c])) + [m.payload];
    }
  }

  lemma {:induction false} SendOpens(up: Queues, chosen: nat, m: Msg)
    requires OpensFirst(up) && !m.Connect?
    ensures OpensFirst(Send(up, chosen, m)) && Send(up, chosen, m).Keys == up.Keys
    ensures forall c :: Pending(Send(up, chosen, m), c) ==> Pending(up, c)
  {
  }

  lemma {:induction false} SendKeepsUpLines(s: State, m: Msg, strayed: bool)
    requires UpLines(s) && (m.Data? || m.Close?)
    requires strayed == (s.strayed || (m.Data? && !s.cli.registered && s.cli.uplink != 0))
    ensures UpLines(Sends(s, m, strayed))
  {
    var t := Sends(s, m, strayed);
    SendOpens(s.up, if s.cli.registered then s.cli.uplink else 0, m);
    if !t.lost && !t.strayed {
      forall c | Pending(t.up, c) ensures InLine(DataOf(t.up[c]), t, c) {
        assert [] + DataOf(s.up[c]) == DataOf(s.up[c]);
        LineGrows(s, m, c, [], t);
        assert [] + DataOf(t.up[c]) == DataOf(t.up[c]);
      }
      if s.srv.live {
        LineGrows(s, m, s.srv.uplink, s.took, t);
      }
    }
  }

  /** What the client does on a message: a reply that is not data, and at most a first uplink. */
  lemma {:induction false} ClientReadKeepsUpLines(s: State, c: Channel, wrote: bool)
    requires UpLines(s) && Waiting(s.down, c)
    ensures UpLines(ClientGets(s, c, wrote))
  {
    var t := ClientGets(s, c, wrote);
    var out := s.cli.Receive(c, Head(s.down, c), wrote);
    ReceiveFrame(s.cli, c, Head(s.down, c), wrote);
    assert out.next.uplink == s.cli.uplink || s.cli.uplink == 0;
    if out.reply.Some? {
      var l := out.reply.value;
      SendOpens(s.up, l.ch, l.msg);
      forall x | x in s.up ensures DataOf(t.up[x]) == DataOf(s.up[x]) {
        SendAt(s.up, l.ch, l.msg, x);
      }
    }
  }

  lemma {:induction false} ServerReadKeepsUpLines(s: State, c: Channel, hit: bool, alive: bool, room: bool)
    requires UpLines(s) && Waiting(s.up, c)
    ensures UpLines(ServerGets(s, c, hit, alive, room))
  {
    var t := ServerGets(s, c, hit, alive, room);
    var m := Head(s.up, c);
    assert s.up[c][0] == m;
    PopOpens(s.up, c);
    assert DataOf(s.up[c]) == (if m.Data? then [m.payload] else []) + DataOf(s.up[c][1..]);
    if !t.lost && !t.strayed {
      assert forall x :: Pending(t.up, x) ==> x != c && Pending(s.up, x) && t.up[x] == s.up[x];
      if t.srv.live {
        ServerLine(s, c, hit, alive, room);
      }
    }
  }

  lemma {:induction false} PopOpens(up: Queues, c: Channel)
    requires OpensFirst(up) && Waiting(up, c)
    ensures OpensFirst(Pop(up, c)) && !Pending(Pop(up, c), c)
  {
    assert forall i :: 0 <= i < |up[c]| - 1 ==> Pop(up, c)[c][i] == up[c][i + 1];
  }

  /** The line of the record that is live afterwards: begun by an opening message, or carried on. */
  lemma {:induction false} ServerLine(s: State, c: Channel, hit: bool, alive: bool, room: bool)
    requires UpLines(s) && Waiting(s.up, c) && !s.lost && !s.strayed && ServerGets(s, c, hit, alive, room).srv.live
    ensures var t := ServerGets(s, c, hit, alive, room);
            t.srv.uplink in t.up && InLine(t.took + DataOf(t.up[t.srv.uplink]), t, t.srv.uplink)
  {
    var t := ServerGets(s, c, hit, alive, room);
    var m := Head(s.up, c);
    assert s.up[c][0] == m;
    assert DataOf(s.up[c]) == (if m.Data? then [m.payload] else []) + DataOf(s.up[c][1..]);
    if s.srv.live {
      assert t.srv.uplink == s.srv.uplink;
      if m.Data? && c == s.srv.uplink {
        assert t.took == s.took + [m.payload];
        assert (s.took + [m.payload]) + DataOf(s.up[c][1..]) == s.took + ([m.payload] + DataOf(s.up[c][1..]));
      }
    } else {
      assert m == Connect && t.srv.uplink == c && t.took == [];
      assert Pending(s.up, c);
      assert [] + DataOf(t.up[c]) == DataOf(s.up[c]);
    }
  }

  lemma {:induction false} StepKeepsUpLines(s: State, a: Action)
    requires UpLines(s)
    ensures UpLines(Apply(s, a))
  {
    match a
    case Write(p) => SendKeepsUpLines(s, Data(p), s.strayed || (!s.cli.registered && s.cli.uplink != 0));
    case CloseWrite => SendKeepsUpLines(s, Close, s.strayed);
    case ClientClose => SendKeepsUpLines(s, Close, s.strayed);
    case ToServer(c, hit, alive, room) => if Waiting(s.up, c) { ServerReadKeepsUpLines(s, c, hit, alive, room); }
    case ToClient(c, wrote) => if Waiting(s.down, c) { ClientReadKeepsUpLines(s, c, wrote); }
    case LoseUp(c) => if Waiting(s.up, c) { PopOpens(s.up, c); }
    case _ =>
  }

  lemma {:induction false} RunKeepsUpLines(s: State, acts: seq<Action>)
    requires UpLines(s)
    ensures UpLines(Run(s, acts))
    decreases |acts|
  {
    if acts != [] {
      StepKeepsUpLines(s, acts[0]);
      RunKeepsUpLines(Apply(s, acts[0]), acts[1..]);
    }
  }

  /**
    However many records the server builds: without drops, what the living record has accepted is a prefix of
    what the client wrote, from the first byte on, as long as the client does not write after unregistering with
    an uplink noted.
  */
  lemma {:induction false} RecordsTakePrefixes(cfg: Config, acts: seq<Action>)
    requires ValidConfig(cfg)
    ensures var s := Run(Init(cfg), acts); !s.lost && !s.strayed && s.srv.live ==> s.took <= s.sentUp
  {
    InitUpLines(cfg);
    RunKeepsUpLines(Init(cfg), acts);
    var s := Run(Init(cfg), acts);
    if !s.lost && !s.strayed && s.srv.live {
      assert s.took <= s.took + DataOf(s.up[s.srv.uplink]);
    }
  }

  /**
    A write keeps the line of a channel a prefix exactly when it does not reach the channel, nothing is missing
    there, or it repeats what is missing next.
  */
  lemma {:induction false} WriteKeepsLineIff(s: State, c: Channel, took: seq<Payload>, p: Payload)
    requires c in s.up && took + DataOf(s.up[c]) <= s.sentUp
    ensures var t := Apply(s, Write(p)); var line := took + DataOf(s.up[c]);
            c in t.up &&
            (took + DataOf(t.up[c]) <= t.sentUp <==>
               (s.cli.registered && !UnsetOr(s.cli.uplink, c)) || line == s.sentUp || s.sentUp[|line|] == p)
  {
    var t := Apply(s, Write(p));
    var line := took + DataOf(s.up[c]);
    SendAt(s.up, if s.cli.registered then s.cli.uplink else 0, Data(p), c);
    if !s.cli.registered || UnsetOr(s.cli.uplink, c) {
      assert took + (DataOf(s.up[c]) + [p]) == line + [p];
      if |line| < |s.sentUp| {
        assert (line + [p])[|line|] == p && (s.sentUp + [p])[|line|] == s.sentUp[|line|];
      }
    }
  }

  /** The client has written [7] on every channel, behind the opening message. */
  lemma {:induction false} WrittenEverywhere() returns (s: State)
    ensures Reaches(TwoChannels, s) && s.cfg == TwoChannels && !s.srv.live && !s.lost && !s.strayed
    ensures s.sentUp == [[7]] && s.gotUp == []
    ensures 1 in s.up && s.up[1] == [Connect, Data([7])] && 2 in s.up && s.up[2] == [Connect, Data([7])]
  {
    var s0 := Init(TwoChannels);
    ReachesInit(TwoChannels);
    assert 1 in s0.up && s0.up[1] == [Connect] && 2 in s0.up && s0.up[2] == [Connect];
    s := Apply(s0, Write([7]));
    ReachesNext(TwoChannels, s0, Write([7]));
  }

  /** Every record takes the stream from its beginning: two of them can pass the same payload on twice. */
  lemma {:induction false} PayloadPassedOnTwice()
    ensures exists s :: Reaches(TwoChannels, s) && !s.lost && !s.strayed && s.sentUp == [[7]] && s.gotUp == [[7], [7]]
  {
    var s1 := WrittenEverywhere();
    var s2 := TakesOne(s1, 1);
    ReachesNext(TwoChannels, s2, Retire);
    var s4 := TakesOne(s2.(srv := s2.srv.(live := false)), 2);
    assert s4.gotUp == [[7], [7]];
  }

  /** A record is built from the opening message on `c` and takes the payload behind it. */
  lemma {:induction false} TakesOne(s: State, c: Channel) returns (t: State)
    requires Reaches(TwoChannels, s) && s.cfg == TwoChannels && !s.srv.live && c in s.up && s.up[c] == [Connect, Data([7])]
    ensures Reaches(TwoChannels, t) && t.cfg == TwoChannels && t.cli == s.cli && t.srv.live && t.took == [[7]]
    ensures t.gotUp == s.gotUp + [[7]] && t.sentUp == s.sentUp && t.lost == s.lost && t.strayed == s.strayed
    ensures t.up == s.up[c := []]
  {
    var s1 := Apply(s, ToServer(c, false, true, true));
    ReachesNext(TwoChannels, s, ToServer(c, false, true, true));
    assert s1.up[c] == [Data([7])] && s1.srv == Server(true, c, 0, false) && s1.took == [];
    t := Apply(s1, ToServer(c, false, true, true));
    ReachesNext(TwoChannels, s1, ToServer(c, false, true, true));
    assert t.up[c] == [] && t.took == [] + [[7]];
  }

  /** The client has written [7] on its uplink, channel 1, and has unregistered. */
  lemma {:induction false} WrittenAndGone() returns (s: State)
    ensures Reaches(TwoChannels, s) && !s.lost && s.cfg == TwoChannels && !s.cli.registered && s.cli.uplink == 1
    ensures s.sentUp == [[7]] && 2 in s.up && s.up[2] == [Connect]
  {
    var s0 := Settled();
    var s1 := Apply(s0, Write([7]));
    ReachesNext(TwoChannels, s0, Write([7]));
    assert s1.up[2] == [Connect] && s1.sentUp == [] + [[7]];
    s := Apply(s1, ClientForget);
    ReachesNext(TwoChannels, s1, ClientForget);
  }

  /** Then it writes [8], on every channel, and the record goes. */
  lemma {:induction false} WrittenAfterwards() returns (s: State)
    ensures Reaches(TwoChannels, s) && !s.lost && s.strayed && s.cfg == TwoChannels && !s.srv.live
    ensures s.sentUp == [[7], [8]] && 2 in s.up && s.up[2] == [Connect, Data([8])]
  {
    var s2 := WrittenAndGone();
    var s3 := Apply(s2, Write([8]));
    ReachesNext(TwoChannels, s2, Write([8]));
    assert s3.up[2] == [Connect, Data([8])] && s3.sentUp == [[7]] + [[8]];
    s := Apply(s3, Retire);
    ReachesNext(TwoChannels, s3, Retire);
  }

  /** So a later record starts in the middle of the stream. */
  lemma {:induction false} StrayWriteLeavesGap()
    ensures exists s :: Reaches(TwoChannels, s) && !s.lost && s.srv.live && s.sentUp == [[7], [8]] && s.took == [[8]]
  {
    var s := WrittenAfterwards();
    var s1 := Apply(s, ToServer(2, false, true, true));
    ReachesNext(TwoChannels, s, ToServer(2, false, true, true));
    assert s1.up[2] == [Data([8])] && s1.srv == Server(true, 2, 0, false) && s1.took == [];
    var t := Apply(s1, ToServer(2, false, true, true));
    ReachesNext(TwoChannels, s1, ToServer(2, false, true, true));
    assert t.took == [] + [[8]];
  }

  // ---------------------------------------------------------------- the stream down

  /** The client may still choose the channel as its downlink. */
  predicate Selectable(cli: Client, c: Channel) {
    cli.target != "" && (if cli.pair.Some? then c == cli.pair.value.down else !cli.GivesWay(c))
  }

  /** Data is missing on a channel only if some was unicast on another. */
  ghost predicate DownLines(s: State) {
    && (s.cli.downlink == 0 ==> s.gotDown == [])
    && (!s.lost ==>
          && (s.cli.downlink != 0 && s.asides <= {s.cli.downlink} ==> s.gotDown <= s.sentDown)
          && (s.cli.registered && s.cli.downlink != 0 && s.asides <= {s.cli.downlink} && s.cli.downlink in s.down ==>
                s.gotDown + DataOf(s.down[s.cli.downlink]) == s.sentDown)
          && (s.cli.registered && s.cli.downlink == 0 ==>
                forall c :: c in s.down && Selectable(s.cli, c) && s.asides <= {c} ==> DataOf(s.down[c]) == s.sentDown))
  }

  lemma {:induction false} ServerSendKeepsDownLines(s: State, m: Msg, t: State)
    requires DownLines(s)
    requires t == s.(down := Send(s.down, s.srv.downlink, m), sentDown := if m.Data? then s.sentDown + [m.payload] else s.sentDown,
                     asides := if m.Data? && s.srv.downlink != 0 then s.asides + {s.srv.downlink} else s.asides)
    ensures DownLines(t)
  {
    forall c | c in s.down
      ensures c in t.down && DataOf(t.down[c]) == if m.Data? && UnsetOr(s.srv.downlink, c) then DataOf(s.down[c]) + [m.payload] else DataOf(s.down[c])
    {
      SendAt(s.down, s.srv.downlink, m, c);
    }
    assert s.asides <= t.asides;
    if m.Data? && s.cli.downlink != 0 && t.asides <= {s.cli.downlink} && s.cli.downlink in s.down {
      assert UnsetOr(s.srv.downlink, s.cli.downlink);
      var line := DataOf(s.down[s.cli.downlink]);
      assert s.gotDown + (line + [m.payload]) == (s.gotDown + line) + [m.payload];
    }
  }

  lemma {:induction false} ChosenReadKeepsDownLines(s: State, c: Channel, wrote: bool)
    requires DownLines(s) && Waiting(s.down, c) && s.cli.downlink != 0
    ensures DownLines(ClientGets(s, c, wrote))
  {
    var t := ClientGets(s, c, wrote);
    var m := Head(s.down, c);
    assert s.down[c][0] == m;
    assert DataOf(s.down[c]) == (if m.Data? then [m.payload] else []) + DataOf(s.down[c][1..]);
    ReceiveFrame(s.cli, c, m, wrote);
    assert t.cli.downlink == s.cli.downlink && t.down == Pop(s.down, c);
  }

  lemma {:induction false} FirstDataKeepsDownLines(s: State, c: Channel, wrote: bool)
    requires DownLines(s) && Waiting(s.down, c) && s.cli.downlink == 0 && Head(s.down, c).Data?
    ensures DownLines(ClientGets(s, c, wrote))
  {
    var t := ClientGets(s, c, wrote);
    var m := Head(s.down, c);
    assert s.down[c][0] == m;
    assert DataOf(s.down[c]) == [m.payload] + DataOf(s.down[c][1..]);
    assert t.down == Pop(s.down, c);
    if t.cli.registered && t.cli.downlink == 0 {
      assert t.cli == s.cli && !Selectable(s.cli, c);
    }
  }

  lemma {:induction false} SignalKeepsDownLines(s: State, c: Channel, wrote: bool)
    requires DownLines(s) && Waiting(s.down, c) && s.cli.downlink == 0 && !Head(s.down, c).Data?
    ensures DownLines(ClientGets(s, c, wrote))
  {
    var t := ClientGets(s, c, wrote);
    assert s.down[c][0] == Head(s.down, c);
    assert DataOf(s.down[c]) == DataOf(s.down[c][1..]);
    assert t.down == Pop(s.down, c) && t.gotDown == s.gotDown;
    assert t.cli.registered ==> forall x :: Selectable(t.cli, x) ==> Selectable(s.cli, x);
  }

  lemma {:induction false} ClientReadKeepsDownLines(s: State, c: Channel, wrote: bool)
    requires DownLines(s) && Waiting(s.down, c)
    ensures DownLines(ClientGets(s, c, wrote))
  {
    if s.cli.downlink != 0 {
      ChosenReadKeepsDownLines(s, c, wrote);
    } else if Head(s.down, c).Data? {
      FirstDataKeepsDownLines(s, c, wrote);
    } else {
      SignalKeepsDownLines(s, c, wrote);
    }
  }

  lemma {:induction false} DialedKeepsDownLines(s: State, ok: bool)
    requires DownLines(s)
    ensures DownLines(Apply(s, TargetDialed(ok)))
  {
    if s.srv.live && !s.srv.serving && s.cfg.kind != Prebind {
      var t := s.(down := Send(s.down, s.srv.downlink, Status(ok)));
      ServerSendKeepsDownLines(s, Status(ok), t);
      if !ok {
        ServerSendKeepsDownLines(t, Close, t.(down := Send(t.down, t.srv.downlink, Close)));
      }
    }
  }

  /** Announcements are broadcast whatever the record's downlink. */
  lemma {:induction false} ServerReadKeepsDownLines(s: State, c: Channel, hit: bool, alive: bool, room: bool)
    requires DownLines(s) && Waiting(s.up, c)
    ensures DownLines(ServerGets(s, c, hit, alive, room))
  {
    var t := ServerGets(s, c, hit, alive, room);
    if t.down != s.down {
      forall x | x in s.down ensures x in t.down && DataOf(t.down[x]) == DataOf(s.down[x]) {
        SendAt(s.down, 0, SelectUplink(c), x);
      }
    }
  }

  lemma {:induction false} StepKeepsDownLines(s: State, a: Action)
    requires DownLines(s)
    ensures DownLines(Apply(s, a))
  {
    match a
    case ToServer(c, hit, alive, room) => if Waiting(s.up, c) { ServerReadKeepsDownLines(s, c, hit, alive, room); }
    case ToClient(c, wrote) => if Waiting(s.down, c) { ClientReadKeepsDownLines(s, c, wrote); }
    case TargetDialed(ok) => DialedKeepsDownLines(s, ok);
    case Forwarded(p) => if s.srv.live && s.srv.serving { ServerSendKeepsDownLines(s, Data(p), Apply(s, a)); }
    case _ =>
  }

  lemma {:induction false} RunKeepsDownLines(s: State, acts: seq<Action>)
    requires DownLines(s)
    ensures DownLines(Run(s, acts))
    decreases |acts|
  {
    if acts != [] {
      StepKeepsDownLines(s, acts[0]);
      RunKeepsDownLines(Apply(s, acts[0]), acts[1..]);
    }
  }

  /**
    However many records the server builds: without drops, what the client has accepted is a prefix of what all
    of them sent, as long as data that was unicast was unicast on the client's own downlink.
  */
  lemma {:induction false} ClientTakesPrefix(cfg: Config, acts: seq<Action>)
    ensures var s := Run(Init(cfg), acts); !s.lost && s.asides <= {s.cli.downlink} ==> s.gotDown <= s.sentDown
  {
    RunKeepsDownLines(Init(cfg), acts);
  }

  const PromotedLate := Config(HotFailed, {1, 2, 3}, "host:80", Pair(3, 2), Some(Pair(3, 2)))

  /** A record on uplink 3 is promoted to downlink 2 and announces nothing. */
  lemma {:induction false} Promoted() returns (s: State)
    ensures Reaches(PromotedLate, s) && s.cfg == PromotedLate && !s.lost && s.srv == Server(true, 3, 2, false)
    ensures s.cli == Init(PromotedLate).cli && s.sentDown == [] && s.gotDown == []
    ensures 1 in s.up && s.up[1] == [Connect] && 1 in s.down && s.down[1] == []
  {
    var s0 := Init(PromotedLate);
    ReachesInit(PromotedLate);
    assert 1 in s0.up && s0.up[1] == [Connect] && 3 in s0.up && s0.up[3] == [Connect] && s0.down[1] == [];
    s := Apply(s0, ToServer(3, true, true, true));
    ReachesNext(PromotedLate, s0, ToServer(3, true, true, true));
  }

  /** It serves, and channel 1 has still seen nothing. */
  lemma {:induction false} ServesAside() returns (s: State)
    ensures Reaches(PromotedLate, s) && s.cfg == PromotedLate && !s.lost && s.srv == Server(true, 3, 2, true)
    ensures s.cli == Init(PromotedLate).cli && s.sentDown == [] && s.gotDown == []
    ensures 1 in s.up && s.up[1] == [Connect] && 1 in s.down && s.down[1] == []
  {
    var s1 := Promoted();
    s := Apply(s1, TargetDialed(true));
    ReachesNext(PromotedLate, s1, TargetDialed(true));
  }

  /** It sends [7] there and goes; channel 1 has seen nothing yet. */
  lemma {:induction false} SentAside() returns (s: State)
    ensures Reaches(PromotedLate, s) && s.cfg == PromotedLate && !s.lost && !s.srv.live
    ensures s.cli == Init(PromotedLate).cli && s.sentDown == [[7]] && s.gotDown == []
    ensures 1 in s.up && s.up[1] == [Connect] && 1 in s.down && s.down[1] == []
  {
    var s2 := ServesAside();
    var s3 := Apply(s2, Forwarded([7]));
    ReachesNext(PromotedLate, s2, Forwarded([7]));
    assert s3.down[1] == [] && s3.sentDown == [] + [[7]];
    s := Apply(s3, Retire);
    ReachesNext(PromotedLate, s3, Retire);
  }

  /** The next record, on uplink 1, announces itself and sends [8] everywhere. */
  lemma {:induction false} SentEverywhere() returns (s: State)
    ensures Reaches(PromotedLate, s) && s.cfg == PromotedLate && !s.lost
    ensures s.cli == Init(PromotedLate).cli && s.sentDown == [[7], [8]] && s.gotDown == []
    ensures 1 in s.down && s.down[1] == [SelectUplink(1), Status(true), Data([8])]
  {
    var s4 := SentAside();
    var s5 := Apply(s4, ToServer(1, false, true, true));
    ReachesNext(PromotedLate, s4, ToServer(1, false, true, true));
    assert s5.srv == Server(true, 1, 0, false) && s5.down[1] == [] + [SelectUplink(1)];
    var s6 := Apply(s5, TargetDialed(true));
    ReachesNext(PromotedLate, s5, TargetDialed(true));
    assert s6.down[1] == [SelectUplink(1), Status(true)];
    s := Apply(s6, Forwarded([8]));
    ReachesNext(PromotedLate, s6, Forwarded([8]));
    assert s.sentDown == [[7]] + [[8]];
  }

  /** Data unicast aside leaves a gap: the client starts in the middle of what was sent. */
  lemma {:induction false} AsideLeavesGap()
    ensures exists s :: Reaches(PromotedLate, s) && !s.lost && s.cli.registered && s.sentDown == [[7], [8]] && s.gotDown == [[8]]
  {
    var s7 := SentEverywhere();
    var s8 := Apply(s7, ToClient(1, true));
    ReachesNext(PromotedLate, s7, ToClient(1, true));
    assert s8.cli.downlink == 1 && s8.cli.registered && s8.down[1] == [Status(true), Data([8])];
    var s9 := Apply(s8, ToClient(1, true));
    ReachesNext(PromotedLate, s8, ToClient(1, true));
    assert s9.cli == s8.cli && s9.down[1] == [Data([8])];
    ReachesNext(PromotedLate, s9, ToClient(1, true));
    assert Apply(s9, ToClient(1, true)).gotDown == [] + [[8]];
  }
}
