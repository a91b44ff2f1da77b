/**
  Reverse channel selection for one connection ID: the server dials, the client connects to the target.

  The server broadcasts MsgTCPConnect, or with a hot pair presets both channels and unicasts it. A client
  that finds the pair takes both channels from it; any other client takes the arrival channel for receiving
  and announces it on every channel. The server adopts the first announcement; a server with preset channels
  does so at most once more, as a repair. If the preset unicast fails the server falls back to broadcasting
  while the presets stay in place.
*/
module Reverse {
  import opened Link

  // ---------------------------------------------------------------- the dialing server

  datatype Verdict = Open | Accepted | Refused

  datatype Server = Server(live: bool, sendCh: nat, recvCh: nat, preset: bool, repaired: bool, verdict: Verdict)
  {
    function Settle(ok: bool): Server {
      if verdict != Open then this
      else if ok then this.(verdict := Accepted)
      else this.(verdict := Refused, live := false)
    }

    function Remove(): Server {
      this.(live := false, verdict := if verdict == Open then Refused else verdict)
    }

    /** A close message, or data that the application does not take, ends the connection. */
    predicate Ends(ch: Channel, m: Msg, wrote: bool) {
      live && (m.Close? || (m.Data? && ch == recvCh && !wrote))
    }

    /**
      `answer` says that MsgSelectDownlink, naming the arrival channel, goes out on the new send channel;
      `wrote` whether a write to the application succeeds.
    */
    function Receive(ch: Channel, m: Msg, wrote: bool): ServerOut {
      if !live then ServerOut(this, false, false, false)
      else match m
        case SelectUplink(x) =>
          if sendCh == 0 then ServerOut(this.(sendCh := x, recvCh := ch), true, false, false)
          else if preset && !repaired then ServerOut(this.(sendCh := x, recvCh := ch, repaired := true), true, false, false)
          else ServerOut(this, false, false, false)
        case Status(ok) => ServerOut(Settle(ok), false, false, false)
        case Data(_) =>
          if ch == recvCh && !wrote then ServerOut(Remove(), false, false, true)
          else ServerOut(this, false, ch == recvCh, false)
        case Close => ServerOut(Remove(), false, false, true)
        case Connect => ServerOut(this, false, false, false)
        case SelectDownlink(_) => ServerOut(this, false, false, false)
    }
  }

  datatype ServerOut = ServerOut(next: Server, answer: bool, accepted: bool, closing: bool)

  /** The server's record of a reverse connection. */
  class ServerReverseConn {
    var live: bool
    var sendCh: nat
    var recvCh: nat
    var pairPreset: bool
    var repaired: bool
    var verdict: Verdict

    ghost function View(): Server
      reads this
    {
      Server(live, sendCh, recvCh, pairPreset, repaired, verdict)
    }

    /** Presets both channels from a hot-table entry; a failed unicast does not take them back. */
    constructor (entry: Option<Pair>)
      ensures View() == (if entry.Some? then Server(true, entry.value.down, entry.value.up, true, false, Open)
                         else Server(true, 0, 0, false, false, Open))
    {
      live, sendCh, recvCh, pairPreset, repaired, verdict := true, 0, 0, false, false, Open;
      if entry.Some? {
        sendCh, recvCh, pairPreset := entry.value.down, entry.value.up, true;
      }
    }

    method Settle(ok: bool)
      modifies this
      ensures View() == old(View()).Settle(ok)
    {
      if verdict == Open {
        if ok {
          verdict := Accepted;
        } else {
          verdict, live := Refused, false;
        }
      }
    }

    method Remove()
      modifies this
      ensures View() == old(View()).Remove()
    {
      live := false;
      if verdict == Open {
        verdict := Refused;
      }
    }

    method Receive(ch: Channel, m: Msg, wrote: bool) returns (answer: bool, accepted: bool, closing: bool)
      modifies this
      ensures ServerOut(View(), answer, accepted, closing) == old(View()).Receive(ch, m, wrote)
    {
      answer, accepted, closing := false, false, false;
      if live {
        match m
        case SelectUplink(x) =>
          if sendCh == 0 {
            sendCh, recvCh, answer := x, ch, true;
            return;
          }
          if pairPreset && !repaired {
            repaired := true;
            sendCh, recvCh, answer := x, ch, true;
          }
        case Status(ok) =>
          Settle(ok);
        case Data(_) =>
          if recvCh == ch {
            if wrote {
              accepted := true;
            } else {
              closing := true;
              Remove();
            }
          }
        case Close =>
          closing := true;
          Remove();
        case Connect =>
        case SelectDownlink(_) =>
      }
    }
  }

  // ---------------------------------------------------------------- the connecting client

  datatype Client = Client(present: bool, recvCh: nat, sendCh: nat, dialed: bool)
  {
    /** A close message, or data that the target does not take, ends the connection. */
    predicate Ends(ch: Channel, m: Msg, wrote: bool) {
      present && (m.Close? || (m.Data? && recvCh == ch && dialed && !wrote))
    }

    /**
      `hot` is the client's own Ready pair for the key in the connection ID, if there is one; `wrote` says
      whether a write to the target succeeds.
    */
    function Receive(ch: Channel, m: Msg, hot: Option<Pair>, wrote: bool): ClientOut {
      if !present then
        if !m.Connect? then ClientOut(this, false, false, false)
        else if hot.Some? && hot.value.down == ch then ClientOut(Client(true, ch, hot.value.up, false), false, false, false)
        else ClientOut(Client(true, ch, 0, false), true, false, false)
      else match m
        case SelectDownlink(x) =>
          ClientOut(if recvCh == ch && sendCh == 0 then this.(sendCh := x) else this, false, false, false)
        case Data(_) =>
          if Ends(ch, m, wrote) then ClientOut(this.(present := false), false, false, true)
          else ClientOut(this, false, recvCh == ch && dialed, false)
        case Close => ClientOut(this.(present := false), false, false, true)
        case Connect => ClientOut(this, false, false, false)
        case SelectUplink(_) => ClientOut(this, false, false, false)
        case Status(_) => ClientOut(this, false, false, false)
    }
  }

  /** `announce`: MsgSelectUplink goes out on every channel. `closing`: MsgTCPClose is sent back. */
  datatype ClientOut = ClientOut(next: Client, announce: bool, accepted: bool, closing: bool)

  /** The client's record of a reverse connection, with the entry of the map that holds it. */
  class ReverseConn {
    var present: bool
    var recvCh: nat
    var sendCh: nat
    var dialed: bool

    ghost function View(): Client
      reads this
    {
      Client(present, recvCh, sendCh, dialed)
    }

    constructor ()
      ensures View() == Client(false, 0, 0, false)
    {
      present, recvCh, sendCh, dialed := false, 0, 0, false;
    }

    method Receive(ch: Channel, m: Msg, hot: Option<Pair>, wrote: bool)
      returns (announce: bool, accepted: bool, closing: bool)
      modifies this
      ensures ClientOut(View(), announce, accepted, closing) == old(View()).Receive(ch, m, hot, wrote)
    {
      announce, accepted, closing := false, false, false;
      if !present {
        if m.Connect? {
          present, recvCh, sendCh, dialed := true, ch, 0, false;
          if hot.Some? && ch == hot.value.down {
            sendCh := hot.value.up;
          } else {
            announce := true;
          }
        }
        return;
      }
      match m
      case SelectDownlink(x) =>
        if recvCh == ch && sendCh == 0 {
          sendCh := x;
        }
      case Data(_) =>
        if recvCh == ch && dialed {
          if wrote {
            accepted := true;
          } else {
            present, closing := false, true;
          }
        }
      case Close =>
        present, closing := false, true;
      case Connect =>
      case SelectUplink(_) =>
      case Status(_) =>
    }
  }

  // ---------------------------------------------------------------- both ends and the channels

  datatype Kind = Classic | PresetSent | PresetFailed

  /** `pair` is the hot entry the server dialed with, and the client's pair under the same key. */
  datatype Config = Config(kind: Kind, channels: set<Channel>, pair: Pair)

  ghost predicate ValidConfig(cfg: Config) {
    cfg.pair.up in cfg.channels && cfg.pair.down in cfg.channels
  }

  /**
    `lives` counts client records for this connection ID, `repairs` announcements adopted over channels already
    chosen; `first` is the channel on which the first record was built, `hot` says that it took the pair
    instead of announcing itself.
  */
  datatype State = State(
    cfg: Config, srv: Server, cli: Client, down: Queues, up: Queues,
    sentDown: seq<Payload>, gotDown: seq<Payload>, sentUp: seq<Payload>, gotUp: seq<Payload>,
    asked: bool, repairs: nat, lives: nat, first: nat, hot: bool, lost: bool)

  function Preset(cfg: Config): Server {
    if cfg.kind == Classic then Server(true, 0, 0, false, false, Open)
    else Server(true, cfg.pair.down, cfg.pair.up, true, false, Open)
  }

  function Init(cfg: Config): State {
    State(cfg, Preset(cfg), Client(false, 0, 0, false),
          Send(Empty(cfg.channels), if cfg.kind == PresetSent then cfg.pair.down else 0, Connect), Empty(cfg.channels),
          [], [], [], [], false, 0, 0, 0, false, false)
  }

  datatype Action =
    | ToClient(ch: Channel, hit: bool, wrote: bool)
    | ToServer(ch: Channel, wrote: bool)
    | TargetDialed(ok: bool)
    | ClientReads(payload: Payload)
    | ClientQuits
    | ServerWrites(payload: Payload)
    | ServerQuits
    | LoseUp(ch: Channel)
    | LoseDown(ch: Channel)

  function Apply(s: State, a: Action): State {
    match a
    case ToClient(c, hit, wrote) => if Waiting(s.down, c) then ClientGets(s, c, hit, wrote) else s
    case ToServer(c, wrote) => if Waiting(s.up, c) then ServerGets(s, c, wrote) else s
    case TargetDialed(ok) =>
      if !s.cli.present || s.cli.dialed then s
      else if ok then s.(cli := s.cli.(dialed := true), up := Broadcast(s.up, Status(true)))
      else s.(cli := s.cli.(present := false), up := Broadcast(s.up, Status(false)))
    case ClientReads(p) =>
      if s.cli.present && s.cli.dialed then s.(up := Send(s.up, s.cli.sendCh, Data(p)), sentUp := s.sentUp + [p]) else s
    case ClientQuits =>
      if s.cli.present then s.(up := Send(s.up, s.cli.sendCh, Close), cli := s.cli.(present := false)) else s
    case ServerWrites(p) =>
      if s.srv.live && s.srv.verdict == Accepted then
        s.(down := Send(s.down, s.srv.sendCh, Data(p)), sentDown := s.sentDown + [p])
      else s
    case ServerQuits =>
      if s.srv.live then s.(down := Send(s.down, s.srv.sendCh, Close), srv := s.srv.Remove()) else s
    case LoseUp(c) => if Waiting(s.up, c) then s.(up := Pop(s.up, c), lost := true) else s
    case LoseDown(c) => if Waiting(s.down, c) then s.(down := Pop(s.down, c), lost := true) else s
  }

  function ClientGets(s: State, c: Channel, hit: bool, wrote: bool): State
    requires Waiting(s.down, c)
  {
    var m := Head(s.down, c);
    var out := s.cli.Receive(c, m, if hit && s.cfg.kind != Classic then Some(s.cfg.pair) else None, wrote);
    s.(down := Pop(s.down, c), cli := out.next,
       up := if out.announce then Broadcast(s.up, SelectUplink(c))
             else if out.closing then Send(s.up, s.cli.sendCh, Close)
             else s.up,
       asked := s.asked || out.announce,
       lives := if out.next.present && !s.cli.present then s.lives + 1 else s.lives,
       first := if out.next.present && s.lives == 0 then c else s.first,
       hot := if out.next.present && s.lives == 0 then !out.announce else s.hot,
       gotDown := if out.accepted then s.gotDown + [m.payload] else s.gotDown)
  }

  function ServerGets(s: State, c: Channel, wrote: bool): State
    requires Waiting(s.up, c)
  {
    var m := Head(s.up, c);
    var out := s.srv.Receive(c, m, wrote);
    s.(up := Pop(s.up, c), srv := out.next,
       down := if out.answer then Send(s.down, out.next.sendCh, SelectDownlink(c))
               else if out.closing then Send(s.down, s.srv.sendCh, Close)
               else s.down,
       repairs := if out.answer && s.srv.sendCh != 0 then s.repairs + 1 else s.repairs,
       gotUp := if out.accepted then s.gotUp + [m.payload] else s.gotUp)
  }

  function Run(s: State, acts: seq<Action>): State
    decreases |acts|
  {
    if acts == [] then s else Run(Apply(s, acts[0]), acts[1..])
  }

  // ---------------------------------------------------------------- what is promised

  /** Each end sends where the other receives, as far as both know. */
  ghost predicate Agreement(s: State) {
    s.srv.live && s.cli.present ==>
      && (s.srv.sendCh != 0 ==> s.srv.sendCh == s.cli.recvCh)
      && (s.cli.sendCh != 0 ==> s.cli.sendCh == s.srv.recvCh)
  }

  ghost predicate Streams(s: State) {
    s.gotUp <= s.sentUp && s.gotDown <= s.sentDown
  }

  // ---------------------------------------------------------------- invariant

  /** The server has adopted an announcement. */
  ghost predicate Adopted(s: State) {
    if s.srv.preset then s.srv.repaired else s.srv.sendCh != 0
  }

  ghost predicate Shape(s: State) {
    && ValidConfig(s.cfg)
    && s.up.Keys == s.cfg.channels && s.down.Keys == s.cfg.channels
    && s.srv.preset == (s.cfg.kind != Classic)
    && s.repairs == (if s.srv.repaired then 1 else 0)
    && (s.srv.repaired ==> s.srv.preset)
    && (s.cli.present ==> s.lives > 0)
    && (s.srv.live ==> s.srv.verdict != Refused)
  }

  ghost predicate DownOk(down: Queues, cfg: Config, recvCh: nat, adopted: bool) {
    forall c, i :: c in down && 0 <= i < |down[c]| ==>
      && (down[c][i].Connect? && cfg.kind == PresetSent ==> c == cfg.pair.down)
      && (down[c][i].SelectDownlink? ==> adopted && down[c][i].ch == recvCh)
  }

  ghost predicate UpOk(up: Queues, asked: bool, recvCh: nat, dialed: bool) {
    forall c, i :: c in up && 0 <= i < |up[c]| ==>
      && (up[c][i].SelectUplink? ==> asked && up[c][i].ch == recvCh)
      && (up[c][i] == Status(true) ==> dialed)
  }

  /** No client record yet: the server is as it was when it dialed. */
  ghost predicate Unborn(s: State) {
    && s.cli == Client(false, 0, 0, false)
    && !s.asked && s.sentUp == [] && s.sentDown == []
    && s.srv.verdict != Accepted
    && (forall c :: c in s.up ==> s.up[c] == [])
  }

  ghost predicate Born(s: State) {
    && s.cli.recvCh != 0
    && (s.cfg.kind == PresetSent ==> s.cli.recvCh == s.cfg.pair.down)
    && (s.srv.verdict == Accepted ==> s.cli.dialed)
    && (s.sentDown != [] ==> s.srv.verdict == Accepted)
    && (if Adopted(s) then s.asked && s.srv.sendCh == s.cli.recvCh && s.srv.recvCh != 0 && UnsetOr(s.cli.sendCh, s.srv.recvCh)
        else s.cli.sendCh == if s.asked then 0 else s.cfg.pair.up)
    && (!s.asked ==> s.cfg.kind != Classic && s.cli.recvCh == s.cfg.pair.down)
  }

  ghost predicate Selection(s: State) {
    && s.lives <= 1
    && DownOk(s.down, s.cfg, s.srv.recvCh, Adopted(s))
    && UpOk(s.up, s.asked, s.cli.recvCh, s.cli.dialed)
    && (!Adopted(s) ==> s.srv.sendCh == Preset(s.cfg).sendCh && s.srv.recvCh == Preset(s.cfg).recvCh)
    && (if s.lives == 0 then Unborn(s) && !Adopted(s) else Born(s))
  }

  /** Without losses the announcement reaches the server before anything else the client says. */
  ghost predicate AnnouncedFirst(s: State) {
    s.asked && s.srv.live && !Adopted(s) ==>
      && s.srv.verdict == Open && s.gotUp == []
      && forall c :: c in s.up ==> s.up[c] != [] && s.up[c][0].SelectUplink? && DataOf(s.up[c]) == s.sentUp
  }

  ghost predicate UpStream(s: State) {
    && s.gotUp <= s.sentUp
    && (s.srv.live && (s.asked ==> Adopted(s)) && s.lives == 1 ==>
          s.srv.recvCh in s.up && s.gotUp + DataOf(s.up[s.srv.recvCh]) == s.sentUp)
  }

  ghost predicate DownStream(s: State) {
    && s.gotDown <= s.sentDown
    && (s.lives == 0 ==> forall c :: c in s.down ==> DataOf(s.down[c]) == [])
    && (s.cli.present ==> s.cli.recvCh in s.down && s.gotDown + DataOf(s.down[s.cli.recvCh]) == s.sentDown)
  }

  ghost predicate Inv(s: State) {
    && Shape(s)
    && (s.lives <= 1 ==> Selection(s) && (!s.lost ==> AnnouncedFirst(s) && UpStream(s) && DownStream(s)))
  }

  lemma {:induction false} InitInv(cfg: Config)
    requires ValidConfig(cfg)
    ensures Inv(Init(cfg))
  {
    var s := Init(cfg);
    assert DataOf([Connect]) == [] by { assert [Connect][1..] == []; }
    assert forall c :: c in s.down ==> s.down[c] == [] || s.down[c] == [Connect];
  }

  // ---------------------------------------------------------------- each step keeps it

  lemma {:induction false} PopKeeps(s: State, c: Channel)
    ensures Waiting(s.up, c) && UpOk(s.up, s.asked, s.cli.recvCh, s.cli.dialed) ==>
              UpOk(Pop(s.up, c), s.asked, s.cli.recvCh, s.cli.dialed)
    ensures Waiting(s.down, c) && DownOk(s.down, s.cfg, s.srv.recvCh, Adopted(s)) ==>
              DownOk(Pop(s.down, c), s.cfg, s.srv.recvCh, Adopted(s))
  {
    if Waiting(s.up, c) { assert forall i :: 0 <= i < |s.up[c]| - 1 ==> Pop(s.up, c)[c][i] == s.up[c][i + 1]; }
    if Waiting(s.down, c) { assert forall i :: 0 <= i < |s.down[c]| - 1 ==> Pop(s.down, c)[c][i] == s.down[c][i + 1]; }
  }

  function AfterClientSend(s: State, m: Msg): State {
    s.(up := Send(s.up, s.cli.sendCh, m), sentUp := if m.Data? then s.sentUp + [m.payload] else s.sentUp)
  }

  lemma {:induction false} ClientSendKeepsStreams(s: State, m: Msg)
    requires Inv(s) && s.lives <= 1 && !s.lost && s.cli.present && (m.Data? || m.Close?)
    ensures AnnouncedFirst(AfterClientSend(s, m)) && UpStream(AfterClientSend(s, m))
  {
    var t := AfterClientSend(s, m);
    if s.asked && s.srv.live && !Adopted(s) {
      forall c | c in t.up ensures t.up[c] != [] && t.up[c][0].SelectUplink? && DataOf(t.up[c]) == t.sentUp {
        SendAt(s.up, s.cli.sendCh, m, c);
      }
    } else if s.srv.live {
      SendAt(s.up, s.cli.sendCh, m, s.srv.recvCh);
    }
  }

  lemma {:induction false} SendUpOk(up: Queues, chosen: nat, m: Msg, asked: bool, recvCh: nat, dialed: bool)
    requires UpOk(up, asked, recvCh, dialed) && (m.Data? || m.Close?)
    ensures UpOk(Send(up, chosen, m), asked, recvCh, dialed)
  {
  }

  lemma {:induction false} SendDownOk(down: Queues, chosen: nat, m: Msg, cfg: Config, recvCh: nat, adopted: bool)
    requires DownOk(down, cfg, recvCh, adopted) && (m.Data? || m.Close?)
    ensures DownOk(Send(down, chosen, m), cfg, recvCh, adopted)
  {
  }

  lemma {:induction false} ClientSendSelects(s: State, m: Msg)
    requires Inv(s) && s.lives <= 1 && s.cli.present && (m.Data? || m.Close?)
    ensures Selection(AfterClientSend(s, m))
  {
    SendUpOk(s.up, s.cli.sendCh, m, s.asked, s.cli.recvCh, s.cli.dialed);
  }

  lemma {:induction false} ClientSendKeeps(s: State, m: Msg)
    requires Inv(s) && s.cli.present && (m.Data? || m.Close?)
    ensures Inv(AfterClientSend(s, m))
  {
    var t := AfterClientSend(s, m);
    assert t.up.Keys == s.up.Keys;
    if s.lives <= 1 {
      ClientSendSelects(s, m);
      if !s.lost {
        ClientSendKeepsStreams(s, m);
        assert DownStream(s) && DownStream(t);
      }
    }
  }

  /** A broadcast dial verdict: MsgConnStatus on every channel, after everything sent before. */
  lemma {:induction false} VerdictKeeps(s: State, ok: bool)
    requires Inv(s) && s.cli.present
    ensures Inv(Apply(s, TargetDialed(ok)))
  {
    if !s.cli.dialed {
      var t := Apply(s, TargetDialed(ok));
      assert t.up == Send(s.up, 0, Status(ok));
      assert t.up.Keys == s.up.Keys;
      if s.lives <= 1 {
        assert Selection(t);
        if !s.lost {
          forall c | c in s.up ensures t.up[c] == s.up[c] + [Status(ok)] && DataOf(t.up[c]) == DataOf(s.up[c]) {
            SendAt(s.up, 0, Status(ok), c);
          }
        }
      }
    }
  }

  function AfterServerSend(s: State, m: Msg): State {
    s.(down := Send(s.down, s.srv.sendCh, m), sentDown := if m.Data? then s.sentDown + [m.payload] else s.sentDown)
  }

  lemma {:induction false} ServerSendKeepsDownStream(s: State, m: Msg)
    requires Inv(s) && s.lives <= 1 && !s.lost && s.srv.live && (m.Data? || m.Close?)
    requires m.Data? ==> s.srv.verdict == Accepted
    ensures DownStream(AfterServerSend(s, m))
  {
    var t := AfterServerSend(s, m);
    if s.cli.present {
      SendAt(s.down, s.srv.sendCh, m, s.cli.recvCh);
    }
    if s.lives == 0 {
      forall c | c in t.down ensures DataOf(t.down[c]) == [] {
        SendAt(s.down, s.srv.sendCh, m, c);
      }
    }
  }

  lemma {:induction false} ServerSendSelects(s: State, m: Msg)
    requires Inv(s) && s.lives <= 1 && s.srv.live && (m.Data? || m.Close?)
    requires m.Data? ==> s.srv.verdict == Accepted
    ensures Selection(AfterServerSend(s, m))
  {
    SendDownOk(s.down, s.srv.sendCh, m, s.cfg, s.srv.recvCh, Adopted(s));
  }

  lemma {:induction false} ServerSendKeeps(s: State, m: Msg)
    requires Inv(s) && s.srv.live && (m.Data? || m.Close?)
    requires m.Data? ==> s.srv.verdict == Accepted
    ensures Inv(AfterServerSend(s, m))
  {
    var t := AfterServerSend(s, m);
    assert t.down.Keys == s.down.Keys;
    if s.lives <= 1 {
      ServerSendSelects(s, m);
      if !s.lost {
        ServerSendKeepsDownStream(s, m);
        assert UpStream(s) && UpStream(t);
      }
    }
  }

  lemma {:induction false} QuitKeeps(s: State)
    requires Inv(s)
    ensures Inv(s.(cli := s.cli.(present := false)))
    ensures Inv(s.(srv := s.srv.Remove()))
  {
  }

  lemma {:induction false} LoseKeeps(s: State, c: Channel)
    requires Inv(s)
    ensures Waiting(s.up, c) ==> Inv(s.(up := Pop(s.up, c), lost := true))
    ensures Waiting(s.down, c) ==> Inv(s.(down := Pop(s.down, c), lost := true))
  {
    PopKeeps(s, c);
  }

  lemma {:induction false} BirthKeepsSelection(s: State, c: Channel, hit: bool, wrote: bool)
    requires Inv(s) && s.lives == 0 && Waiting(s.down, c) && Head(s.down, c) == Connect
    ensures Shape(ClientGets(s, c, hit, wrote)) && Selection(ClientGets(s, c, hit, wrote))
    ensures var t := ClientGets(s, c, hit, wrote); forall x :: x in t.up ==> t.up[x] == if t.asked then [SelectUplink(c)] else []
  {
    var t := ClientGets(s, c, hit, wrote);
    PopKeeps(s, c);
    assert s.down[c][0].Connect?;
    assert t.up.Keys == s.up.Keys;
    forall x | x in t.up ensures t.up[x] == if t.asked then [SelectUplink(c)] else [] {
      assert s.up[x] == [];
    }
  }

  /** Streams of a client that has said nothing but, perhaps, its announcement. */
  lemma {:induction false} FreshUpStream(t: State, c: Channel)
    requires t.sentUp == [] && t.gotUp == [] && !Adopted(t) && (t.srv.live ==> t.srv.verdict == Open)
    requires forall x :: x in t.up ==> t.up[x] == if t.asked then [SelectUplink(c)] else []
    requires !t.asked ==> t.srv.recvCh in t.up
    ensures AnnouncedFirst(t) && UpStream(t)
  {
    assert DataOf([SelectUplink(c)]) == [] by { assert [SelectUplink(c)][1..] == []; }
  }

  lemma {:induction false} BirthKeepsUpStream(s: State, c: Channel, hit: bool, wrote: bool)
    requires Inv(s) && s.lives == 0 && !s.lost && Waiting(s.down, c) && Head(s.down, c) == Connect
    ensures AnnouncedFirst(ClientGets(s, c, hit, wrote)) && UpStream(ClientGets(s, c, hit, wrote))
  {
    var t := ClientGets(s, c, hit, wrote);
    BirthKeepsSelection(s, c, hit, wrote);
    assert t.sentUp == [] && t.gotUp == [] && t.srv == s.srv;
    FreshUpStream(t, c);
  }

  lemma {:induction false} BirthKeepsDownStream(s: State, c: Channel, hit: bool, wrote: bool)
    requires Inv(s) && s.lives == 0 && !s.lost && Waiting(s.down, c) && Head(s.down, c) == Connect
    ensures DownStream(ClientGets(s, c, hit, wrote))
  {
    var t := ClientGets(s, c, hit, wrote);
    assert s.down[c][0].Connect?;
    assert t.sentDown == [] && t.gotDown == [] && t.lives == 1 && t.cli.recvCh == c;
  }

  lemma {:induction false} BirthKeeps(s: State, c: Channel, hit: bool, wrote: bool)
    requires Inv(s) && s.lives == 0 && Waiting(s.down, c) && Head(s.down, c) == Connect
    ensures Inv(ClientGets(s, c, hit, wrote))
  {
    BirthKeepsSelection(s, c, hit, wrote);
    if !s.lost {
      BirthKeepsUpStream(s, c, hit, wrote);
      BirthKeepsDownStream(s, c, hit, wrote);
    }
  }

  lemma {:induction false} LaterKeepsSelection(s: State, c: Channel, hit: bool, wrote: bool)
    requires Inv(s) && s.lives <= 1 && Waiting(s.down, c)
    requires ClientGets(s, c, hit, wrote).lives == s.lives && !Head(s.down, c).Close? && !s.cli.Ends(c, Head(s.down, c), wrote)
    ensures Shape(ClientGets(s, c, hit, wrote)) && Selection(ClientGets(s, c, hit, wrote))
  {
    var t := ClientGets(s, c, hit, wrote);
    PopKeeps(s, c);
    assert s.down[c][0] == Head(s.down, c);
    assert t.srv == s.srv && t.up == s.up && t.asked == s.asked && t.cli.recvCh == s.cli.recvCh && t.cli.dialed == s.cli.dialed;
    assert t.cli.sendCh == s.cli.sendCh || (Adopted(s) && t.cli.sendCh == s.srv.recvCh);
  }

  lemma {:induction false} LaterDataKeepsStreams(s: State, c: Channel, hit: bool, wrote: bool)
    requires Inv(s) && s.lives <= 1 && !s.lost && Waiting(s.down, c) && Head(s.down, c).Data?
    requires !s.cli.Ends(c, Head(s.down, c), wrote)
    ensures AnnouncedFirst(ClientGets(s, c, hit, wrote)) && UpStream(ClientGets(s, c, hit, wrote)) && DownStream(ClientGets(s, c, hit, wrote))
  {
    var m := Head(s.down, c);
    var t := ClientGets(s, c, hit, wrote);
    assert s.down[c][0] == m;
    assert DataOf(s.down[c]) == [m.payload] + DataOf(s.down[c][1..]);
    assert t == s.(down := Pop(s.down, c), gotDown := if t.gotDown == s.gotDown then s.gotDown else s.gotDown + [m.payload]);
  }

  lemma {:induction false} LaterSignalKeepsStreams(s: State, c: Channel, hit: bool, wrote: bool)
    requires Inv(s) && s.lives <= 1 && !s.lost && Waiting(s.down, c) && !Head(s.down, c).Data? && !Head(s.down, c).Close?
    requires ClientGets(s, c, hit, wrote).lives == s.lives
    ensures AnnouncedFirst(ClientGets(s, c, hit, wrote)) && UpStream(ClientGets(s, c, hit, wrote)) && DownStream(ClientGets(s, c, hit, wrote))
  {
    var t := ClientGets(s, c, hit, wrote);
    assert s.down[c][0] == Head(s.down, c);
    assert DataOf(s.down[c]) == DataOf(s.down[c][1..]);
    assert t == s.(down := Pop(s.down, c), cli := s.cli.(sendCh := t.cli.sendCh));
  }

  lemma {:induction false} LaterKeepsStreams(s: State, c: Channel, hit: bool, wrote: bool)
    requires Inv(s) && s.lives <= 1 && !s.lost && Waiting(s.down, c)
    requires ClientGets(s, c, hit, wrote).lives == s.lives && !Head(s.down, c).Close? && !s.cli.Ends(c, Head(s.down, c), wrote)
    ensures AnnouncedFirst(ClientGets(s, c, hit, wrote)) && UpStream(ClientGets(s, c, hit, wrote)) && DownStream(ClientGets(s, c, hit, wrote))
  {
    if Head(s.down, c).Data? {
      LaterDataKeepsStreams(s, c, hit, wrote);
    } else {
      LaterSignalKeepsStreams(s, c, hit, wrote);
    }
  }

  lemma {:induction false} LaterKeeps(s: State, c: Channel, hit: bool, wrote: bool)
    requires Inv(s) && Waiting(s.down, c) && ClientGets(s, c, hit, wrote).lives == s.lives <= 1
    requires !Head(s.down, c).Close? && !s.cli.Ends(c, Head(s.down, c), wrote)
    ensures Inv(ClientGets(s, c, hit, wrote))
  {
    LaterKeepsSelection(s, c, hit, wrote);
    if !s.lost {
      LaterKeepsStreams(s, c, hit, wrote);
    }
  }

  /** With more than one record only the shape is kept here. */
  lemma {:induction false} AgainKeeps(s: State, c: Channel, hit: bool, wrote: bool)
    requires Shape(s) && Waiting(s.down, c) && ClientGets(s, c, hit, wrote).lives > 1
    ensures Inv(ClientGets(s, c, hit, wrote))
  {
    assert ClientGets(s, c, hit, wrote).up.Keys == s.up.Keys;
  }

  /** Reading a message that is not data, and doing nothing else, keeps the invariant. */
  lemma {:induction false} SkipKeeps(s: State, c: Channel)
    requires Inv(s) && Waiting(s.down, c) && !Head(s.down, c).Data?
    ensures Inv(s.(down := Pop(s.down, c)))
  {
    var r := s.(down := Pop(s.down, c));
    PopKeeps(s, c);
    assert s.down[c][0] == Head(s.down, c);
    assert DataOf(s.down[c]) == DataOf(s.down[c][1..]);
    if s.lives <= 1 {
      assert Selection(r);
    }
  }

  lemma {:induction false} EndedIs(s: State, c: Channel, hit: bool, wrote: bool)
    requires Waiting(s.down, c) && s.cli.Ends(c, Head(s.down, c), wrote)
    ensures var q := AfterClientSend(s, Close);
            ClientGets(s, c, hit, wrote) == q.(cli := q.cli.(present := false), down := Pop(s.down, c))
  {
  }

  /** Nobody minds what an absent client does not read. */
  lemma {:induction false} AbsentPopKeeps(s: State, c: Channel)
    requires Inv(s) && !s.cli.present && s.lives > 0 && Waiting(s.down, c)
    ensures Inv(s.(down := Pop(s.down, c)))
  {
    PopKeeps(s, c);
    if s.lives <= 1 {
      assert Selection(s.(down := Pop(s.down, c)));
    }
  }

  /** Ending is a reply on the client's send channel and the record's removal. */
  lemma {:induction false} EndedKeeps(s: State, c: Channel, hit: bool, wrote: bool)
    requires Inv(s) && Waiting(s.down, c) && s.cli.Ends(c, Head(s.down, c), wrote)
    ensures Inv(ClientGets(s, c, hit, wrote))
  {
    EndedIs(s, c, hit, wrote);
    ReplyAndQuit(s);
    var q := AfterClientSend(s, Close);
    AbsentPopKeeps(q.(cli := q.cli.(present := false)), c);
  }

  lemma {:induction false} ReplyAndQuit(r: State)
    requires Inv(r) && r.cli.present
    ensures var q := AfterClientSend(r, Close); Inv(q.(cli := q.cli.(present := false)))
  {
    ClientSendKeeps(r, Close);
    QuitKeeps(AfterClientSend(r, Close));
  }

  lemma {:induction false} ClientGetsKeeps(s: State, c: Channel, hit: bool, wrote: bool)
    requires Inv(s) && Waiting(s.down, c)
    ensures Inv(ClientGets(s, c, hit, wrote))
  {
    var t := ClientGets(s, c, hit, wrote);
    if s.cli.Ends(c, Head(s.down, c), wrote) {
      EndedKeeps(s, c, hit, wrote);
    } else if Head(s.down, c).Close? {
      SkipKeeps(s, c);
      assert t == s.(down := Pop(s.down, c));
    } else if s.lives == 0 && Head(s.down, c) == Connect {
      BirthKeeps(s, c, hit, wrote);
    } else if t.lives <= 1 {
      LaterKeeps(s, c, hit, wrote);
    } else {
      AgainKeeps(s, c, hit, wrote);
    }
  }

  /** The first announcement to arrive settles both of the server's channels. */
  lemma {:induction false} AdoptionSelects(s: State, c: Channel, t: State, wrote: bool)
    requires Inv(s) && s.lives <= 1 && Waiting(s.up, c) && Head(s.up, c).SelectUplink? && s.srv.live && !Adopted(s)
    requires t == ServerGets(s, c, wrote)
    ensures Shape(t) && Selection(t)
  {
    PopKeeps(s, c);
    assert s.up[c][0].SelectUplink?;
    assert s.lives == 1 && s.asked;
    assert t.srv == s.srv.(sendCh := s.cli.recvCh, recvCh := c, repaired := s.srv.preset || s.srv.repaired);
    assert t.down == Send(s.down, t.srv.sendCh, SelectDownlink(c));
    AnswerOk(s.down, t.srv.sendCh, s.cfg, s.srv.recvCh, c);
  }

  lemma {:induction false} AnswerOk(down: Queues, chosen: nat, cfg: Config, recvCh: nat, c: Channel)
    requires DownOk(down, cfg, recvCh, false)
    ensures DownOk(Send(down, chosen, SelectDownlink(c)), cfg, c, true)
    ensures Send(down, chosen, SelectDownlink(c)).Keys == down.Keys
  {
  }

  lemma {:induction false} AdoptKeepsSelection(s: State, c: Channel, wrote: bool)
    requires Inv(s) && s.lives <= 1 && Waiting(s.up, c) && Head(s.up, c).SelectUplink?
    ensures Shape(ServerGets(s, c, wrote)) && Selection(ServerGets(s, c, wrote))
  {
    var t := ServerGets(s, c, wrote);
    if s.srv.live && !Adopted(s) {
      AdoptionSelects(s, c, t, wrote);
    } else {
      PopKeeps(s, c);
      assert s.up[c][0].SelectUplink?;
      assert s.lives == 1 && s.asked;
      assert t == s.(up := Pop(s.up, c));
    }
  }

  lemma {:induction false} AdoptKeepsStreams(s: State, c: Channel, wrote: bool)
    requires Inv(s) && s.lives <= 1 && !s.lost && Waiting(s.up, c) && Head(s.up, c).SelectUplink?
    ensures AnnouncedFirst(ServerGets(s, c, wrote)) && UpStream(ServerGets(s, c, wrote)) && DownStream(ServerGets(s, c, wrote))
  {
    var t := ServerGets(s, c, wrote);
    assert s.up[c][0].SelectUplink?;
    assert s.lives == 1;
    assert DataOf(s.up[c]) == DataOf(s.up[c][1..]);
    if s.srv.live && !Adopted(s) {
      assert t.srv.sendCh == s.cli.recvCh by { AdoptKeepsSelection(s, c, wrote); }
      if s.cli.recvCh in s.down {
        SendAt(s.down, s.cli.recvCh, SelectDownlink(c), s.cli.recvCh);
      }
    }
  }

  lemma {:induction false} OtherKeepsSelection(s: State, c: Channel, wrote: bool)
    requires Inv(s) && s.lives <= 1 && Waiting(s.up, c) && !Head(s.up, c).SelectUplink? && !Head(s.up, c).Close?
    requires !s.srv.Ends(c, Head(s.up, c), wrote)
    ensures Shape(ServerGets(s, c, wrote)) && Selection(ServerGets(s, c, wrote))
  {
    var t := ServerGets(s, c, wrote);
    PopKeeps(s, c);
    assert s.up[c][0] == Head(s.up, c);
    assert s.lives == 1;
    assert t.cli == s.cli && t.down == s.down && t.asked == s.asked;
    assert t.srv == s.srv || t.srv == s.srv.Settle(Head(s.up, c).ok);
  }

  lemma {:induction false} DataKeepsStreams(s: State, c: Channel, wrote: bool)
    requires Inv(s) && s.lives <= 1 && !s.lost && Waiting(s.up, c) && Head(s.up, c).Data? && !s.srv.Ends(c, Head(s.up, c), wrote)
    ensures AnnouncedFirst(ServerGets(s, c, wrote)) && UpStream(ServerGets(s, c, wrote)) && DownStream(ServerGets(s, c, wrote))
  {
    var m := Head(s.up, c);
    var t := ServerGets(s, c, wrote);
    assert s.up[c][0] == m;
    assert s.lives == 1;
    assert DataOf(s.up[c]) == [m.payload] + DataOf(s.up[c][1..]);
    assert t == s.(up := Pop(s.up, c), gotUp := if s.srv.live && c == s.srv.recvCh then s.gotUp + [m.payload] else s.gotUp);
  }

  lemma {:induction false} SignalKeepsStreams(s: State, c: Channel, wrote: bool)
    requires Inv(s) && s.lives <= 1 && !s.lost && Waiting(s.up, c)
    requires Head(s.up, c).Status? || Head(s.up, c).Connect? || Head(s.up, c).SelectDownlink?
    ensures AnnouncedFirst(ServerGets(s, c, wrote)) && UpStream(ServerGets(s, c, wrote)) && DownStream(ServerGets(s, c, wrote))
  {
    var m := Head(s.up, c);
    var t := ServerGets(s, c, wrote);
    assert s.up[c][0] == m;
    assert s.lives == 1;
    assert DataOf(s.up[c]) == DataOf(s.up[c][1..]);
    assert t == s.(up := Pop(s.up, c), srv := t.srv);
    assert t.srv == s.srv || (m.Status? && t.srv == s.srv.Settle(m.ok));
  }

  lemma {:induction false} OtherKeepsStreams(s: State, c: Channel, wrote: bool)
    requires Inv(s) && s.lives <= 1 && !s.lost && Waiting(s.up, c) && !Head(s.up, c).SelectUplink? && !Head(s.up, c).Close?
    requires !s.srv.Ends(c, Head(s.up, c), wrote)
    ensures AnnouncedFirst(ServerGets(s, c, wrote)) && UpStream(ServerGets(s, c, wrote)) && DownStream(ServerGets(s, c, wrote))
  {
    if Head(s.up, c).Data? {
      DataKeepsStreams(s, c, wrote);
    } else {
      SignalKeepsStreams(s, c, wrote);
    }
  }

  lemma {:induction false} SkipUpKeeps(s: State, c: Channel)
    requires Inv(s) && Waiting(s.up, c) && Head(s.up, c).Close?
    ensures Inv(s.(up := Pop(s.up, c)))
  {
    PopKeeps(s, c);
    assert s.up[c][0].Close?;
    assert DataOf(s.up[c]) == DataOf(s.up[c][1..]);
    if s.lives <= 1 {
      assert s.lives == 1;
      assert Selection(s.(up := Pop(s.up, c)));
    }
  }

  lemma {:induction false} ServerEndedIs(s: State, c: Channel, wrote: bool)
    requires Waiting(s.up, c) && s.srv.Ends(c, Head(s.up, c), wrote)
    ensures var q := AfterServerSend(s, Close);
            ServerGets(s, c, wrote) == q.(srv := q.srv.Remove(), up := Pop(s.up, c))
  {
  }

  lemma {:induction false} DeadPopKeeps(s: State, c: Channel)
    requires Inv(s) && !s.srv.live && Waiting(s.up, c)
    ensures Inv(s.(up := Pop(s.up, c)))
  {
    PopKeeps(s, c);
    if s.lives <= 1 {
      assert s.up[c] != [];
      assert s.lives == 1;
      assert Selection(s.(up := Pop(s.up, c)));
    }
  }

  lemma {:induction false} ServerReplyAndQuit(s: State)
    requires Inv(s) && s.srv.live
    ensures var q := AfterServerSend(s, Close); Inv(q.(srv := q.srv.Remove()))
  {
    ServerSendKeeps(s, Close);
    QuitKeeps(AfterServerSend(s, Close));
  }

  lemma {:induction false} ServerEndedKeeps(s: State, c: Channel, wrote: bool)
    requires Inv(s) && Waiting(s.up, c) && s.srv.Ends(c, Head(s.up, c), wrote)
    ensures Inv(ServerGets(s, c, wrote))
  {
    ServerEndedIs(s, c, wrote);
    ServerReplyAndQuit(s);
    var q := AfterServerSend(s, Close);
    DeadPopKeeps(q.(srv := q.srv.Remove()), c);
  }

  /** What a message can do to the server's record: adopt over chosen channels once, and only over presets. */
  lemma {:induction false} ServerFrame(srv: Server, c: Channel, m: Msg, wrote: bool)
    ensures var out := srv.Receive(c, m, wrote);
            && out.next.preset == srv.preset
            && (if out.answer && srv.sendCh != 0 then srv.preset && !srv.repaired && out.next.repaired
                else out.next.repaired == srv.repaired)
            && (out.next.live ==> srv.live && (srv.verdict != Refused ==> out.next.verdict != Refused))
  {
  }

  lemma {:induction false} ServerGetsKeepsShape(s: State, c: Channel, wrote: bool)
    requires Shape(s) && Waiting(s.up, c)
    ensures Shape(ServerGets(s, c, wrote)) && ServerGets(s, c, wrote).lives == s.lives && ServerGets(s, c, wrote).lost == s.lost
  {
    ServerFrame(s.srv, c, Head(s.up, c), wrote);
  }

  lemma {:induction false} ServerGetsKeeps(s: State, c: Channel, wrote: bool)
    requires Inv(s) && Waiting(s.up, c)
    ensures Inv(ServerGets(s, c, wrote))
  {
    ServerGetsKeepsShape(s, c, wrote);
    if s.srv.Ends(c, Head(s.up, c), wrote) {
      ServerEndedKeeps(s, c, wrote);
    } else if Head(s.up, c).Close? {
      SkipUpKeeps(s, c);
      assert ServerGets(s, c, wrote) == s.(up := Pop(s.up, c));
    } else if s.lives <= 1 {
      if Head(s.up, c).SelectUplink? {
        AdoptKeepsSelection(s, c, wrote);
        if !s.lost { AdoptKeepsStreams(s, c, wrote); }
      } else {
        OtherKeepsSelection(s, c, wrote);
        if !s.lost { OtherKeepsStreams(s, c, wrote); }
      }
    }
  }

  lemma {:induction false} StepKeeps(s: State, a: Action)
    requires Inv(s)
    ensures Inv(Apply(s, a))
  {
    match a
    case ToClient(c, hit, wrote) => if Waiting(s.down, c) { ClientGetsKeeps(s, c, hit, wrote); }
    case ToServer(c, wrote) => if Waiting(s.up, c) { ServerGetsKeeps(s, c, wrote); }
    case TargetDialed(ok) => if s.cli.present { VerdictKeeps(s, ok); }
    case ClientReads(p) => if s.cli.present { ClientSendKeeps(s, Data(p)); }
    case ClientQuits =>
      if s.cli.present { ReplyAndQuit(s); }
    case ServerWrites(p) => if s.srv.live && s.srv.verdict == Accepted { ServerSendKeeps(s, Data(p)); }
    case ServerQuits =>
      if s.srv.live { ServerReplyAndQuit(s); }
    case LoseUp(c) => LoseKeeps(s, c);
    case LoseDown(c) => LoseKeeps(s, c);
  }

  // ---------------------------------------------------------------- over every run

  lemma {:induction false} RunKeeps(s: State, acts: seq<Action>)
    requires Inv(s)
    ensures Inv(Run(s, acts))
    decreases |acts|
  {
    if acts != [] {
      StepKeeps(s, acts[0]);
      RunKeeps(Apply(s, acts[0]), acts[1..]);
    }
  }

  /**
    While the client has built one record, and whatever is dropped: two living ends agree exactly unless the
    preset unicast failed, the client took a broadcast copy from another channel than the preset one, and
    the server has not adopted the client's announcement yet. Without drops an accepted dial always agrees.
  */
  lemma {:induction false} EndsAgree(cfg: Config, acts: seq<Action>)
    requires ValidConfig(cfg)
    ensures var s := Run(Init(cfg), acts);
            s.lives <= 1 && s.srv.live && s.cli.present ==>
              (Agreement(s) <==> cfg.kind != PresetFailed || s.srv.repaired || s.cli.recvCh == cfg.pair.down)
    ensures var s := Run(Init(cfg), acts);
            s.lives <= 1 && (cfg.kind != PresetFailed || (!s.lost && s.srv.verdict == Accepted)) ==> Agreement(s)
  {
    InitInv(cfg);
    RunKeeps(Init(cfg), acts);
    KindIsKept(Init(cfg), acts);
  }

  lemma {:induction false} KindIsKept(s: State, acts: seq<Action>)
    ensures Run(s, acts).cfg == s.cfg
    decreases |acts|
  {
    if acts != [] {
      KindIsKept(Apply(s, acts[0]), acts[1..]);
    }
  }

  /**
    Channels once chosen are replaced at most once, whatever arrives, and only those of a preset. `repairs`
    counts every announcement that is adopted over chosen channels.
  */
  lemma {:induction false} RepairsAtMostOnce(cfg: Config, acts: seq<Action>)
    requires ValidConfig(cfg)
    ensures Run(Init(cfg), acts).repairs <= 1
    ensures cfg.kind == Classic ==> Run(Init(cfg), acts).repairs == 0
  {
    InitInv(cfg);
    RunKeeps(Init(cfg), acts);
    KindIsKept(Init(cfg), acts);
  }

  /** A server that has chosen, and has no repair left. */
  predicate Chosen(srv: Server) {
    srv.sendCh != 0 && (srv.preset ==> srv.repaired)
  }

  lemma {:induction false} StepStaysPut(s: State, a: Action)
    requires Chosen(s.srv)
    ensures var t := Apply(s, a); Chosen(t.srv) && t.srv.sendCh == s.srv.sendCh && t.srv.recvCh == s.srv.recvCh
  {
  }

  /** From then on, whatever arrives, the server's channels never change again. */
  lemma {:induction false} AdoptionIsFinal(s: State, acts: seq<Action>)
    requires Chosen(s.srv)
    ensures var t := Run(s, acts); t.srv.sendCh == s.srv.sendCh && t.srv.recvCh == s.srv.recvCh
    decreases |acts|
  {
    if acts != [] {
      StepStaysPut(s, acts[0]);
      AdoptionIsFinal(Apply(s, acts[0]), acts[1..]);
    }
  }

  /** Across selection, preset and repair, each end accepts a prefix of what the other sent. */
  lemma {:induction false} StreamsAreKept(cfg: Config, acts: seq<Action>)
    requires ValidConfig(cfg)
    ensures var s := Run(Init(cfg), acts); s.lives <= 1 && !s.lost ==> Streams(s)
  {
    InitInv(cfg);
    RunKeeps(Init(cfg), acts);
  }

  /** Nothing is left behind: once the queues are empty, living ends have accepted everything. */
  lemma {:induction false} QuietEndsHaveEverything(cfg: Config, acts: seq<Action>)
    requires ValidConfig(cfg)
    requires var s := Run(Init(cfg), acts);
             s.lives <= 1 && !s.lost && (forall c :: c in s.up ==> s.up[c] == []) && (forall c :: c in s.down ==> s.down[c] == [])
    ensures var s := Run(Init(cfg), acts); s.srv.live ==> s.gotUp == s.sentUp
    ensures var s := Run(Init(cfg), acts); s.cli.present ==> s.gotDown == s.sentDown
  {
    InitInv(cfg);
    RunKeeps(Init(cfg), acts);
  }

  // ---------------------------------------------------------------- a failed preset unicast is the weak spot

  ghost predicate Reaches(cfg: Config, s: State) {
    exists acts :: Run(Init(cfg), acts) == s
  }

  lemma {:induction false} RunAppend(s: State, acts: seq<Action>, a: Action)
    ensures Run(s, acts + [a]) == Apply(Run(s, acts), a)
    decreases |acts|
  {
    if acts == [] {
      assert [] + [a] == [a];
    } else {
      assert (acts + [a])[1..] == acts[1..] + [a];
      RunAppend(Apply(s, acts[0]), acts[1..], a);
    }
  }

  lemma {:induction false} ReachesNext(cfg: Config, s: State, a: Action)
    requires Reaches(cfg, s)
    ensures Reaches(cfg, Apply(s, a))
  {
    var acts :| Run(Init(cfg), acts) == s;
    RunAppend(Init(cfg), acts, a);
  }

  const FallenBack := Config(PresetFailed, {1, 2}, Pair(1, 2))

  /** The broadcast copy on channel 1 arrives first: the client answers with receive channel 1, the preset says 2. */
  lemma {:induction false} AnsweredElsewhere() returns (s: State)
    ensures Reaches(FallenBack, s) && s.lives == 1 && !s.lost && s.cfg == FallenBack
    ensures s.cli == Client(true, 1, 0, false) && s.srv == Preset(FallenBack)
    ensures 1 in s.up && s.up[1] == [SelectUplink(1)]
    ensures !Agreement(s)
  {
    var s0 := Init(FallenBack);
    assert Run(s0, []) == s0;
    assert 1 in s0.down && s0.down[1] == [Connect] && 1 in s0.up && s0.up[1] == [];
    s := Apply(s0, ToClient(1, true, true));
    ReachesNext(FallenBack, s0, ToClient(1, true, true));
  }

  /** If that announcement is dropped, the dial is accepted while the server still sends where nobody listens. */
  lemma {:induction false} FailedPresetNeedsItsAnnouncement()
    ensures exists s :: Reaches(FallenBack, s) && s.lives == 1 && s.srv.verdict == Accepted && !Agreement(s)
  {
    var s1 := AnsweredElsewhere();
    var s2 := Apply(s1, LoseUp(1));
    ReachesNext(FallenBack, s1, LoseUp(1));
    var s3 := Apply(s2, TargetDialed(true));
    ReachesNext(FallenBack, s2, TargetDialed(true));
    assert s3.up[1] == [Status(true)];
    ReachesNext(FallenBack, s3, ToServer(1, true));
    assert !Agreement(Apply(s3, ToServer(1, true)));
  }
}
