/**
  Forward channel selection for one connection ID: both endpoints, every channel, every interleaving.

  The client opens a connection by sending MsgTCPConnect (or, for a prebind race, MsgPrebindRequest).
  The server takes the channel of the first copy as the uplink and announces it on every channel; the
  client takes the channel of the first announcement as the downlink and answers over the uplink. Until
  an end knows its sending channel it broadcasts. With a hot pair the client presets the uplink, and a
  server that still holds the pair's table entry presets the downlink and announces nothing.
*/
module Forward {
  import opened Link

  // ---------------------------------------------------------------- the client's connection state

  /** `bare` says that the connection ID is a bare prebind key, so a choice is reported as a race result. */
  datatype Client = Client(
    registered: bool, bare: bool, target: string, uplink: nat, downlink: nat, pair: Option<Pair>)
  {
    function NoteUplink(ch: Channel): Client {
      if registered && uplink == 0 then this.(uplink := ch) else this
    }

    /** A prebind race gives way on its own uplink, so that the two directions use two channels. */
    predicate GivesWay(ch: Channel) {
      target == PREBIND_TARGET && uplink > 0 && ch == uplink
    }

    function SelectDownlink(ch: Channel): Choice {
      if !registered || target == "" then Choice(this, 0, false)
      else if downlink > 0 then Choice(this, downlink, false)
      else if pair.Some? then Choice(this.(downlink := pair.value.down), pair.value.down, true)
      else if GivesWay(ch) then Choice(this, 0, false)
      else Choice(this.(downlink := ch), ch, true)
    }

    function Unregister(): Client {
      this.(registered := false)
    }

    /** `wrote` says whether a write to the application's connection succeeds. */
    function Receive(ch: Channel, m: Msg, wrote: bool): ClientOut {
      match m
      case SelectUplink(u) =>
        var choice := NoteUplink(u).SelectDownlink(ch);
        if choice.selected then
          ClientOut(choice.next, Some(Letter(u, Msg.SelectDownlink(choice.chosen))), false,
                    if bare then Some(Pair(u, choice.chosen)) else None)
        else ClientOut(choice.next, None, false, None)
      case Data(_) =>
        var choice := if registered && downlink > 0 then Choice(this, downlink, false) else SelectDownlink(ch);
        if choice.chosen != ch then ClientOut(choice.next, None, false, None)
        else if bare || !wrote then ClientOut(choice.next.Unregister(), Some(Letter(ch, Close)), false, None)
        else ClientOut(choice.next, None, true, None)
      case Close => ClientOut(NoteUplink(ch).Unregister(), None, false, None)
      case Status(ok) => ClientOut(if ok then this else Unregister(), None, false, None)
      case Connect => ClientOut(this, None, false, None)
      case SelectDownlink(_) => ClientOut(this, None, false, None)
    }
  }

  datatype Choice = Choice(next: Client, chosen: nat, selected: bool)

  datatype Letter = Letter(ch: Channel, msg: Msg)

  datatype ClientOut = ClientOut(next: Client, reply: Option<Letter>, accepted: bool, result: Option<Pair>)

  /** The client's connection record, updated in place by the channel readers. */
  class ClientConn {
    var registered: bool
    const bare: bool
    const target: string
    var uplink: nat
    var downlink: nat
    var pair: Option<Pair>

    ghost function View(): Client
      reads this
    {
      Client(registered, bare, target, uplink, downlink, pair)
    }

    constructor (bare: bool, target: string)
      ensures View() == Client(true, bare, target, 0, 0, None)
    {
      this.bare, this.target := bare, target;
      registered, uplink, downlink, pair := true, 0, 0, None;
    }

    /**
      Presets the pair and unicasts; if that fails the preset is taken back and the opening is broadcast. A
      broadcast that reaches no channel unregisters the connection.
    */
    method Dial(hot: Option<Pair>, sent: bool, reached: bool)
      modifies this
      ensures View() == if hot.Some? && sent then old(View()).(pair := hot, uplink := hot.value.up)
                        else if hot.Some? then old(View()).(pair := None, uplink := 0, registered := old(registered) && reached)
                        else old(View()).(registered := old(registered) && reached)
    {
      if hot.Some? {
        pair, uplink := hot, hot.value.up;
        if sent {
          return;
        }
        pair, uplink := None, 0;
      }
      if !reached {
        registered := false;
      }
    }

    method NoteUplink(ch: Channel)
      modifies this
      ensures View() == old(View()).NoteUplink(ch)
    {
      if registered && uplink == 0 {
        uplink := ch;
      }
    }

    method SelectDownlink(ch: Channel) returns (chosen: nat, selected: bool)
      modifies this
      ensures Choice(View(), chosen, selected) == old(View()).SelectDownlink(ch)
    {
      chosen, selected := 0, false;
      if !registered || target == "" {
        return;
      }
      if pair.Some? {
        if downlink == 0 {
          downlink, selected := pair.value.down, true;
        }
        return downlink, selected;
      }
      chosen := downlink;
      if chosen == 0 && !(target == PREBIND_TARGET && uplink > 0 && ch == uplink) {
        downlink, chosen, selected := ch, ch, true;
      }
    }

    method Receive(ch: Channel, m: Msg, wrote: bool)
      returns (reply: Option<Letter>, accepted: bool, result: Option<Pair>)
      modifies this
      ensures ClientOut(View(), reply, accepted, result) == old(View()).Receive(ch, m, wrote)
    {
      reply, accepted, result := None, false, None;
      match m
      case SelectUplink(u) =>
        NoteUplink(u);
        var chosen, selected := SelectDownlink(ch);
        if selected {
          reply := Some(Letter(u, Msg.SelectDownlink(chosen)));
          if bare {
            result := Some(Pair(u, chosen));
          }
        }
      case Data(_) =>
        var chosen := downlink;
        if chosen == 0 || !registered {
          var selected: bool;
          chosen, selected := SelectDownlink(ch);
        }
        if chosen == ch {
          if bare || !wrote {
            reply := Some(Letter(ch, Msg.Close));
            registered := false;
          } else {
            accepted := true;
          }
        }
      case Close =>
        NoteUplink(ch);
        registered := false;
      case Status(ok) =>
        if !ok {
          registered := false;
        }
      case Connect =>
      case SelectDownlink(_) =>
    }
  }

  // ---------------------------------------------------------------- the server's connection state

  datatype Server = Server(live: bool, uplink: nat, downlink: nat, serving: bool)
  {
    /** `hot` is the usable hot-table entry for this connection ID, if the lookup gave one. */
    function Receive(ch: Channel, m: Msg, hot: Option<Pair>, alive: bool, room: bool): ServerOut {
      match m
      case Connect =>
        if live then ServerOut(this, false, false)
        else if hot.Some? && hot.value.up == ch then
          ServerOut(Server(true, ch, hot.value.down, false), false, false)
        else ServerOut(Server(true, ch, 0, false), true, false)
      case Data(_) =>
        if !live || ch != uplink then ServerOut(this, false, false)
        else if room then ServerOut(this, false, true)
        else ServerOut(this.(live := false), false, false)
      case SelectDownlink(d) =>
        if live && alive && ch == uplink && downlink == 0 then ServerOut(this.(downlink := d), false, false)
        else ServerOut(this, false, false)
      case Close => ServerOut(this.(live := false), false, false)
      case SelectUplink(_) => ServerOut(this, false, false)
      case Status(_) => ServerOut(this, false, false)
    }
  }

  /** `announce`: MsgSelectUplink goes out on every channel. `accepted`: the payload was buffered or written. */
  datatype ServerOut = ServerOut(next: Server, announce: bool, accepted: bool)

  /** The server's connection record, with the entry of the connection map that holds it. */
  class ServerConn {
    var live: bool
    var uplink: nat
    var downlink: nat
    var serving: bool

    ghost function View(): Server
      reads this
    {
      Server(live, uplink, downlink, serving)
    }

    constructor ()
      ensures View() == Server(false, 0, 0, false)
    {
      live, uplink, downlink, serving := false, 0, 0, false;
    }

    method Receive(ch: Channel, m: Msg, hot: Option<Pair>, alive: bool, room: bool)
      returns (announce: bool, accepted: bool)
      modifies this
      ensures ServerOut(View(), announce, accepted) == old(View()).Receive(ch, m, hot, alive, room)
    {
      announce, accepted := false, false;
      match m
      case Connect =>
        if !live {
          live, uplink, downlink, serving := true, ch, 0, false;
          if hot.Some? && hot.value.up == ch {
            downlink := hot.value.down;
          } else {
            announce := true;
          }
        }
      case Data(_) =>
        if live && ch == uplink {
          if room {
            accepted := true;
          } else {
            live := false;
          }
        }
      case SelectDownlink(d) =>
        if live && alive && ch == uplink && downlink == 0 {
          downlink := d;
        }
      case Close =>
        live := false;
      case SelectUplink(_) =>
      case Status(_) =>
    }
  }

  // ---------------------------------------------------------------- both ends and the channels

  /** How the client opened the connection; `HotFailed` is the broadcast that follows a failed hot send. */
  datatype Kind = Classic | HotSent | HotFailed | Prebind

  /** `entry` is what the server's hot table holds under the connection's key, if anything. */
  datatype Config = Config(kind: Kind, channels: set<Channel>, target: string, pair: Pair, entry: Option<Pair>)

  /** A table entry comes from the client's own notification, so it names the pair's channels. */
  ghost predicate ValidConfig(cfg: Config) {
    && cfg.pair.up in cfg.channels && cfg.pair.down in cfg.channels
    && (cfg.entry.Some? ==> cfg.entry.value == cfg.pair)
  }

  /**
    `lives` counts how often the server created a record for this connection ID, `offers` the uplinks it
    announced, `results` the race results the client reported; `lost` says that some message was dropped.
    `took` is what the current server record has accepted; `strayed` says that the client wrote after it had
    unregistered with an uplink noted, `asides` on which channels the server unicast data.
  */
  datatype State = State(
    cfg: Config, cli: Client, srv: Server, up: Queues, down: Queues,
    sentUp: seq<Payload>, gotUp: seq<Payload>, sentDown: seq<Payload>, gotDown: seq<Payload>,
    offers: seq<Channel>, results: seq<Pair>, lives: nat, lost: bool,
    took: seq<Payload>, strayed: bool, asides: set<nat>)

  function Init(cfg: Config): State {
    var hot := cfg.kind == HotSent;
    var cli := Client(true, cfg.kind == Prebind, if cfg.kind == Prebind then PREBIND_TARGET else cfg.target, if hot then cfg.pair.up else 0, 0,
                      if hot then Some(cfg.pair) else None);
    State(cfg, cli, Server(false, 0, 0, false), Send(Empty(cfg.channels), cli.uplink, Connect), Empty(cfg.channels),
          [], [], [], [], [], [], 0, false, [], false, {})
  }

  /**
    One step of the system. `hit`, `alive` and `room` settle what the environment decides: whether the hot
    table still answers, whether the chosen downlink is still open, whether the pending buffer has room.
  */
  datatype Action =
    | Write(payload: Payload)
    | CloseWrite
    | ClientClose
    | ClientForget
    | ToServer(ch: Channel, hit: bool, alive: bool, room: bool)
    | ToClient(ch: Channel, wrote: bool)
    | TargetDialed(ok: bool)
    | Forwarded(payload: Payload)
    | Retire
    | LoseUp(ch: Channel)
    | LoseDown(ch: Channel)

  function HotEntry(cfg: Config, hit: bool): Option<Pair> {
    if hit && (cfg.kind == HotSent || cfg.kind == HotFailed) && cfg.entry.Some? && cfg.entry.value.down in cfg.channels
    then cfg.entry else None
  }

  function ClientSends(s: State, m: Msg): Queues {
    Send(s.up, if s.cli.registered then s.cli.uplink else 0, m)
  }

  function Apply(s: State, a: Action): State {
    match a
    case Write(p) =>
      s.(up := ClientSends(s, Data(p)), sentUp := s.sentUp + [p],
         strayed := s.strayed || (!s.cli.registered && s.cli.uplink != 0))
    // half-closing sends MsgTCPClose and stays registered
    case CloseWrite => s.(up := ClientSends(s, Close))
    case ClientClose => s.(up := ClientSends(s, Close), cli := s.cli.Unregister())
    case ClientForget => s.(cli := s.cli.Unregister())
    case ToServer(c, hit, alive, room) => if Waiting(s.up, c) then ServerGets(s, c, hit, alive, room) else s
    case ToClient(c, wrote) => if Waiting(s.down, c) then ClientGets(s, c, wrote) else s
    case TargetDialed(ok) =>
      if !s.srv.live || s.srv.serving || s.cfg.kind == Prebind then s
      else if ok then s.(srv := s.srv.(serving := true), down := Send(s.down, s.srv.downlink, Status(true)))
      else s.(srv := s.srv.(live := false),
              down := Send(Send(s.down, s.srv.downlink, Status(false)), s.srv.downlink, Close))
    case Forwarded(p) =>
      if s.srv.live && s.srv.serving then
        s.(down := Send(s.down, s.srv.downlink, Data(p)), sentDown := s.sentDown + [p],
           asides := if s.srv.downlink == 0 then s.asides else s.asides + {s.srv.downlink})
      else s
    case Retire => s.(srv := s.srv.(live := false))
    case LoseUp(c) => if Waiting(s.up, c) then s.(up := Pop(s.up, c), lost := true) else s
    case LoseDown(c) => if Waiting(s.down, c) then s.(down := Pop(s.down, c), lost := true) else s
  }

  function ServerGets(s: State, c: Channel, hit: bool, alive: bool, room: bool): State
    requires Waiting(s.up, c)
  {
    var m := Head(s.up, c);
    var out := s.srv.Receive(c, m, HotEntry(s.cfg, hit), alive, room);
    s.(up := Pop(s.up, c), srv := out.next,
       down := if out.announce then Broadcast(s.down, SelectUplink(c)) else s.down,
       offers := if out.announce then s.offers + [c] else s.offers,
       lives := if out.next.live && !s.srv.live then s.lives + 1 else s.lives,
       took := if out.next.live && !s.srv.live then [] else if out.accepted then s.took + [m.payload] else s.took,
       gotUp := if out.accepted then s.gotUp + [m.payload] else s.gotUp)
  }

  function ClientGets(s: State, c: Channel, wrote: bool): State
    requires Waiting(s.down, c)
  {
    var m := Head(s.down, c);
    var out := s.cli.Receive(c, m, wrote);
    s.(down := Pop(s.down, c), cli := out.next,
       up := if out.reply.Some? then Post(s.up, out.reply.value.ch, out.reply.value.msg) else s.up,
       results := if out.result.Some? then s.results + [out.result.value] else s.results,
       gotDown := if out.accepted then s.gotDown + [m.payload] else s.gotDown)
  }

  function Run(s: State, acts: seq<Action>): State
    decreases |acts|
  {
    if acts == [] then s else Run(Apply(s, acts[0]), acts[1..])
  }

  // ---------------------------------------------------------------- what is promised

  /** Two ends that both hold a channel for a direction hold the same one. */
  ghost predicate Agreement(s: State) {
    s.cli.registered && s.srv.live ==>
      && (s.cli.uplink != 0 ==> s.cli.uplink == s.srv.uplink)
      && (s.cli.downlink != 0 && s.srv.downlink != 0 ==> s.cli.downlink == s.srv.downlink)
  }

  /** Each end has accepted a prefix of what the other sent: in order, no gap, no duplicate. */
  ghost predicate Streams(s: State) {
    s.gotUp <= s.sentUp && s.gotDown <= s.sentDown
  }

  /** One announced uplink, at most one race result, and a result never uses one channel both ways. */
  ghost predicate Race(s: State) {
    && |s.offers| <= 1
    && (forall r :: r in s.results ==> r.up != r.down && s.offers == [r.up])
  }

  // ---------------------------------------------------------------- invariant

  /** Facts that hold in every run, whatever is dropped and however often the server record is rebuilt. */
  ghost predicate Shape(s: State) {
    && ValidConfig(s.cfg)
    && s.up.Keys == s.cfg.channels && s.down.Keys == s.cfg.channels
    && s.cli.bare == (s.cfg.kind == Prebind)
    && (s.cfg.kind == Prebind ==> s.cli.target == PREBIND_TARGET)
    && s.cli.pair == (if s.cfg.kind == HotSent then Some(s.cfg.pair) else None)
    && |s.results| <= 1
    && (s.results != [] ==> s.cli.downlink != 0)
    && (s.srv.live ==> s.lives > 0)
  }

  /** Opening messages of a hot dial use the pair's uplink; every reported downlink is the client's own. */
  ghost predicate UpOk(up: Queues, cfg: Config, downlink: nat) {
    forall c, i :: c in up && 0 <= i < |up[c]| ==>
      && (up[c][i].Connect? && cfg.kind == HotSent ==> c == cfg.pair.up)
      && (up[c][i].SelectDownlink? ==> up[c][i].ch == downlink)
  }

  /** Every announcement in flight carries the announced uplink; without one, data uses the preset downlink. */
  ghost predicate DownOk(down: Queues, offers: seq<Channel>, downlink: nat) {
    forall c, i :: c in down && 0 <= i < |down[c]| ==>
      && (down[c][i].SelectUplink? ==> offers == [down[c][i].ch])
      && (down[c][i].Data? && offers == [] ==> c == downlink)
  }

  /** Nothing has reached the server yet. */
  ghost predicate Unborn(s: State) {
    && s.srv == Server(false, 0, 0, false)
    && s.cli.uplink == (if s.cfg.kind == HotSent then s.cfg.pair.up else 0)
    && s.cli.downlink == 0
    && s.offers == [] && s.sentDown == []
    && (forall c :: c in s.down ==> s.down[c] == [])
  }

  /** The server's first record exists or has existed: it was either promoted or announced. */
  ghost predicate Born(s: State) {
    && s.srv.uplink != 0
    && (s.cfg.kind == HotSent ==> s.srv.uplink == s.cfg.pair.up && UnsetOr(s.cli.downlink, s.cfg.pair.down))
    && (s.cli.registered ==> UnsetOr(s.cli.uplink, s.srv.uplink))
    && (if s.offers == [] then s.srv.downlink == s.cfg.pair.down && UnsetOr(s.cli.downlink, s.srv.downlink)
        else s.offers == [s.srv.uplink] && UnsetOr(s.srv.downlink, s.cli.downlink))
  }

  ghost predicate Selection(s: State) {
    && s.lives <= 1
    && UpOk(s.up, s.cfg, s.cli.downlink) && DownOk(s.down, s.offers, s.srv.downlink)
    && (if s.lives == 0 then Unborn(s) else Born(s))
    && (forall r :: r in s.results ==> r.up != r.down && s.offers == [r.up])
  }

  /** The channels on which the client sent its opening message. */
  ghost predicate Opened(s: State, c: Channel) {
    c in s.up && (s.cfg.kind == HotSent ==> c == s.cfg.pair.up)
  }

  /** The channels the client may still choose as its downlink. */
  ghost predicate Eligible(s: State, c: Channel) {
    c in s.down && s.cli.target != "" && (s.cli.pair.Some? || !s.cli.GivesWay(c)) && UnsetOr(s.srv.downlink, c)
  }

  /** Without losses, nothing that was sent is missing: it was accepted or still waits on the channel that counts. */
  ghost predicate UpStream(s: State) {
    && s.gotUp <= s.sentUp
    && (s.lives == 0 ==>
          s.gotUp == [] && forall c :: Opened(s, c) ==> s.up[c] != [] && s.up[c][0] == Connect && DataOf(s.up[c]) == s.sentUp)
    && (s.srv.live ==> s.srv.uplink in s.up && s.gotUp + DataOf(s.up[s.srv.uplink]) == s.sentUp)
  }

  ghost predicate DownStream(s: State) {
    && s.gotDown <= s.sentDown
    && (s.cli.registered && s.cli.downlink != 0 ==>
          s.cli.downlink in s.down && s.gotDown + DataOf(s.down[s.cli.downlink]) == s.sentDown)
    && (s.cli.registered && s.cli.downlink == 0 ==>
          s.gotDown == [] && forall c :: Eligible(s, c) ==> DataOf(s.down[c]) == s.sentDown)
  }

  ghost predicate Inv(s: State) {
    && Shape(s)
    && (s.lives <= 1 ==> Selection(s) && (!s.lost ==> UpStream(s) && DownStream(s)))
  }

  lemma {:induction false} InitInv(cfg: Config)
    requires ValidConfig(cfg)
    ensures Inv(Init(cfg))
  {
    var s := Init(cfg);
    forall c | c in s.up ensures Opened(s, c) ==> s.up[c] == [Connect] {}
    assert DataOf([Connect]) == [] by { assert [Connect][1..] == []; }
  }

  // ---------------------------------------------------------------- each step keeps it

  function AfterClientSend(s: State, m: Msg): State {
    s.(up := ClientSends(s, m), sentUp := if m.Data? then s.sentUp + [m.payload] else s.sentUp)
  }

  lemma {:induction false} ClientSendKeepsUpStream(s: State, m: Msg)
    requires Inv(s) && s.lives <= 1 && !s.lost && (m.Data? || m.Close?)
    ensures UpStream(AfterClientSend(s, m))
  {
    var chosen := if s.cli.registered then s.cli.uplink else 0;
    var t := AfterClientSend(s, m);
    if s.lives == 0 {
      forall c | Opened(t, c) ensures t.up[c] != [] && t.up[c][0] == Connect && DataOf(t.up[c]) == t.sentUp {
        assert Opened(s, c);
        SendAt(s.up, chosen, m, c);
      }
    } else if s.srv.live {
      SendAt(s.up, chosen, m, s.srv.uplink);
    }
  }

  lemma {:induction false} ClientSendKeeps(s: State, m: Msg)
    requires Inv(s) && (m.Data? || m.Close?)
    ensures Inv(AfterClientSend(s, m))
  {
    var t := AfterClientSend(s, m);
    assert t.up.Keys == s.up.Keys;
    if s.lives <= 1 {
      ClientSendSelects(s, m);
      if !s.lost {
        ClientSendKeepsUpStream(s, m);
        assert forall c :: Eligible(t, c) ==> Eligible(s, c);
        assert DownStream(t);
      }
    }
  }

  lemma {:induction false} ClientSendSelects(s: State, m: Msg)
    requires Inv(s) && s.lives <= 1 && (m.Data? || m.Close?)
    ensures Selection(AfterClientSend(s, m))
  {
  }

  lemma {:induction false} DownOkSend(down: Queues, offers: seq<Channel>, downlink: nat, m: Msg)
    requires DownOk(down, offers, downlink) && !m.SelectUplink?
    requires offers == [] ==> downlink != 0
    ensures DownOk(Send(down, downlink, m), offers, downlink)
  {
  }

  lemma {:induction false} ServerSendKeeps(s: State, m: Msg)
    requires Inv(s) && s.srv.live && (m.Data? || m.Close? || m.Status?)
    ensures Inv(s.(down := Send(s.down, s.srv.downlink, m), sentDown := if m.Data? then s.sentDown + [m.payload] else s.sentDown))
  {
    var t := s.(down := Send(s.down, s.srv.downlink, m), sentDown := if m.Data? then s.sentDown + [m.payload] else s.sentDown);
    assert t.down.Keys == s.down.Keys;
    if s.lives <= 1 {
      DownOkSend(s.down, s.offers, s.srv.downlink, m);
      assert Selection(t);
    }
    if s.lives <= 1 && !s.lost {
      assert forall c :: Opened(t, c) ==> Opened(s, c);
      assert UpStream(t);
      if s.cli.registered && s.cli.downlink != 0 {
        SendAt(s.down, s.srv.downlink, m, s.cli.downlink);
      }
      forall c | Eligible(t, c) && s.cli.registered && s.cli.downlink == 0 ensures DataOf(t.down[c]) == t.sentDown {
        assert Eligible(s, c);
        SendAt(s.down, s.srv.downlink, m, c);
      }
    }
  }

  lemma {:induction false} ForgetKeeps(s: State)
    requires Inv(s)
    ensures Inv(s.(cli := s.cli.Unregister()))
    ensures Inv(s.(srv := s.srv.(live := false)))
  {
    var t, t' := s.(cli := s.cli.Unregister()), s.(srv := s.srv.(live := false));
    assert forall c :: (Opened(t, c) ==> Opened(s, c)) && (Opened(t', c) ==> Opened(s, c));
    assert forall c :: Eligible(t', c) ==> Eligible(s, c);
  }

  lemma {:induction false} LoseKeeps(s: State, c: Channel)
    requires Inv(s)
    ensures Waiting(s.up, c) ==> Inv(s.(up := Pop(s.up, c), lost := true))
    ensures Waiting(s.down, c) ==> Inv(s.(down := Pop(s.down, c), lost := true))
  {
    PopKeeps(s, c);
  }

  lemma {:induction false} PopKeeps(s: State, c: Channel)
    ensures Waiting(s.up, c) && UpOk(s.up, s.cfg, s.cli.downlink) ==> UpOk(Pop(s.up, c), s.cfg, s.cli.downlink)
    ensures Waiting(s.down, c) && DownOk(s.down, s.offers, s.srv.downlink) ==> DownOk(Pop(s.down, c), s.offers, s.srv.downlink)
  {
    if Waiting(s.up, c) { assert forall i :: 0 <= i < |s.up[c]| - 1 ==> Pop(s.up, c)[c][i] == s.up[c][i + 1]; }
    if Waiting(s.down, c) { assert forall i :: 0 <= i < |s.down[c]| - 1 ==> Pop(s.down, c)[c][i] == s.down[c][i + 1]; }
  }

  /** The first opening message to arrive creates the server's record and settles the uplink. */
  lemma {:induction false} BirthKeepsSelection(s: State, c: Channel, hit: bool, alive: bool, room: bool)
    requires Inv(s) && s.lives == 0 && Waiting(s.up, c) && Head(s.up, c) == Connect
    ensures Shape(ServerGets(s, c, hit, alive, room)) && Selection(ServerGets(s, c, hit, alive, room))
    ensures var t := ServerGets(s, c, hit, alive, room);
            forall x :: x in t.down ==> t.down[x] == if t.offers == [] then [] else [SelectUplink(c)]
  {
    var t := ServerGets(s, c, hit, alive, room);
    PopKeeps(s, c);
    assert s.up[c][0].Connect?;
    assert t.down.Keys == s.down.Keys;
    forall x | x in t.down ensures t.down[x] == if t.offers == [] then [] else [SelectUplink(c)] {
      assert s.down[x] == [];
    }
  }

  lemma {:induction false} BirthKeepsUpStream(s: State, c: Channel, hit: bool, alive: bool, room: bool)
    requires Inv(s) && s.lives == 0 && !s.lost && Waiting(s.up, c) && Head(s.up, c) == Connect
    ensures UpStream(ServerGets(s, c, hit, alive, room))
  {
    var t := ServerGets(s, c, hit, alive, room);
    assert s.up[c][0].Connect?;
    assert Opened(s, c);
    assert DataOf(s.up[c]) == DataOf(s.up[c][1..]);
    assert t.up == Pop(s.up, c) && t.srv.uplink == c && t.gotUp == s.gotUp == [] && t.sentUp == s.sentUp && t.lives == 1;
  }

  lemma {:induction false} BirthKeepsDownStream(s: State, c: Channel, hit: bool, alive: bool, room: bool)
    requires Inv(s) && s.lives == 0 && !s.lost && Waiting(s.up, c) && Head(s.up, c) == Connect
    ensures DownStream(ServerGets(s, c, hit, alive, room))
  {
    var t := ServerGets(s, c, hit, alive, room);
    BirthKeepsSelection(s, c, hit, alive, room);
    assert DataOf([SelectUplink(c)]) == [] by { assert [SelectUplink(c)][1..] == []; }
    assert t.cli == s.cli && t.sentDown == [] && t.gotDown == s.gotDown == [] && s.cli.downlink == 0;
    assert forall x :: x in t.down ==> DataOf(t.down[x]) == [];
  }

  lemma {:induction false} BirthKeepsStreams(s: State, c: Channel, hit: bool, alive: bool, room: bool)
    requires Inv(s) && s.lives == 0 && !s.lost && Waiting(s.up, c) && Head(s.up, c) == Connect
    ensures UpStream(ServerGets(s, c, hit, alive, room)) && DownStream(ServerGets(s, c, hit, alive, room))
  {
    BirthKeepsUpStream(s, c, hit, alive, room);
    BirthKeepsDownStream(s, c, hit, alive, room);
  }

  /** Any later message changes at most the downlink, and only to the client's own choice. */
  lemma {:induction false} LaterKeepsSelection(s: State, c: Channel, hit: bool, alive: bool, room: bool)
    requires Inv(s) && s.lives <= 1 && Waiting(s.up, c)
    requires s.lives == 0 ==> Head(s.up, c) != Connect
    requires ServerGets(s, c, hit, alive, room).lives == s.lives
    ensures Selection(ServerGets(s, c, hit, alive, room))
  {
    PopKeeps(s, c);
    assert s.up[c][0] == Head(s.up, c);
  }

  lemma {:induction false} LaterKeepsUpStream(s: State, c: Channel, hit: bool, alive: bool, room: bool)
    requires Inv(s) && s.lives <= 1 && !s.lost && Waiting(s.up, c)
    requires s.lives == 0 ==> Head(s.up, c) != Connect
    requires ServerGets(s, c, hit, alive, room).lives == s.lives
    ensures UpStream(ServerGets(s, c, hit, alive, room))
  {
    var m := Head(s.up, c);
    var t := ServerGets(s, c, hit, alive, room);
    assert s.up[c][0] == m;
    if s.lives == 0 {
      assert !Opened(s, c);
      assert t.up == Pop(s.up, c) && t.sentUp == s.sentUp && t.gotUp == s.gotUp && !t.srv.live;
      assert forall x :: Opened(t, x) ==> Opened(s, x) && x != c;
    } else if s.srv.live && c == s.srv.uplink {
      assert DataOf(s.up[c]) == (if m.Data? then [m.payload] else []) + DataOf(s.up[c][1..]);
    }
  }

  lemma {:induction false} LaterKeepsDownStream(s: State, c: Channel, hit: bool, alive: bool, room: bool)
    requires Inv(s) && s.lives <= 1 && !s.lost && Waiting(s.up, c)
    requires s.lives == 0 ==> Head(s.up, c) != Connect
    requires ServerGets(s, c, hit, alive, room).lives == s.lives
    ensures DownStream(ServerGets(s, c, hit, alive, room))
  {
    var t := ServerGets(s, c, hit, alive, room);
    assert t.cli == s.cli && t.down == s.down && t.gotDown == s.gotDown && t.sentDown == s.sentDown;
    assert UnsetOr(s.srv.downlink, t.srv.downlink);
    assert forall x :: Eligible(t, x) ==> Eligible(s, x);
  }

  lemma {:induction false} ServerGetsKeeps(s: State, c: Channel, hit: bool, alive: bool, room: bool)
    requires Inv(s) && Waiting(s.up, c)
    ensures Inv(ServerGets(s, c, hit, alive, room))
  {
    var t := ServerGets(s, c, hit, alive, room);
    if s.lives == 0 && Head(s.up, c) == Connect {
      BirthKeepsSelection(s, c, hit, alive, room);
      if !s.lost {
        BirthKeepsStreams(s, c, hit, alive, room);
      }
    } else if t.lives <= 1 {
      LaterKeepsSelection(s, c, hit, alive, room);
      if !s.lost {
        LaterKeepsUpStream(s, c, hit, alive, room);
        LaterKeepsDownStream(s, c, hit, alive, room);
      }
    }
  }

  /** A first choice of downlink meets no older report: there is none in flight while nothing is chosen. */
  lemma {:induction false} FirstReport(up: Queues, cfg: Config, downlink: nat, letter: Option<Letter>)
    requires UpOk(up, cfg, 0)
    requires letter.Some? ==> letter.value.msg.Close? || letter.value.msg.SelectDownlink?
    requires letter.Some? && letter.value.msg.SelectDownlink? ==> letter.value.msg.ch == downlink
    ensures UpOk(if letter.Some? then Post(up, letter.value.ch, letter.value.msg) else up, cfg, downlink)
  {
  }

  /** A message never changes who the connection is; a downlink is chosen once, and only a first choice reports. */
  lemma {:induction false} ReceiveFrame(cli: Client, c: Channel, m: Msg, wrote: bool)
    ensures var out := cli.Receive(c, m, wrote);
            && out.next.bare == cli.bare && out.next.target == cli.target && out.next.pair == cli.pair
            && (cli.downlink != 0 ==> out.next.downlink == cli.downlink && out.result == None)
            && (out.result.Some? ==> out.next.downlink != 0)
            && (!cli.registered ==> !out.next.registered)
            && (out.reply.Some? ==> out.reply.value.msg.SelectDownlink? || out.reply.value.msg.Close?)
  {
  }

  lemma {:induction false} ClientGetsKeepsShape(s: State, c: Channel, wrote: bool)
    requires Shape(s) && Waiting(s.down, c)
    ensures Shape(ClientGets(s, c, wrote))
  {
    ReceiveFrame(s.cli, c, Head(s.down, c), wrote);
  }

  lemma {:induction false} AnnouncementKeepsSelection(s: State, c: Channel, wrote: bool)
    requires Inv(s) && s.lives <= 1 && Waiting(s.down, c) && Head(s.down, c).SelectUplink?
    ensures Selection(ClientGets(s, c, wrote))
  {
    var t := ClientGets(s, c, wrote);
    var out := s.cli.Receive(c, Head(s.down, c), wrote);
    PopKeeps(s, c);
    assert s.down[c][0].SelectUplink?;
    assert Born(s) && s.offers == [s.srv.uplink];
    if s.cli.downlink == 0 {
      FirstReport(s.up, s.cfg, t.cli.downlink, out.reply);
    } else {
      assert out.reply == None;
    }
    assert Born(t);
  }

  /** Data on a connection whose downlink is already chosen changes nothing about the selection. */
  lemma {:induction false} ChosenDataSelects(s: State, c: Channel, wrote: bool)
    requires Inv(s) && s.lives <= 1 && Waiting(s.down, c) && Head(s.down, c).Data? && s.cli.downlink != 0
    ensures Selection(ClientGets(s, c, wrote))
  {
    var t := ClientGets(s, c, wrote);
    var out := s.cli.Receive(c, Head(s.down, c), wrote);
    PopKeeps(s, c);
    assert s.down[c][0].Data?;
    assert out.next == s.cli || out.next == s.cli.Unregister();
    assert UpOk(t.up, t.cfg, t.cli.downlink);
  }

  /** Data may also be the first message to choose the downlink. */
  lemma {:induction false} ChoosingDataSelects(s: State, c: Channel, wrote: bool)
    requires Inv(s) && s.lives <= 1 && Waiting(s.down, c) && Head(s.down, c).Data? && s.cli.downlink == 0
    ensures Selection(ClientGets(s, c, wrote))
  {
    var t := ClientGets(s, c, wrote);
    var out := s.cli.Receive(c, Head(s.down, c), wrote);
    PopKeeps(s, c);
    assert s.down[c][0].Data?;
    assert Born(s) && (s.offers == [] ==> c == s.srv.downlink);
    FirstReport(s.up, s.cfg, t.cli.downlink, out.reply);
    assert t.cli.uplink == s.cli.uplink && out.result == None;
    assert Born(t);
  }

  lemma {:induction false} DataKeepsSelection(s: State, c: Channel, wrote: bool)
    requires Inv(s) && s.lives <= 1 && Waiting(s.down, c) && Head(s.down, c).Data?
    ensures Selection(ClientGets(s, c, wrote))
  {
    if s.cli.downlink != 0 {
      ChosenDataSelects(s, c, wrote);
    } else {
      ChoosingDataSelects(s, c, wrote);
    }
  }

  lemma {:induction false} SignalKeepsSelection(s: State, c: Channel, wrote: bool)
    requires Inv(s) && s.lives <= 1 && Waiting(s.down, c) && !Head(s.down, c).SelectUplink? && !Head(s.down, c).Data?
    ensures Selection(ClientGets(s, c, wrote))
  {
    PopKeeps(s, c);
    assert s.down[c] != [];
    assert Born(ClientGets(s, c, wrote));
  }

  lemma {:induction false} ClientGetsKeepsUpStream(s: State, c: Channel, wrote: bool)
    requires Inv(s) && s.lives <= 1 && !s.lost && Waiting(s.down, c)
    ensures UpStream(ClientGets(s, c, wrote))
  {
    var out := s.cli.Receive(c, Head(s.down, c), wrote);
    assert s.down[c] != [];
    assert s.lives == 1;
    if s.srv.live && out.reply.Some? {
      assert !out.reply.value.msg.Data?;
      DataOfAppend(s.up[s.srv.uplink], out.reply.value.msg);
    }
  }

  /** Once the downlink is chosen, exactly the data of that channel is taken. */
  lemma {:induction false} ChosenKeepsDownStream(s: State, c: Channel, wrote: bool)
    requires Inv(s) && s.lives <= 1 && !s.lost && Waiting(s.down, c) && s.cli.downlink != 0
    ensures DownStream(ClientGets(s, c, wrote))
  {
    var m := Head(s.down, c);
    assert s.down[c][0] == m;
    ReceiveFrame(s.cli, c, m, wrote);
    if c == s.cli.downlink {
      assert DataOf(s.down[c]) == (if m.Data? then [m.payload] else []) + DataOf(s.down[c][1..]);
    }
  }

  /** The client as it is after choosing a downlink, or after a message that chose none. */
  lemma {:induction false} ChoiceKeepsDownStream(s: State, c: Channel, t: State)
    requires Inv(s) && s.lives == 1 && !s.lost && Waiting(s.down, c) && !Head(s.down, c).Data? && s.cli.downlink == 0
    requires t.down == Pop(s.down, c) && t.srv == s.srv && t.gotDown == s.gotDown && t.sentDown == s.sentDown
    requires t.cli.registered ==> s.cli.registered && t.cli.target == s.cli.target && t.cli.pair == s.cli.pair
    requires t.cli.registered && t.cli.downlink != 0 ==> Eligible(s, t.cli.downlink)
    requires t.cli.registered && t.cli.downlink == 0 ==> forall x :: Eligible(t, x) ==> Eligible(s, x)
    ensures DownStream(t)
  {
    assert DataOf(s.down[c]) == DataOf(s.down[c][1..]);
  }

  lemma {:induction false} AnnouncedKeepsDownStream(s: State, c: Channel, wrote: bool)
    requires Inv(s) && s.lives <= 1 && !s.lost && Waiting(s.down, c) && s.cli.downlink == 0 && Head(s.down, c).SelectUplink?
    ensures DownStream(ClientGets(s, c, wrote))
  {
    var t := ClientGets(s, c, wrote);
    assert s.down[c][0] == Head(s.down, c);
    assert s.lives == 1 && Born(s);
    if t.cli.registered {
      if t.cli.downlink != 0 {
        assert Eligible(s, t.cli.downlink);
      } else {
        assert forall x :: Eligible(t, x) ==> Eligible(s, x);
      }
    }
    ChoiceKeepsDownStream(s, c, t);
  }

  /** What a first data message does: it is taken from the chosen channel, or passed over on one that gives way. */
  lemma {:induction false} FirstDataIs(s: State, c: Channel, wrote: bool)
    requires Shape(s) && Waiting(s.down, c) && s.cli.registered && s.cli.downlink == 0 && Head(s.down, c).Data?
    ensures var t := ClientGets(s, c, wrote);
            && t.down == Pop(s.down, c) && t.srv == s.srv && t.sentDown == s.sentDown && t.lives == s.lives
            && (t.cli.registered ==> t.cli == s.cli.(downlink := t.cli.downlink))
            && (t.cli.registered && t.cli.downlink == c ==> t.gotDown == s.gotDown + [Head(s.down, c).payload])
            && (t.cli.registered && t.cli.downlink != c ==> t.gotDown == s.gotDown)
            && (t.cli.registered && t.cli.downlink == 0 ==> s.cli.target == "" || (s.cli.pair.None? && s.cli.GivesWay(c)))
            && (t.cli.downlink != 0 ==> s.cli.target != "" && t.cli.downlink == (if s.cli.pair.Some? then s.cli.pair.value.down else c)
                                        && (s.cli.pair.Some? || !s.cli.GivesWay(c)))
  {
  }

  lemma {:induction false} FirstDataKeepsDownStream(s: State, c: Channel, wrote: bool)
    requires Inv(s) && s.lives <= 1 && !s.lost && Waiting(s.down, c) && s.cli.downlink == 0 && Head(s.down, c).Data?
    ensures DownStream(ClientGets(s, c, wrote))
  {
    var m := Head(s.down, c);
    var t := ClientGets(s, c, wrote);
    assert s.down[c][0] == m;
    assert s.lives == 1 && Born(s);
    assert DataOf(s.down[c]) == [m.payload] + DataOf(s.down[c][1..]);
    if s.cli.registered && t.cli.registered {
      FirstDataIs(s, c, wrote);
      if t.cli.downlink != 0 {
        assert Eligible(s, t.cli.downlink);
      } else {
        assert t.cli == s.cli;
        assert forall x :: Eligible(t, x) ==> Eligible(s, x) && x != c;
      }
    }
  }

  lemma {:induction false} SignalKeepsDownStream(s: State, c: Channel, wrote: bool)
    requires Inv(s) && s.lives <= 1 && !s.lost && Waiting(s.down, c) && s.cli.downlink == 0
    requires !Head(s.down, c).Data? && !Head(s.down, c).SelectUplink?
    ensures DownStream(ClientGets(s, c, wrote))
  {
    var t := ClientGets(s, c, wrote);
    assert s.down[c] != [];
    assert s.lives == 1;
    assert t.cli.registered ==> t.cli == s.cli;
    assert t.cli.registered ==> forall x :: Eligible(t, x) ==> Eligible(s, x);
    ChoiceKeepsDownStream(s, c, t);
  }

  /** Until then no eligible channel has lost data, so the choice cannot come too late. */
  lemma {:induction false} ChoosingKeepsDownStream(s: State, c: Channel, wrote: bool)
    requires Inv(s) && s.lives <= 1 && !s.lost && Waiting(s.down, c) && s.cli.downlink == 0
    ensures DownStream(ClientGets(s, c, wrote))
  {
    if Head(s.down, c).SelectUplink? {
      AnnouncedKeepsDownStream(s, c, wrote);
    } else if Head(s.down, c).Data? {
      FirstDataKeepsDownStream(s, c, wrote);
    } else {
      SignalKeepsDownStream(s, c, wrote);
    }
  }

  lemma {:induction false} ClientGetsKeeps(s: State, c: Channel, wrote: bool)
    requires Inv(s) && Waiting(s.down, c)
    ensures Inv(ClientGets(s, c, wrote))
  {
    ClientGetsKeepsShape(s, c, wrote);
    if s.lives <= 1 {
      if Head(s.down, c).SelectUplink? {
        AnnouncementKeepsSelection(s, c, wrote);
      } else if Head(s.down, c).Data? {
        DataKeepsSelection(s, c, wrote);
      } else {
        SignalKeepsSelection(s, c, wrote);
      }
      if !s.lost {
        ClientGetsKeepsUpStream(s, c, wrote);
        if s.cli.downlink != 0 {
          ChosenKeepsDownStream(s, c, wrote);
        } else {
          ChoosingKeepsDownStream(s, c, wrote);
        }
      }
    }
  }

  lemma {:induction false} ServingKeeps(s: State)
    requires Inv(s) && s.srv.live
    ensures Inv(s.(srv := s.srv.(serving := true)))
  {
    var t := s.(srv := s.srv.(serving := true));
    assert forall c :: (Opened(t, c) ==> Opened(s, c)) && (Eligible(t, c) ==> Eligible(s, c));
  }

  lemma {:induction false} DialedKeeps(s: State, ok: bool)
    requires Inv(s)
    ensures Inv(Apply(s, TargetDialed(ok)))
  {
    if s.srv.live && !s.srv.serving && s.cfg.kind != Prebind {
      ServerSendKeeps(s, Status(ok));
      var t := s.(down := Send(s.down, s.srv.downlink, Status(ok)));
      if ok {
        ServingKeeps(t);
      } else {
        ServerSendKeeps(t, Close);
        ForgetKeeps(t.(down := Send(t.down, t.srv.downlink, Close)));
      }
    }
  }

  lemma {:induction false} StepKeeps(s: State, a: Action)
    requires Inv(s)
    ensures Inv(Apply(s, a))
  {
    match a
    case Write(p) => ClientSendKeeps(s, Data(p));
    case CloseWrite => ClientSendKeeps(s, Close);
    case ClientClose =>
      ClientSendKeeps(s, Close);
      ForgetKeeps(AfterClientSend(s, Close));
    case ClientForget => ForgetKeeps(s);
    case ToServer(c, hit, alive, room) =>
      if Waiting(s.up, c) { ServerGetsKeeps(s, c, hit, alive, room); }
    case ToClient(c, wrote) =>
      if Waiting(s.down, c) { ClientGetsKeeps(s, c, wrote); }
    case TargetDialed(ok) => DialedKeeps(s, ok);
    case Forwarded(p) =>
      if s.srv.live { ServerSendKeeps(s, Data(p)); }
    case Retire => ForgetKeeps(s);
    case LoseUp(c) => LoseKeeps(s, c);
    case LoseDown(c) => LoseKeeps(s, c);
  }

  // ---------------------------------------------------------------- over every run

  lemma {:induction false} RunKeeps(s: State, acts: seq<Action>)
    requires Inv(s)
    ensures Inv(Run(s, acts))
    decreases |acts|
  {
    if acts != [] {
      StepKeeps(s, acts[0]);
      RunKeeps(Apply(s, acts[0]), acts[1..]);
    }
  }

  /**
    Every interleaving, every way of opening the connection, any message dropped: while the server has
    built one record for the connection, both ends agree on each direction they both know.
  */
  lemma {:induction false} EndsAgree(cfg: Config, acts: seq<Action>)
    requires ValidConfig(cfg)
    ensures Run(Init(cfg), acts).lives <= 1 ==> Agreement(Run(Init(cfg), acts))
  {
    InitInv(cfg);
    RunKeeps(Init(cfg), acts);
  }

  /** A prebind race announces one uplink and yields at most one result, on two different channels. */
  lemma {:induction false} RaceHasOneResult(cfg: Config, acts: seq<Action>)
    requires ValidConfig(cfg)
    ensures |Run(Init(cfg), acts).results| <= 1
    ensures Run(Init(cfg), acts).lives <= 1 ==> Race(Run(Init(cfg), acts))
  {
    InitInv(cfg);
    RunKeeps(Init(cfg), acts);
  }

  /** Across the switch from broadcast to unicast, each end accepts a prefix of what the other sent. */
  lemma {:induction false} StreamsAreKept(cfg: Config, acts: seq<Action>)
    requires ValidConfig(cfg)
    ensures var s := Run(Init(cfg), acts); s.lives <= 1 && !s.lost ==> Streams(s)
  {
    InitInv(cfg);
    RunKeeps(Init(cfg), acts);
  }

  /**
    Nothing is left behind: once the queues are empty, living ends have accepted everything. A client that
    has not chosen a downlink has missed nothing either, unless it can choose none (no target) or gives way
    on its own uplink (a race).
  */
  lemma {:induction false} QuietEndsHaveEverything(cfg: Config, acts: seq<Action>)
    requires ValidConfig(cfg)
    requires var s := Run(Init(cfg), acts);
             s.lives <= 1 && !s.lost && (forall c :: c in s.up ==> s.up[c] == []) && (forall c :: c in s.down ==> s.down[c] == [])
    ensures var s := Run(Init(cfg), acts); s.srv.live ==> s.gotUp == s.sentUp
    ensures var s := Run(Init(cfg), acts);
            s.cli.registered && (s.cli.downlink != 0 || (s.cli.target != "" && s.cli.target != PREBIND_TARGET)) ==>
              s.gotDown == s.sentDown
  {
    InitInv(cfg);
    RunKeeps(Init(cfg), acts);
    var s := Run(Init(cfg), acts);
    if s.cli.registered && s.cli.downlink == 0 && s.cli.target != "" && s.cli.target != PREBIND_TARGET {
      var c: Channel := if s.srv.downlink != 0 then s.srv.downlink else s.cfg.pair.down;
      assert Eligible(s, c);
    }
  }

  /** sendDownlink: a record that is gone sends nothing. */
  function SendDownlink(s: State, m: Msg): State {
    if s.srv.live then s.(down := Send(s.down, s.srv.downlink, m)) else s
  }

  function Retired(s: State): State {
    s.(srv := s.srv.(live := false))
  }

  /** The target closed: the deferred calls run last-in first-out, so the record goes before the close is sent. */
  function TargetEnds(s: State): State {
    SendDownlink(Retired(s), Close)
  }

  /**
    So the client is not told that the target closed. In the order the comment has in mind, a living record
    would have put a close message on its downlink, or on every channel while none is chosen.
  */
  lemma {:induction false} TargetEndIsSilent(s: State, c: Channel)
    ensures TargetEnds(s) == Apply(s, Retire) && TargetEnds(s).down == s.down
    ensures s.srv.live && c in s.down && UnsetOr(s.srv.downlink, c) ==>
              Retired(SendDownlink(s, Close)).down[c] == s.down[c] + [Close]
  {
    if c in s.down {
      SendAt(s.down, s.srv.downlink, Close, c);
    }
  }

  // ---------------------------------------------------------------- a second server record breaks both

  ghost predicate Reaches(cfg: Config, s: State) {
    exists acts :: Run(Init(cfg), acts) == s
  }

  lemma {:induction false} RunAppend(s: State, acts: seq<Action>, a: Action)
    ensures Run(s, acts + [a]) == Apply(Run(s, acts), a)
    decreases |acts|
  {
    if acts == [] {
      assert [] + [a] == [a];
    } else {
      assert (acts + [a])[1..] == acts[1..] + [a];
      RunAppend(Apply(s, acts[0]), acts[1..], a);
    }
  }

  lemma {:induction false} ReachesInit(cfg: Config)
    ensures Reaches(cfg, Init(cfg))
  {
    assert Run(Init(cfg), []) == Init(cfg);
  }

  lemma {:induction false} ReachesNext(cfg: Config, s: State, a: Action)
    requires Reaches(cfg, s)
    ensures Reaches(cfg, Apply(s, a))
  {
    var acts :| Run(Init(cfg), acts) == s;
    RunAppend(Init(cfg), acts, a);
  }

  const TwoChannels := Config(Classic, {1, 2}, "host:80", Pair(1, 2), None)

  /** The client knows uplink 1 while the opening copy on channel 2 is still on its way. */
  lemma {:induction false} Settled() returns (s: State)
    ensures Reaches(TwoChannels, s) && s.lives == 1 && !s.lost && s.srv.live && s.sentUp == [] && !s.strayed
    ensures s.cli.registered && s.cli.uplink == 1 && 2 in s.up && s.up[2] == [Connect] && s.cfg == TwoChannels
  {
    var s0 := Init(TwoChannels);
    ReachesInit(TwoChannels);
    assert 1 in s0.up && s0.up[1] == [Connect] && 2 in s0.up && s0.up[2] == [Connect];
    var s1 := Apply(s0, ToServer(1, false, true, true));
    ReachesNext(TwoChannels, s0, ToServer(1, false, true, true));
    assert s1.up[2] == [Connect] && s1.down[1] == [SelectUplink(1)];
    s := Apply(s1, ToClient(1, true));
    ReachesNext(TwoChannels, s1, ToClient(1, true));
  }

  /**
    A record rebuilt from an opening message on channel `c` agrees with the client exactly when a registered
    client has noted no other uplink, and a downlink promoted from the hot table is not another than its own.
  */
  lemma {:induction false} RebuildAgreesIff(s: State, c: Channel, hit: bool, alive: bool, room: bool)
    requires !s.srv.live && Waiting(s.up, c) && Head(s.up, c) == Connect
    ensures var hot := HotEntry(s.cfg, hit);
            Agreement(ServerGets(s, c, hit, alive, room)) <==>
              (s.cli.registered ==>
                && UnsetOr(s.cli.uplink, c)
                && (hot.Some? && hot.value.up == c ==> UnsetOr(s.cli.downlink, hot.value.down)))
  {
  }

  /** A late copy of the opening message, on another channel, rebuilds a retired record with another uplink. */
  lemma {:induction false} SecondRecordDisagrees()
    ensures exists s :: Reaches(TwoChannels, s) && s.lives == 2 && !s.lost && !Agreement(s)
  {
    var s2 := Settled();
    var s3 := Apply(s2, Retire);
    ReachesNext(TwoChannels, s2, Retire);
    ReachesNext(TwoChannels, s3, ToServer(2, false, true, true));
    assert !Agreement(Apply(s3, ToServer(2, false, true, true)));
  }

  const TwoChannelRace := Config(Prebind, {1, 2}, "", Pair(1, 2), None)

  /** A prebind record that expires between two copies of the request: two announcements on every channel. */
  lemma {:induction false} TwiceAnnounced() returns (s: State)
    ensures Reaches(TwoChannelRace, s)
    ensures s.lives == 2 && s.results == [] && s.cli == Client(true, true, PREBIND_TARGET, 0, 0, None)
    ensures 1 in s.down && s.down[1] == [SelectUplink(1), SelectUplink(2)]
    ensures 2 in s.down && s.down[2] == [SelectUplink(1), SelectUplink(2)]
  {
    var s0 := Init(TwoChannelRace);
    ReachesInit(TwoChannelRace);
    assert 1 in s0.up && s0.up[1] == [Connect] && 2 in s0.up && s0.up[2] == [Connect];
    var s1 := Apply(s0, ToServer(1, false, true, true));
    ReachesNext(TwoChannelRace, s0, ToServer(1, false, true, true));
    assert s1.up[2] == [Connect] && s1.down[1] == [SelectUplink(1)] && s1.down[2] == [SelectUplink(1)];
    var s2 := Apply(s1, Retire);
    ReachesNext(TwoChannelRace, s1, Retire);
    s := Apply(s2, ToServer(2, false, true, true));
    ReachesNext(TwoChannelRace, s2, ToServer(2, false, true, true));
  }

  /**
    A race reports one channel for both directions exactly when an announcement names the channel it arrives
    on while the client has noted another uplink and has chosen no downlink.
  */
  lemma {:induction false} RaceSpoiledIff(cli: Client, c: Channel, m: Msg, wrote: bool)
    requires cli.bare && cli.target == PREBIND_TARGET && cli.pair == None
    ensures var r := cli.Receive(c, m, wrote).result;
            (r.Some? && r.value.up == r.value.down) <==>
              m == SelectUplink(c) && cli.registered && cli.uplink != 0 && cli.uplink != c && cli.downlink == 0
  {
  }

  /** With a second record a race can even report one channel for both directions. */
  lemma {:induction false} SecondRecordSpoilsRace()
    ensures exists s :: Reaches(TwoChannelRace, s) && s.lives == 2 && s.results == [Pair(2, 2)]
  {
    var s3 := TwiceAnnounced();
    var s4 := Apply(s3, ToClient(1, true));
    ReachesNext(TwoChannelRace, s3, ToClient(1, true));
    assert s4.cli.uplink == 1 && s4.cli.downlink == 0 && s4.down[2] == s3.down[2];
    var s5 := Apply(s4, LoseDown(2));
    ReachesNext(TwoChannelRace, s4, LoseDown(2));
    ReachesNext(TwoChannelRace, s5, ToClient(2, true));
    assert Apply(s5, ToClient(2, true)).results == [Pair(2, 2)];
  }
}
