/**
  The server's tables: which channels each client has, which forward and reverse connections use them, and
  what happens to all of that when a channel closes. Handling one message and closing one channel are
  single steps.
*/
module ServerTable {
  import opened Link
  import opened Wire
  import Hot = HotPairTable

  /** A forward connection. A message handled after its channel closed leaves the owner unnamed. */
  datatype Conn = Conn(client: string, up: int, down: int)
  {
    predicate Uses(ch: int) {
      up == ch || down == ch
    }
  }

  /** A reverse connection of a client; zero is a channel not chosen yet. */
  datatype Rev = Rev(owner: string, send: int, recv: int, preset: bool, repaired: bool)
  {
    predicate Uses(ch: int) {
      send == ch || recv == ch
    }
  }

  /**
    Channel numbers are per client. `log` is what has happened to the hot pair table, `armed` the clients with
    an open prebind window, `listeners` each client's reverse listeners.
  */
  datatype Tables = Tables(
    chans: map<string, set<int>>, conns: map<Bytes, Conn>, revs: map<Bytes, Rev>, log: seq<Hot.Op>,
    armed: set<string>, listeners: map<string, set<Bytes>>)

  predicate Live(s: Tables, client: string, ch: int) {
    client in s.chans && ch in s.chans[client]
  }

  // ---------------------------------------------------------------- handlers

  /** The first connect message to arrive fixes the uplink; a live hot entry for it fixes the downlink as well. */
  function Connected(s: Tables, client: string, ch: int, id: Bytes, now: int): Tables {
    if id in s.conns then s
    else
      var owner := if Live(s, client, ch) then client else "";
      s.(conns := s.conns[id := Conn(owner, ch, Promotion(s, client, ch, id, now))])
  }

  /** The downlink of a live hot entry under the key in the connection ID, if its uplink is the arrival channel. */
  function Promotion(s: Tables, client: string, ch: int, id: Bytes, now: int): int {
    var split := SplitHotPairConnID(id);
    if split.None? || client == "" || split.value.0 == [] then 0
    else
      var e := Hot.Answer(s.log, client, split.value.0, now);
      if e.Some? && e.value.chA == ch && Live(s, client, e.value.chB) then e.value.chB else 0
  }

  /** A downlink is taken once, from the uplink, and only among the sender's live channels. */
  function SelectedDownlink(s: Tables, client: string, ch: int, id: Bytes, down: int): Tables {
    if id !in s.conns || !Live(s, client, down) then s
    else
      var c := s.conns[id];
      if c.up > 0 && ch != c.up then s
      else if c.client != "" && client != "" && client != c.client then s
      else if c.down != 0 then s
      else s.(conns := s.conns[id := c.(down := down)])
  }

  /** A reverse dial presets both channels from a hot entry whose channels are open, and none otherwise. */
  function Dialed(s: Tables, client: string, id: Bytes, key: Bytes, now: int): Tables {
    var e := Hot.Answer(s.log, client, key, now);
    s.(revs := s.revs[id := if e.Some? && Live(s, client, e.value.chA) && Live(s, client, e.value.chB)
                            then Rev(client, e.value.chB, e.value.chA, true, false)
                            else Rev(client, 0, 0, false, false)])
  }

  /** The client announces its receiving channel `x` over `ch`: adopted first, or once more over a preset. */
  function Adopted(s: Tables, client: string, ch: int, id: Bytes, x: int): Tables {
    if id !in s.revs || s.revs[id].owner != client then s
    else
      var r := s.revs[id];
      if r.send == 0 then s.(revs := s.revs[id := r.(send := x, recv := ch)])
      else if r.preset && !r.repaired then s.(revs := s.revs[id := r.(send := x, recv := ch, repaired := true)])
      else s
  }

  function Without(m: map<string, set<int>>, client: string, ch: int): map<string, set<int>> {
    if client !in m then m
    else if m[client] - {ch} == {} then m - {client}
    else m[client := m[client] - {ch}]
  }

  /** The client had channels, and this was the last. */
  predicate Leaves(s: Tables, client: string, ch: int) {
    client in s.chans && s.chans[client] - {ch} == {}
  }

  /** A channel goes: everything of its client that uses it goes too, and with the last one the client's own things. */
  function Cleaned(s: Tables, client: string, ch: int): Tables {
    Tables(
      Without(s.chans, client, ch),
      map id | id in s.conns && !(s.conns[id].client == client && s.conns[id].Uses(ch)) :: s.conns[id],
      map id | id in s.revs && !(s.revs[id].owner == client && s.revs[id].Uses(ch)) :: s.revs[id],
      s.log + [Closing(s, client, ch)],
      if Leaves(s, client, ch) then s.armed - {client} else s.armed,
      if Leaves(s, client, ch) then s.listeners - {client} else s.listeners)
  }

  /** How the hot pair table hears of it. */
  function Closing(s: Tables, client: string, ch: int): Hot.Op {
    if Leaves(s, client, ch) then Hot.DropClient(client) else Hot.DropChannel(ch)
  }

  /** A channel is numbered from one and opened under a client ID; a connection without one is given a fresh ID. */
  function Opened(s: Tables, client: string, ch: int): Tables {
    if client == "" || ch <= 0 then s
    else s.(chans := s.chans[client := (if client in s.chans then s.chans[client] else {}) + {ch}])
  }

  datatype Action =
    | Open(client: string, ch: int)
    | Connect(client: string, ch: int, id: Bytes, now: int)
    | SelectDownlink(client: string, ch: int, id: Bytes, down: int)
    | Unregister(id: Bytes)
    | DialReverse(client: string, id: Bytes, key: Bytes, now: int)
    | AnnounceReverse(client: string, ch: int, id: Bytes, x: int)
    | RemoveReverse(id: Bytes)
    | Listen(client: string, id: Bytes)
    | Arm(client: string)
    | Notify(client: string, notes: seq<PairInfo>, now: int)
    | CloseChannel(client: string, ch: int)

  function Apply(s: Tables, a: Action): Tables {
    match a
    case Open(client, ch) => Opened(s, client, ch)
    case Connect(client, ch, id, now) => Connected(s, client, ch, id, now)
    case SelectDownlink(client, ch, id, down) => SelectedDownlink(s, client, ch, id, down)
    case Unregister(id) => s.(conns := s.conns - {id})
    case DialReverse(client, id, key, now) => Dialed(s, client, id, key, now)
    case AnnounceReverse(client, ch, id, x) => Adopted(s, client, ch, id, x)
    case RemoveReverse(id) => s.(revs := s.revs - {id})
    case Listen(client, id) =>
      s.(listeners := s.listeners[client := (if client in s.listeners then s.listeners[client] else {}) + {id}])
    case Arm(client) => s.(armed := s.armed + {client})
    case Notify(client, notes, now) => s.(log := s.log + [Hot.Notify(client, notes, now)])
    case CloseChannel(client, ch) => Cleaned(s, client, ch)
  }

  function Run(s: Tables, actions: seq<Action>): Tables
    decreases |actions|
  {
    if actions == [] then s else Run(Apply(s, actions[0]), actions[1..])
  }

  const Fresh := Tables(map[], map[], map[], [], {}, map[])

  // ---------------------------------------------------------------- connections use live channels

  predicate Fine(s: Tables, c: Conn) {
    c.client != "" ==> Live(s, c.client, c.up) && (c.down == 0 || Live(s, c.client, c.down))
  }

  ghost predicate AllFine(s: Tables) {
    && "" !in s.chans
    && forall id :: id in s.conns ==> Fine(s, s.conns[id])
  }

  lemma {:induction false} LiveAfterClose(s: Tables, client: string, ch: int, c: string, k: int)
    requires Live(s, c, k) && !(c == client && k == ch)
    ensures Live(Cleaned(s, client, ch), c, k)
  {
    if c == client {
      assert k in s.chans[client] - {ch};
    }
  }

  lemma {:induction false} CloseKeeps(s: Tables, client: string, ch: int)
    requires AllFine(s)
    ensures AllFine(Cleaned(s, client, ch))
  {
    var t := Cleaned(s, client, ch);
    forall id | id in t.conns ensures Fine(t, t.conns[id]) {
      var c := s.conns[id];
      assert t.conns[id] == c && Fine(s, c);
      if c.client != "" {
        LiveAfterClose(s, client, ch, c.client, c.up);
        if c.down != 0 {
          LiveAfterClose(s, client, ch, c.client, c.down);
        }
      }
    }
  }

  lemma {:induction false} StepKeeps(s: Tables, a: Action)
    requires AllFine(s)
    ensures AllFine(Apply(s, a))
  {
    if a.CloseChannel? {
      CloseKeeps(s, a.client, a.ch);
    } else {
      var t := Apply(s, a);
      forall id | id in t.conns ensures Fine(t, t.conns[id]) {
        assert id in s.conns ==> Fine(s, s.conns[id]);
      }
    }
  }

  lemma {:induction false} RunKeeps(s: Tables, actions: seq<Action>)
    requires AllFine(s)
    ensures AllFine(Run(s, actions))
    decreases |actions|
  {
    if actions != [] {
      StepKeeps(s, actions[0]);
      RunKeeps(Apply(s, actions[0]), actions[1..]);
    }
  }

  /** In every run every forward connection of a named client uses only live channels of that client. */
  lemma {:induction false} ConnectionsUseLiveChannels(actions: seq<Action>, id: Bytes)
    ensures var s := Run(Fresh, actions); id in s.conns ==> Fine(s, s.conns[id])
  {
    RunKeeps(Fresh, actions);
  }

  // ---------------------------------------------------------------- closing a channel

  lemma {:induction false} HotEntriesAreGone(s: Tables, client: string, ch: int, key: Bytes, now: int)
    ensures var e := Hot.Answer(Cleaned(s, client, ch).log, client, key, now); e.Some? ==> !e.value.Uses(ch)
  {
    Hot.DropForgets(s.log, Closing(s, client, ch), client, ch, key, now);
  }

  lemma {:induction false} ConnsAreGone(s: Tables, client: string, ch: int, id: Bytes)
    ensures var t := Cleaned(s, client, ch);
            && !Live(t, client, ch)
            && (id in t.conns && t.conns[id].client == client ==> !t.conns[id].Uses(ch))
            && (id in t.revs && t.revs[id].owner == client ==> !t.revs[id].Uses(ch))
  {
  }

  /**
    After a channel closes nothing of its client refers to it: no connection, no reverse connection, and no
    answer of the hot pair table, at any time.
  */
  lemma {:induction false} NothingRefersToAClosedChannel(s: Tables, t: Tables, client: string, ch: int)
    requires t == Cleaned(s, client, ch)
    ensures !Live(t, client, ch)
    ensures forall id :: id in t.conns && t.conns[id].client == client ==> !t.conns[id].Uses(ch)
    ensures forall id :: id in t.revs && t.revs[id].owner == client ==> !t.revs[id].Uses(ch)
    ensures forall key, now ::
              Hot.Answer(t.log, client, key, now).Some? ==> !Hot.Answer(t.log, client, key, now).value.Uses(ch)
    ensures Leaves(s, client, ch) ==> client !in t.chans && client !in t.armed && client !in t.listeners
  {
    forall key, now
      ensures Hot.Answer(t.log, client, key, now).Some? ==> !Hot.Answer(t.log, client, key, now).value.Uses(ch)
    {
      HotEntriesAreGone(s, client, ch, key, now);
    }
    ConnsAreGone(s, client, ch, []);
    forall id | id in t.conns && t.conns[id].client == client ensures !t.conns[id].Uses(ch) {
      ConnsAreGone(s, client, ch, id);
    }
    forall id | id in t.revs && t.revs[id].owner == client ensures !t.revs[id].Uses(ch) {
      ConnsAreGone(s, client, ch, id);
    }
  }

  /** An action of the client, after the close, that names the channel anew. */
  predicate Renames(a: Action, client: string, ch: int) {
    match a
    case Open(c, k) => c == client && k == ch
    case AnnounceReverse(c, k, _, x) => c == client && (k == ch || x == ch)
    case Notify(c, notes, _) => c == client && exists i :: 0 <= i < |notes| && (notes[i].chA == ch || notes[i].chB == ch)
    case _ => false
  }

  /** Nothing of the client refers to the channel. */
  ghost predicate Forgotten(s: Tables, client: string, ch: int) {
    && !Live(s, client, ch)
    && (forall id :: id in s.revs && s.revs[id].owner == client ==> !s.revs[id].Uses(ch))
    && (forall key :: Hot.Latest(s.log, client, key).Some? ==> !Hot.Latest(s.log, client, key).value.Uses(ch))
  }

  lemma {:induction false} LogStaysForgotten(s: Tables, a: Action, client: string, ch: int, key: Bytes)
    requires Hot.Latest(s.log, client, key).Some? ==> !Hot.Latest(s.log, client, key).value.Uses(ch)
    requires !Renames(a, client, ch)
    ensures var e := Hot.Latest(Apply(s, a).log, client, key); e.Some? ==> !e.value.Uses(ch)
  {
    if a.Notify? {
      NotifyStaysForgotten(s, a.client, a.notes, a.now, client, ch, key);
    } else if a.CloseChannel? {
      Hot.StaysFree(s.log, Closing(s, a.client, a.ch), client, ch, key);
    } else {
      assert Apply(s, a).log == s.log;
    }
  }

  lemma {:induction false} NotifyStaysForgotten(s: Tables, c: string, notes: seq<PairInfo>, now: int, client: string, ch: int, key: Bytes)
    requires Hot.Latest(s.log, client, key).Some? ==> !Hot.Latest(s.log, client, key).value.Uses(ch)
    requires !Renames(Notify(c, notes, now), client, ch)
    ensures var e := Hot.Latest(s.log + [Hot.Notify(c, notes, now)], client, key); e.Some? ==> !e.value.Uses(ch)
  {
    Hot.StaysFree(s.log, Hot.Notify(c, notes, now), client, ch, key);
  }

  lemma {:induction false} RevsStayForgotten(s: Tables, a: Action, client: string, ch: int)
    requires Forgotten(s, client, ch) && ch > 0 && !Renames(a, client, ch)
    ensures var t := Apply(s, a);
            !Live(t, client, ch) && forall id :: id in t.revs && t.revs[id].owner == client ==> !t.revs[id].Uses(ch)
  {
    var t := Apply(s, a);
    if a.CloseChannel? {
      assert forall id :: id in t.revs ==> id in s.revs && t.revs[id] == s.revs[id];
    }
  }

  /** As long as the client does not name the channel anew, nothing of it refers to the channel again. */
  lemma {:induction false} StaysForgotten(s: Tables, actions: seq<Action>, client: string, ch: int)
    requires AllFine(s) && Forgotten(s, client, ch) && ch > 0
    requires forall i :: 0 <= i < |actions| ==> !Renames(actions[i], client, ch)
    ensures AllFine(Run(s, actions)) && Forgotten(Run(s, actions), client, ch)
    decreases |actions|
  {
    if actions != [] {
      var a := actions[0];
      var t := Apply(s, a);
      StepKeeps(s, a);
      RevsStayForgotten(s, a, client, ch);
      forall key ensures Hot.Latest(t.log, client, key).Some? ==> !Hot.Latest(t.log, client, key).value.Uses(ch) {
        LogStaysForgotten(s, a, client, ch, key);
      }
      StaysForgotten(t, actions[1..], client, ch);
    }
  }

  lemma {:induction false} CloseForgets(s: Tables, client: string, ch: int)
    ensures Forgotten(Cleaned(s, client, ch), client, ch)
  {
    var t := Cleaned(s, client, ch);
    NothingRefersToAClosedChannel(s, t, client, ch);
    forall key ensures Hot.Latest(t.log, client, key).Some? ==> !Hot.Latest(t.log, client, key).value.Uses(ch) {
      Hot.LatestAppend(s.log, Closing(s, client, ch), client, key);
    }
  }

  /**
    A closed channel stays forgotten: in every run, after a channel closes and until the client opens it again,
    announces it for a reverse connection or notifies a hot pair on it, no forward connection, reverse
    connection or hot entry of the client uses it.
  */
  lemma {:induction false} ClosedChannelStaysForgotten(before: seq<Action>, after: seq<Action>, client: string, ch: int)
    requires client != "" && ch > 0 && forall i :: 0 <= i < |after| ==> !Renames(after[i], client, ch)
    ensures var t := Run(Cleaned(Run(Fresh, before), client, ch), after);
            && !Live(t, client, ch)
            && (forall id :: id in t.conns && t.conns[id].client == client ==> !t.conns[id].Uses(ch))
            && (forall id :: id in t.revs && t.revs[id].owner == client ==> !t.revs[id].Uses(ch))
            && (forall key :: Hot.Latest(t.log, client, key).Some? ==> !Hot.Latest(t.log, client, key).value.Uses(ch))
  {
    var s := Run(Fresh, before);
    RunKeeps(Fresh, before);
    CloseKeeps(s, client, ch);
    CloseForgets(s, client, ch);
    StaysForgotten(Cleaned(s, client, ch), after, client, ch);
    var t := Run(Cleaned(s, client, ch), after);
    forall id | id in t.conns && t.conns[id].client == client ensures !t.conns[id].Uses(ch) {
      assert Fine(t, t.conns[id]);
    }
  }

  /** Nothing else is touched: other clients' connections and channels, and this client's own on other channels. */
  lemma {:induction false} OthersAreUntouched(s: Tables, client: string, ch: int, id: Bytes, other: string, k: int)
    ensures var t := Cleaned(s, client, ch);
            && (id in t.conns <==> id in s.conns && !(s.conns[id].client == client && s.conns[id].Uses(ch)))
            && (id in t.revs <==> id in s.revs && !(s.revs[id].owner == client && s.revs[id].Uses(ch)))
            && (id in t.conns ==> t.conns[id] == s.conns[id])
            && (id in t.revs ==> t.revs[id] == s.revs[id])
            && (Live(t, other, k) <==> Live(s, other, k) && !(other == client && k == ch))
            && (other in t.armed <==> other in s.armed && !(other == client && Leaves(s, client, ch)))
            && (other in t.listeners <==> other in s.listeners && !(other == client && Leaves(s, client, ch)))
            && (other in t.listeners ==> t.listeners[other] == s.listeners[other])
  {
    var t := Cleaned(s, client, ch);
    if Live(s, other, k) && !(other == client && k == ch) {
      LiveAfterClose(s, client, ch, other, k);
    }
  }

  /**
    The hot pair table is swept by channel number alone. Another client's entry survives exactly when the
    closing client leaves with its last channel, or the entry does not use a channel of the same number.
  */
  lemma {:induction false} OtherHotEntrySurvivesIff(s: Tables, client: string, ch: int, other: string, key: Bytes)
    requires other != client && Hot.Latest(s.log, other, key).Some?
    ensures Hot.Latest(Cleaned(s, client, ch).log, other, key) == Hot.Latest(s.log, other, key) <==>
            Leaves(s, client, ch) || !Hot.Latest(s.log, other, key).value.Uses(ch)
  {
    Hot.LatestAppend(s.log, Closing(s, client, ch), other, key);
  }

  // ---------------------------------------------------------------- the pool, updated in place

  class ServerPool {
    var chans: map<string, set<int>>
    var conns: map<Bytes, Conn>
    var revs: map<Bytes, Rev>
    var armed: set<string>
    var listeners: map<string, set<Bytes>>
    const hot: Hot.HotPairTable

    ghost function View(): Tables
      reads this, hot
    {
      Tables(chans, conns, revs, hot.log, armed, listeners)
    }

    constructor (hot: Hot.HotPairTable)
      requires hot.log == []
      ensures this.hot == hot && View() == Fresh
    {
      chans, conns, revs, armed, listeners := map[], map[], map[], {}, map[];
      this.hot := hot;
    }

    method CleanupChannel(client: string, ch: int)
      requires hot.Valid()
      modifies this, hot
      ensures hot.Valid() && View() == Cleaned(old(View()), client, ch)
    {
      var clientGone := false;
      if client in chans {
        var left := chans[client] - {ch};
        if left == {} {
          chans := chans - {client};
          clientGone := true;
          armed := armed - {client};
        } else {
          chans := chans[client := left];
        }
      }
      CloseConns(client, ch);
      CloseRevs(client, ch);
      if clientGone {
        hot.InvalidateClient(client);
        listeners := listeners - {client};
      } else {
        hot.InvalidateChannel(ch);
      }
    }

    /** Collects the client's connections on the channel, then unregisters each. */
    method CloseConns(client: string, ch: int)
      modifies this`conns
      ensures conns == map id | id in old(conns) && !(old(conns)[id].client == client && old(conns)[id].Uses(ch)) :: old(conns)[id]
    {
      var rest := conns.Keys;
      var toClose: set<Bytes> := {};
      while rest != {}
        invariant rest <= conns.Keys && toClose <= conns.Keys && conns == old(conns)
        invariant forall id :: id in conns && id !in rest ==> (id in toClose <==> conns[id].client == client && conns[id].Uses(ch))
        invariant toClose !! rest
        decreases |rest|
      {
        var id :| id in rest;
        var c := conns[id];
        if c.client == client && (c.up == ch || c.down == ch) {
          toClose := toClose + {id};
        }
        rest := rest - {id};
      }
      while toClose != {}
        invariant toClose <= conns.Keys <= old(conns).Keys
        invariant forall id :: id in conns ==> conns[id] == old(conns)[id]
        invariant forall id :: id in old(conns) ==>
                    (id in conns && id !in toClose <==> !(old(conns)[id].client == client && old(conns)[id].Uses(ch)))
        decreases |toClose|
      {
        var id :| id in toClose;
        conns := conns - {id};
        toClose := toClose - {id};
      }
    }

    method CloseRevs(client: string, ch: int)
      modifies this`revs
      ensures revs == map id | id in old(revs) && !(old(revs)[id].owner == client && old(revs)[id].Uses(ch)) :: old(revs)[id]
    {
      var rest := revs.Keys;
      var toClose: set<Bytes> := {};
      while rest != {}
        invariant rest <= revs.Keys && toClose <= revs.Keys && revs == old(revs)
        invariant forall id :: id in revs && id !in rest ==> (id in toClose <==> revs[id].owner == client && revs[id].Uses(ch))
        invariant toClose !! rest
        decreases |rest|
      {
        var id :| id in rest;
        var r := revs[id];
        if r.owner == client && (r.send == ch || r.recv == ch) {
          toClose := toClose + {id};
        }
        rest := rest - {id};
      }
      while toClose != {}
        invariant toClose <= revs.Keys <= old(revs).Keys
        invariant forall id :: id in revs ==> revs[id] == old(revs)[id]
        invariant forall id :: id in old(revs) ==>
                    (id in revs && id !in toClose <==> !(old(revs)[id].owner == client && old(revs)[id].Uses(ch)))
        decreases |toClose|
      {
        var id :| id in toClose;
        revs := revs - {id};
        toClose := toClose - {id};
      }
    }

    method HandleTCPConnect(client: string, ch: int, id: Bytes, now: int)
      requires hot.Valid() && hot.clock <= now
      modifies this, hot
      ensures hot.Valid() && View() == Connected(old(View()), client, ch, id, now)
    {
      var owner := "";
      if ChannelAlive(client, ch) {
        owner := client;
      }
      if id in conns {
        return;
      }
      conns := conns[id := Conn(owner, ch, 0)];
      var down := PromotedDownlink(client, ch, id, now);
      if down != 0 {
        conns := conns[id := Conn(owner, ch, down)];
      }
    }

    method PromotedDownlink(client: string, ch: int, id: Bytes, now: int) returns (down: int)
      requires hot.Valid() && hot.clock <= now
      modifies hot
      ensures hot.Valid() && hot.log == old(hot.log) && down == Promotion(old(View()), client, ch, id, now)
    {
      var split := SplitHotPairConnID(id);
      if split.None? {
        return 0;
      }
      var e := hot.Lookup(client, split.value.0, now);
      if e.Some? && e.value.chA == ch && ChannelAlive(client, e.value.chB) {
        return e.value.chB;
      }
      return 0;
    }

    predicate ChannelAlive(client: string, ch: int)
      reads this
    {
      client in chans && ch in chans[client]
    }

    method HandleSelectDownlink(client: string, ch: int, id: Bytes, down: int)
      modifies this
      ensures View() == SelectedDownlink(old(View()), client, ch, id, down)
    {
      if id !in conns || client !in chans || down !in chans[client] {
        return;
      }
      var c := conns[id];
      if c.up > 0 && ch != c.up {
        return;
      }
      if c.client != "" && client != "" && client != c.client {
        return;
      }
      if c.down == 0 {
        conns := conns[id := c.(down := down)];
      }
    }
  }
}
