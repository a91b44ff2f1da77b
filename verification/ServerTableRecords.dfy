/**
  The server's tables against the selection protocols: each record of the connection table takes the steps of
  the forward protocol's server, and each reverse record those of the dialing server, in every run.
*/
module ServerTableRecords {
  import opened Link
  import opened Wire
  import opened ServerTable
  import Hot = HotPairTable
  import F = Forward
  import R = Reverse

  // ---------------------------------------------------------------- forward connections

  lemma {:induction false} LatestIsUsable(log: seq<Hot.Op>, client: string, key: Bytes)
    ensures var e := Hot.Latest(log, client, key); e.Some? ==> e.value.chA > 0 && e.value.chB > 0
  {
    if log != [] {
      LatestIsUsable(log[..|log| - 1], client, key);
      var op := log[|log| - 1];
      if op.Notify? { LastNoteIsUsable(op.notes, key); }
    }
  }

  lemma {:induction false} LastNoteIsUsable(notes: seq<PairInfo>, key: Bytes)
    ensures var n := Hot.LastNote(notes, key); n.Some? ==> n.value.chA > 0 && n.value.chB > 0
  {
    if notes != [] { LastNoteIsUsable(notes[..|notes| - 1], key); }
  }

  /** The usable hot entry for a connection ID: live, under the key in the ID, and with an open downlink. */
  function HotOf(s: Tables, client: string, id: Bytes, now: int): Option<Pair> {
    var split := SplitHotPairConnID(id);
    if split.None? || client == "" || split.value.0 == [] then None
    else
      var e := Hot.Answer(s.log, client, split.value.0, now);
      LatestIsUsable(s.log, client, split.value.0);
      if e.Some? && Live(s, client, e.value.chB) then Some(Pair(e.value.chA, e.value.chB)) else None
  }

  /** The message is not another client's. */
  predicate Owns(s: Tables, client: string, id: Bytes) {
    id in s.conns && (s.conns[id].client == "" || client == "" || s.conns[id].client == client)
  }

  /** What an action of the table says to the record of `id`, in the forward protocol. */
  function Follow(s: Tables, a: Action, id: Bytes, r: F.Server): F.Server {
    match a
    case Connect(client, ch, i, now) =>
      if i == id && ch > 0 then r.Receive(ch, Msg.Connect, HotOf(s, client, id, now), true, true).next else r
    case SelectDownlink(client, ch, i, d) =>
      if i == id && ch > 0 && d > 0
      then r.Receive(ch, Msg.SelectDownlink(d), None, Live(s, client, d) && Owns(s, client, id), true).next else r
    case Unregister(i) => if i == id then r.(live := false) else r
    case CloseChannel(client, ch) =>
      if id in s.conns && s.conns[id].client == client && (r.uplink == ch || r.downlink == ch) then r.(live := false) else r
    case _ => r
  }

  function Replay(s: Tables, actions: seq<Action>, id: Bytes, r: F.Server): F.Server
    decreases |actions|
  {
    if actions == [] then r else Replay(Apply(s, actions[0]), actions[1..], id, Follow(s, actions[0], id, r))
  }

  /** The table holds the record: present exactly while it lives, with its channels. */
  predicate Shows(s: Tables, id: Bytes, r: F.Server) {
    && (id in s.conns <==> r.live)
    && (r.live ==> s.conns[id].up == r.uplink > 0 && s.conns[id].down == r.downlink)
  }

  /** Channels are numbered from one. */
  ghost predicate Positive(s: Tables) {
    forall client, ch :: Live(s, client, ch) ==> ch > 0
  }

  predicate Numbered(a: Action) {
    (a.Connect? ==> a.ch > 0) && (a.SelectDownlink? ==> a.ch > 0)
  }

  lemma {:induction false} StepKeepsPositive(s: Tables, a: Action)
    requires Positive(s)
    ensures Positive(Apply(s, a))
  {
    var t := Apply(s, a);
    forall client, ch | Live(t, client, ch) ensures ch > 0 {
      if !Live(s, client, ch) {
        assert a.Open? && ch == a.ch;
      }
    }
  }

  lemma {:induction false} StepShows(s: Tables, a: Action, id: Bytes, r: F.Server)
    requires Positive(s) && Numbered(a) && Shows(s, id, r)
    ensures Shows(Apply(s, a), id, Follow(s, a, id, r))
  {
  }

  /** In every run the record of a connection ID is what the forward protocol's server makes of the same messages. */
  lemma {:induction false} RunsAsForward(s: Tables, actions: seq<Action>, id: Bytes, r: F.Server)
    requires Positive(s) && Shows(s, id, r) && forall i :: 0 <= i < |actions| ==> Numbered(actions[i])
    ensures Shows(Run(s, actions), id, Replay(s, actions, id, r))
    decreases |actions|
  {
    if actions != [] {
      StepKeepsPositive(s, actions[0]);
      StepShows(s, actions[0], id, r);
      RunsAsForward(Apply(s, actions[0]), actions[1..], id, Follow(s, actions[0], id, r));
    }
  }

  /** From the empty tables: every record, in every run. */
  lemma {:induction false} RecordsFollowTheProtocol(actions: seq<Action>, id: Bytes)
    requires forall i :: 0 <= i < |actions| ==> Numbered(actions[i])
    ensures Shows(Run(Fresh, actions), id, Replay(Fresh, actions, id, F.Server(false, 0, 0, false)))
  {
    RunsAsForward(Fresh, actions, id, F.Server(false, 0, 0, false));
  }

  /** The owner of a record is the client whose live channel carried the first connect message, for as long as it lives. */
  lemma {:induction false} OwnerIsFirst(s: Tables, a: Action, id: Bytes)
    ensures var t := Apply(s, a);
            id in t.conns ==>
              if id in s.conns then t.conns[id].client == s.conns[id].client
              else a.Connect? && a.id == id && t.conns[id].client == if Live(s, a.client, a.ch) then a.client else ""
  {
  }

  /** A choice taken from the uplink: exactly the chosen channel is stored, and nothing else changes. */
  lemma {:induction false} ChoiceIsStored(s: Tables, client: string, ch: int, id: Bytes, d: int)
    requires id in s.conns && s.conns[id].up == ch > 0 && s.conns[id].down == 0 && Owns(s, client, id)
    requires client in s.chans && d in s.chans[client]
    ensures var t := Apply(s, Action.SelectDownlink(client, ch, id, d));
            t.conns.Keys == s.conns.Keys && t == s.(conns := t.conns)
            && forall i :: i in s.conns ==> t.conns[i] == Conn(s.conns[i].client, s.conns[i].up, if i == id then d else s.conns[i].down)
  {
  }

  // ---------------------------------------------------------------- reverse connections

  predicate ShowsReverse(v: Rev, r: R.Server) {
    r.live && v.send == r.sendCh && v.recv == r.recvCh && v.preset == r.preset && v.repaired == r.repaired
  }

  /** A dial presets from a live entry whose two channels are open, and is otherwise a classic one. */
  lemma {:induction false} DialStartsAsReverse(s: Tables, client: string, id: Bytes, key: Bytes, now: int, kind: R.Kind, pair: Pair)
    requires var e := Hot.Answer(s.log, client, key, now);
             if e.Some? && client in s.chans && {e.value.chA, e.value.chB} <= s.chans[client]
             then kind != R.Classic && pair.up == e.value.chA && pair.down == e.value.chB
             else kind == R.Classic
    ensures var t := Apply(s, DialReverse(client, id, key, now));
            && id in t.revs && t.revs[id].owner == client
            && ShowsReverse(t.revs[id], R.Preset(R.Config(kind, {}, pair)))
            && forall i :: i in s.revs && i != id ==> i in t.revs && t.revs[i] == s.revs[i]
  {
    var e := Hot.Answer(s.log, client, key, now);
    if e.Some? {
      assert e.value.chA in {e.value.chA, e.value.chB} && e.value.chB in {e.value.chA, e.value.chB};
    }
  }

  /** An announcement steps the owner's record as the dialing server's, and no other record. */
  lemma {:induction false} AnnouncementStepsAsReverse(s: Tables, client: string, ch: Channel, id: Bytes, x: Channel, wrote: bool, r: R.Server)
    requires id in s.revs && ShowsReverse(s.revs[id], r)
    ensures var t := Apply(s, AnnounceReverse(client, ch, id, x));
            && t.revs.Keys == s.revs.Keys && t.revs[id].owner == s.revs[id].owner
            && ShowsReverse(t.revs[id], if client == s.revs[id].owner then r.Receive(ch, SelectUplink(x), wrote).next else r)
            && forall i :: i in s.revs && i != id ==> t.revs[i] == s.revs[i]
  {
  }
}
