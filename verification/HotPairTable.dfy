/**
  The server's table of hot pairs. Clients announce pairs, channels and clients go away, and entries older
  than ten minutes are swept only when somebody happens to look at them.
*/
module HotPairTable {
  import opened Link
  import opened Wire

  /** Ten minutes, in nanoseconds. */
  const TTL: int := 600_000_000_000

  /** `at` is when the entry was last announced, in nanoseconds. */
  datatype Entry = Entry(key: Bytes, chA: int, chB: int, at: int)
  {
    predicate Uses(ch: int) {
      chA == ch || chB == ch
    }
  }

  predicate Usable(n: PairInfo) {
    n.key != [] && n.chA > 0 && n.chB > 0
  }

  // ---------------------------------------------------------------- the reference: a log that is never swept

  datatype Op =
    | Notify(client: string, notes: seq<PairInfo>, at: int)
    | DropChannel(ch: int)
    | DropClient(client: string)

  /** The last usable record for `key`. */
  function LastNote(notes: seq<PairInfo>, key: Bytes): Option<PairInfo> {
    if notes == [] then None
    else
      var n := notes[|notes| - 1];
      if Usable(n) && n.key == key then Some(n) else LastNote(notes[..|notes| - 1], key)
  }

  lemma {:induction false} LastNoteIn(notes: seq<PairInfo>, key: Bytes)
    ensures var n := LastNote(notes, key); n.Some? ==> exists i :: 0 <= i < |notes| && notes[i] == n.value
  {
    if notes != [] {
      LastNoteIn(notes[..|notes| - 1], key);
    }
  }

  /** What the log says about `key`, whatever its age. */
  function Latest(log: seq<Op>, client: string, key: Bytes): Option<Entry> {
    if log == [] then None
    else Amend(log[|log| - 1], Latest(log[..|log| - 1], client, key), client, key)
  }

  /** What one operation makes of the answer for `key`. */
  function Amend(op: Op, before: Option<Entry>, client: string, key: Bytes): Option<Entry> {
    match op
    case Notify(c, notes, at) =>
      var n := LastNote(notes, key);
      if c == client && n.Some? then Some(Entry(key, n.value.chA, n.value.chB, at)) else before
    case DropChannel(ch) => if before.Some? && before.value.Uses(ch) then None else before
    case DropClient(c) => if c == client then None else before
  }

  /** The log's answer at time `now`: an entry counts for ten minutes. */
  function Answer(log: seq<Op>, client: string, key: Bytes, now: int): Option<Entry> {
    var e := Latest(log, client, key);
    if e.Some? && now - e.value.at <= TTL then e else None
  }

  lemma {:induction false} LatestAppend(log: seq<Op>, op: Op, client: string, key: Bytes)
    ensures Latest(log + [op], client, key) == Amend(op, Latest(log, client, key), client, key)
  {
    assert (log + [op])[..|log|] == log;
  }

  /** Whichever way a closing channel is logged, its client's answers no longer use it. */
  lemma {:induction false} DropForgets(log: seq<Op>, op: Op, client: string, ch: int, key: Bytes, now: int)
    requires op == DropClient(client) || op == DropChannel(ch)
    ensures var e := Answer(log + [op], client, key, now); e.Some? ==> !e.value.Uses(ch)
  {
    LatestAppend(log, op, client, key);
  }

  /** An operation that announces nothing on the channel for the client leaves its answers free of the channel. */
  lemma {:induction false} StaysFree(log: seq<Op>, op: Op, client: string, ch: int, key: Bytes)
    requires Latest(log, client, key).Some? ==> !Latest(log, client, key).value.Uses(ch)
    requires op.Notify? && op.client == client ==>
               forall i :: 0 <= i < |op.notes| ==> op.notes[i].chA != ch && op.notes[i].chB != ch
    ensures var e := Latest(log + [op], client, key); e.Some? ==> !e.value.Uses(ch)
  {
    LatestAppend(log, op, client, key);
    if op.Notify? {
      LastNoteIn(op.notes, key);
    }
  }

  lemma {:induction false} LatestHasKey(log: seq<Op>, client: string, key: Bytes)
    ensures Latest(log, client, key).Some? ==> Latest(log, client, key).value.key == key
  {
    if log != [] { LatestHasKey(log[..|log| - 1], client, key); }
  }

  /** The last record for `key` that names a key and two channels. */
  ghost predicate LastFor(notes: seq<PairInfo>, key: Bytes, i: nat) {
    && i < |notes| && notes[i].key == key != [] && notes[i].chA > 0 && notes[i].chB > 0
    && forall j :: i < j < |notes| && notes[j].key == key ==> notes[j].chA <= 0 || notes[j].chB <= 0
  }

  lemma {:induction false} LastNoteIs(notes: seq<PairInfo>, key: Bytes, i: nat)
    requires LastFor(notes, key, i)
    ensures LastNote(notes, key) == Some(notes[i])
  {
    if i < |notes| - 1 {
      LastNoteIs(notes[..|notes| - 1], key, i);
    }
  }

  /** What was announced last is answered for ten minutes, with the channels announced; other clients hear nothing of it. */
  lemma {:induction false} NotifiedIsAnswered(log: seq<Op>, client: string, notes: seq<PairInfo>, at: int, key: Bytes, i: nat, now: int, other: string)
    requires LastFor(notes, key, i)
    ensures var next := log + [Notify(client, notes, at)];
            && Answer(next, client, key, now) == (if now <= at + 600_000_000_000 then Some(Entry(key, notes[i].chA, notes[i].chB, at)) else None)
            && (other != client ==> Answer(next, other, key, now) == Answer(log, other, key, now))
  {
    LatestAppend(log, Notify(client, notes, at), client, key);
    LatestAppend(log, Notify(client, notes, at), other, key);
    LastNoteIs(notes, key, i);
  }

  /** An answer stays until its client goes, a channel with one of its numbers goes, or its key is announced anew. */
  lemma {:induction false} AnswerStays(log: seq<Op>, op: Op, client: string, key: Bytes, now: int)
    requires Answer(log, client, key, now).Some?
    ensures var e := Answer(log, client, key, now).value;
            var anew := op.Notify? && op.client == client && exists i :: LastFor(op.notes, key, i);
            && (!anew ==> (Answer(log + [op], client, key, now) == Some(e) <==>
                  !(op == DropClient(client) || op == DropChannel(e.chA) || op == DropChannel(e.chB))))
            && (!anew && Answer(log + [op], client, key, now) != Some(e) ==> Answer(log + [op], client, key, now) == None)
  {
    LatestAppend(log, op, client, key);
    if op.Notify? && LastNote(op.notes, key).Some? {
      LastNoteAt(op.notes, key);
    }
  }

  lemma {:induction false} LastNoteAt(notes: seq<PairInfo>, key: Bytes)
    requires LastNote(notes, key).Some?
    ensures exists i :: LastFor(notes, key, i)
  {
    var n := |notes| - 1;
    if !(Usable(notes[n]) && notes[n].key == key) {
      LastNoteAt(notes[..n], key);
      var i :| LastFor(notes[..n], key, i);
      assert LastFor(notes, key, i) || key == [];
    } else {
      assert LastFor(notes, key, n);
    }
  }

  // ---------------------------------------------------------------- the table against the log

  type Table = map<string, map<Bytes, Entry>>

  function Stored(table: Table, client: string, key: Bytes): Option<Entry> {
    if client in table && key in table[client] then Some(table[client][key]) else None
  }

  /** The table has what the log has, except for entries that were too old by `clock`. */
  predicate Explains(stored: Option<Entry>, latest: Option<Entry>, clock: int) {
    match stored
    case Some(e) => latest == Some(e) && e.at <= clock
    case None => latest.Some? ==> clock - latest.value.at > TTL
  }

  ghost predicate Agrees(table: Table, log: seq<Op>, clock: int) {
    forall client, key :: Explains(Stored(table, client, key), Latest(log, client, key), clock)
  }

  function Forget(table: Table, client: string, key: Bytes): Table
    requires client in table
  {
    table[client := table[client] - {key}]
  }

  lemma {:induction false} TimePasses(table: Table, log: seq<Op>, clock: int, now: int)
    requires Agrees(table, log, clock) && clock <= now
    ensures Agrees(table, log, now)
  {
    forall c, k ensures Explains(Stored(table, c, k), Latest(log, c, k), now) {
      assert Explains(Stored(table, c, k), Latest(log, c, k), clock);
    }
  }

  lemma {:induction false} ForgetsExpired(table: Table, log: seq<Op>, now: int, client: string, key: Bytes)
    requires Agrees(table, log, now) && client in table && key in table[client] && now - table[client][key].at > TTL
    ensures Agrees(Forget(table, client, key), log, now)
  {
    forall c, k ensures Explains(Stored(Forget(table, client, key), c, k), Latest(log, c, k), now) {
      assert Explains(Stored(table, c, k), Latest(log, c, k), now);
    }
  }

  /** A table that agrees with the log answers like the log. */
  lemma {:induction false} SweepIsInvisible(table: Table, log: seq<Op>, now: int, client: string, key: Bytes)
    requires Agrees(table, log, now)
    ensures Answer(log, client, key, now) ==
            (var e := Stored(table, client, key); if e.Some? && now - e.value.at <= TTL then e else None)
  {
    assert Explains(Stored(table, client, key), Latest(log, client, key), now);
  }

  lemma {:induction false} OpensClient(table: Table, log: seq<Op>, now: int, client: string)
    requires Agrees(table, log, now) && client !in table
    ensures Agrees(table[client := map[]], log, now)
  {
    forall c, k ensures Explains(Stored(table[client := map[]], c, k), Latest(log, c, k), now) {
      assert Explains(Stored(table, c, k), Latest(log, c, k), now);
    }
  }

  lemma {:induction false} EmptyNotice(table: Table, log: seq<Op>, now: int, client: string)
    requires Agrees(table, log, now)
    ensures Agrees(table, log + [Notify(client, [], now)], now)
  {
    forall c, k ensures Explains(Stored(table, c, k), Latest(log + [Notify(client, [], now)], c, k), now) {
      LatestAppend(log, Notify(client, [], now), c, k);
      assert Explains(Stored(table, c, k), Latest(log, c, k), now);
    }
  }

  /** One more record of a notification. */
  lemma {:induction false} OneMoreNote(table: Table, log: seq<Op>, now: int, client: string, notes: seq<PairInfo>, n: PairInfo)
    requires Agrees(table, log + [Notify(client, notes, now)], now) && client in table
    ensures var t := if Usable(n) then table[client := table[client][n.key := Entry(n.key, n.chA, n.chB, now)]] else table;
            Agrees(t, log + [Notify(client, notes + [n], now)], now)
  {
    var t := if Usable(n) then table[client := table[client][n.key := Entry(n.key, n.chA, n.chB, now)]] else table;
    assert (notes + [n])[..|notes|] == notes;
    forall c, k ensures Explains(Stored(t, c, k), Latest(log + [Notify(client, notes + [n], now)], c, k), now) {
      LatestAppend(log, Notify(client, notes + [n], now), c, k);
      LatestAppend(log, Notify(client, notes, now), c, k);
      assert Explains(Stored(table, c, k), Latest(log + [Notify(client, notes, now)], c, k), now);
    }
  }

  class HotPairTable {
    var table: Table
    /** History: every operation so far, and the time of the last one. */
    ghost var log: seq<Op>
    ghost var clock: int

    ghost predicate Valid()
      reads this
    {
      Agrees(table, log, clock)
    }

    constructor ()
      ensures Valid() && log == [] && clock == 0
    {
      table, log, clock := map[], [], 0;
    }

    method HandleNotify(client: string, payload: Bytes, now: int)
      requires Valid() && clock <= now
      modifies this
      ensures Valid() && clock == now && log == old(log) + [Notify(client, DecodeNotify(payload), now)]
    {
      var notes := DecodeHotPairNotify(payload);
      ghost var before := log;
      log, clock := log + [Notify(client, notes, now)], now;
      TimePasses(table, before, old(clock), now);
      EmptyNotice(table, before, now, client);
      if notes == [] {
        return;
      }
      if client !in table {
        OpensClient(table, before, now, client);
        table := table[client := map[]];
      }
      SweepClient(client, now, before);
      EmptyNotice(table, before, now, client);
      for i := 0 to |notes|
        invariant client in table && clock == now && log == before + [Notify(client, notes, now)]
        invariant Agrees(table, before + [Notify(client, notes[..i], now)], now)
      {
        var n := notes[i];
        OneMoreNote(table, before, now, client, notes[..i], n);
        assert notes[..i + 1] == notes[..i] + [n];
        if n.key == [] || n.chA <= 0 || n.chB <= 0 {
          continue;
        }
        table := table[client := table[client][n.key := Entry(n.key, n.chA, n.chB, now)]];
      }
      assert notes[..|notes|] == notes;
    }

    /** Deletes the client's expired entries, in any order. */
    method SweepClient(client: string, now: int, ghost known: seq<Op>)
      requires client in table && Agrees(table, known, now)
      modifies this`table
      ensures client in table && Agrees(table, known, now)
      ensures forall k :: k in table[client] ==> now - table[client][k].at <= TTL
    {
      var keys := table[client].Keys;
      while keys != {}
        invariant client in table && Agrees(table, known, now)
        invariant keys <= table[client].Keys
        invariant forall k :: k in table[client] && k !in keys ==> now - table[client][k].at <= TTL
        decreases |keys|
      {
        var k :| k in keys;
        if now - table[client][k].at > TTL {
          ForgetsExpired(table, known, now, client, k);
          table := table[client := table[client] - {k}];
        }
        keys := keys - {k};
      }
    }

    method Lookup(client: string, key: Bytes, now: int) returns (r: Option<Entry>)
      requires Valid() && clock <= now
      modifies this
      ensures Valid() && clock == now && log == old(log)
      ensures r == if client == "" || key == [] then None else Answer(log, client, key, now)
    {
      TimePasses(table, log, clock, now);
      clock := now;
      if client == "" || key == [] {
        return None;
      }
      SweepIsInvisible(table, log, now, client, key);
      if client !in table || key !in table[client] {
        return None;
      }
      var e := table[client][key];
      if now - e.at > TTL {
        ForgetsExpired(table, log, now, client, key);
        table := table[client := table[client] - {key}];
        return None;
      }
      return Some(e);
    }

    /** Some live entry of maximal time; the map is visited in any order. */
    method Newest(client: string, now: int) returns (r: Option<Entry>)
      requires Valid() && clock <= now
      modifies this
      ensures Valid() && clock == now && log == old(log)
      ensures client == "" ==> r == None
      ensures client != "" && r.None? ==> forall k :: Answer(log, client, k, now).None?
      ensures r.Some? ==> r == Answer(log, client, r.value.key, now)
      ensures r.Some? ==> forall k :: Answer(log, client, k, now).Some? ==> Answer(log, client, k, now).value.at <= r.value.at
    {
      TimePasses(table, log, clock, now);
      clock := now;
      if client == "" {
        return None;
      }
      r := None;
      if client in table {
        var keys := table[client].Keys;
        while keys != {}
          invariant client in table && Agrees(table, log, now) && clock == now && log == old(log)
          invariant keys <= table[client].Keys
          invariant forall k :: k in table[client] && k !in keys ==>
                      now - table[client][k].at <= TTL && r.Some? && table[client][k].at <= r.value.at
          invariant r.Some? ==> Stored(table, client, r.value.key) == r && r.value.key !in keys
          decreases |keys|
        {
          var k :| k in keys;
          var e := table[client][k];
          EntryHasKey(table, log, now, client, k);
          keys := keys - {k};
          if now - e.at > TTL {
            ForgetsExpired(table, log, now, client, k);
            table := table[client := table[client] - {k}];
            continue;
          }
          if r.None? || e.at > r.value.at {
            r := Some(e);
          }
        }
      }
      forall k
        ensures Answer(log, client, k, now) ==
                (var e := Stored(table, client, k); if e.Some? && now - e.value.at <= TTL then e else None)
      {
        SweepIsInvisible(table, log, now, client, k);
      }
    }

    method InvalidateChannel(ch: int)
      requires Valid()
      modifies this
      ensures Valid() && clock == old(clock) && log == old(log) + [DropChannel(ch)]
    {
      var swept: Table := map[];
      var clients := table.Keys;
      while clients != {}
        invariant clients <= table.Keys && clock == old(clock) && log == old(log) && table == old(table)
        invariant forall c, k :: c !in clients ==> Stored(swept, c, k) == Spared(Stored(table, c, k), ch)
        decreases |clients|
      {
        var c :| c in clients;
        var m := SweepChannel(table[c], ch);
        clients := clients - {c};
        if m != map[] {
          swept := swept[c := m];
        } else {
          swept := swept - {c};
        }
      }
      ChannelGone(table, swept, log, clock, ch);
      table := swept;
      log := log + [DropChannel(ch)];
    }

    method InvalidateClient(client: string)
      requires Valid()
      modifies this
      ensures Valid() && clock == old(clock) && log == old(log) + [DropClient(client)]
    {
      ClientGone(table, log, clock, client);
      table := table - {client};
      log := log + [DropClient(client)];
    }
  }

  lemma {:induction false} EntryHasKey(table: Table, log: seq<Op>, now: int, client: string, key: Bytes)
    requires Agrees(table, log, now) && client in table && key in table[client]
    ensures table[client][key].key == key
  {
    assert Explains(Stored(table, client, key), Latest(log, client, key), now);
    LatestHasKey(log, client, key);
  }

  /** An entry that does not use the channel. */
  function Spared(e: Option<Entry>, ch: int): Option<Entry> {
    if e.Some? && e.value.Uses(ch) then None else e
  }

  method SweepChannel(m: map<Bytes, Entry>, ch: int) returns (r: map<Bytes, Entry>)
    ensures forall k :: k in r <==> k in m && !m[k].Uses(ch)
    ensures forall k :: k in r ==> r[k] == m[k]
  {
    r := m;
    var keys := m.Keys;
    while keys != {}
      invariant keys <= m.Keys
      invariant forall k :: k in r <==> k in m && (k in keys || !m[k].Uses(ch))
      invariant forall k :: k in r ==> r[k] == m[k]
      decreases |keys|
    {
      var k :| k in keys;
      keys := keys - {k};
      if m[k].chA == ch || m[k].chB == ch {
        r := r - {k};
      }
    }
  }

  lemma {:induction false} ChannelGone(table: Table, swept: Table, log: seq<Op>, clock: int, ch: int)
    requires Agrees(table, log, clock)
    requires forall c, k :: Stored(swept, c, k) == Spared(Stored(table, c, k), ch)
    ensures Agrees(swept, log + [DropChannel(ch)], clock)
  {
    forall c, k ensures Explains(Stored(swept, c, k), Latest(log + [DropChannel(ch)], c, k), clock) {
      LatestAppend(log, DropChannel(ch), c, k);
      assert Explains(Stored(table, c, k), Latest(log, c, k), clock);
    }
  }

  lemma {:induction false} ClientGone(table: Table, log: seq<Op>, clock: int, client: string)
    requires Agrees(table, log, clock)
    ensures Agrees(table - {client}, log + [DropClient(client)], clock)
  {
    forall c, k ensures Explains(Stored(table - {client}, c, k), Latest(log + [DropClient(client)], c, k), clock) {
      LatestAppend(log, DropClient(client), c, k);
      assert Explains(Stored(table, c, k), Latest(log, c, k), clock);
    }
  }
}
