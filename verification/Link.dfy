/** Messages of one logical connection and the per-channel FIFO queues that carry them. */
module Link {
  datatype Option<+T> = None | Some(value: T)

  /** A WebSocket channel number. Zero is not a channel: it is how both ends write "not chosen yet". */
  type Channel = c: int | 0 < c witness 1

  type Byte = b: int | 0 <= b < 256

  type Payload = seq<Byte>

  /** A hot pair: `up` carries client to server, `down` carries server to client. */
  datatype Pair = Pair(up: Channel, down: Channel)

  /** The target name under which a client registers its prebind races. */
  const PREBIND_TARGET := "x-tunnel.prebind"

  /** Not chosen yet, or chosen as `other`. */
  predicate UnsetOr(ch: nat, other: nat) {
    ch == 0 || ch == other
  }

  /** A byte counter's guard against going negative. */
  function Clamp(n: int): int {
    if n < 0 then 0 else n
  }

  /** The messages that take part in channel selection and data transfer. */
  datatype Msg =
    | Connect
    | Data(payload: Payload)
    | SelectUplink(ch: Channel)
    | SelectDownlink(ch: Channel)
    | Close
    | Status(ok: bool)

  /** One direction of every open channel: the key set is the set of channels. */
  type Queues = map<Channel, seq<Msg>>

  function Empty(channels: set<Channel>): Queues {
    map c | c in channels :: []
  }

  function Broadcast(q: Queues, m: Msg): Queues {
    map c | c in q :: q[c] + [m]
  }

  /** Unicast; a channel that is not open swallows the message. */
  function Post(q: Queues, c: Channel, m: Msg): Queues {
    if c in q then q[c := q[c] + [m]] else q
  }

  /** Unicast when a channel has been chosen, broadcast otherwise. */
  function Send(q: Queues, chosen: nat, m: Msg): Queues {
    if chosen > 0 then Post(q, chosen, m) else Broadcast(q, m)
  }

  predicate Waiting(q: Queues, c: Channel) {
    c in q && q[c] != []
  }

  function Head(q: Queues, c: Channel): Msg
    requires Waiting(q, c)
  {
    q[c][0]
  }

  function Pop(q: Queues, c: Channel): Queues
    requires Waiting(q, c)
  {
    q[c := q[c][1..]]
  }

  /** The payloads in a queue, oldest first. */
  function DataOf(s: seq<Msg>): seq<Payload> {
    if s == [] then []
    else if s[0].Data? then [s[0].payload] + DataOf(s[1..])
    else DataOf(s[1..])
  }

  lemma {:induction false} DataOfAppend(s: seq<Msg>, m: Msg)
    ensures DataOf(s + [m]) == if m.Data? then DataOf(s) + [m.payload] else DataOf(s)
  {
    if s == [] {
      assert s + [m] == [m];
      assert [m][1..] == [];
    } else {
      assert (s + [m])[1..] == s[1..] + [m];
      DataOfAppend(s[1..], m);
    }
  }

  /** What a send does to every channel: a queue it reaches grows by `m`, every other queue is untouched. */
  lemma {:induction false} SendAt(q: Queues, chosen: nat, m: Msg, c: Channel)
    requires c in q
    ensures Send(q, chosen, m).Keys == q.Keys
    ensures chosen == 0 || chosen == c ==> Send(q, chosen, m)[c] == q[c] + [m]
    ensures chosen != 0 && chosen != c ==> Send(q, chosen, m)[c] == q[c]
    ensures DataOf(Send(q, chosen, m)[c]) ==
            if m.Data? && (chosen == 0 || chosen == c) then DataOf(q[c]) + [m.payload] else DataOf(q[c])
  {
    DataOfAppend(q[c], m);
  }

  // ---------------------------------------------------------------- queues over time

  /** Every queue has kept what it held, in front of whatever has been added. */
  ghost predicate Grown(q: Queues, r: Queues) {
    r.Keys == q.Keys && forall c :: c in q ==> q[c] <= r[c]
  }

  lemma {:induction false} SendGrows(q: Queues, chosen: nat, m: Msg)
    ensures Grown(q, Send(q, chosen, m))
  {
  }

  lemma {:induction false} PostGrows(q: Queues, c: Channel, m: Msg)
    ensures Grown(q, Post(q, c, m))
  {
  }

  lemma {:induction false} GrownTwice(q: Queues, r: Queues, t: Queues)
    requires Grown(q, r) && Grown(r, t)
    ensures Grown(q, t)
  {
    forall c | c in q ensures q[c] <= t[c] {
      assert q[c] <= r[c] <= t[c];
    }
  }

  /** The message waits on some channel. */
  predicate Holds(q: Queues, m: Msg) {
    exists c :: c in q && m in q[c]
  }

  lemma {:induction false} SentHolds(q: Queues, chosen: nat, m: Msg, c: Channel)
    requires c in q && UnsetOr(chosen, c)
    ensures c in Send(q, chosen, m) && m in Send(q, chosen, m)[c] && Holds(Send(q, chosen, m), m)
  {
    SendAt(q, chosen, m, c);
    assert Send(q, chosen, m)[c][|q[c]|] == m;
  }

  lemma {:induction false} PopHolds(q: Queues, c: Channel, m: Msg)
    requires Waiting(q, c) && Head(q, c) != m
    ensures m in q[c] ==> m in Pop(q, c)[c]
    ensures Holds(q, m) ==> Holds(Pop(q, c), m)
  {
    assert q[c] == [Head(q, c)] + q[c][1..];
    if Holds(q, m) {
      var x :| x in q && m in q[x];
      assert m in Pop(q, c)[x];
    }
  }

  lemma {:induction false} GrownHolds(q: Queues, r: Queues, m: Msg)
    requires Grown(q, r)
    ensures Holds(q, m) ==> Holds(r, m)
    ensures forall c :: c in q && m in q[c] ==> m in r[c]
  {
    forall c | c in q && m in q[c] ensures m in r[c] {
      assert q[c] <= r[c];
    }
    if Holds(q, m) {
      var x :| x in q && m in q[x];
      assert m in r[x];
    }
  }

  ghost predicate Quiet(q: Queues) {
    forall c :: c in q ==> q[c] == []
  }
}
