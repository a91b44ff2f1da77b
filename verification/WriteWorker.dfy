/**
  The client's write worker for one channel: it takes jobs off the session queue, gives their bytes back
  to the global counter, and joins adjacent data messages of one connection into one message.

  The loops are written for any codec; the frame codec comes in at the end.
*/
module WriteWorker {
  import opened Link
  import opened Pieces
  import opened Batches
  import opened Wire

  /** A queued message; `size` is what was reserved for it. */
  datatype Job<R> = Job(message: R, size: nat)

  /** How messages are taken apart and put together. */
  datatype Codec<!R, !I, !B> = Codec(decode: R -> Option<Segment<I, B>>, encode: Segment<I, B> -> R)

  /** The jobs as the other end would take them if they were written one by one. */
  ghost predicate Seen<R, I, B>(codec: Codec<R, I, B>, queue: seq<Job<R>>, items: seq<Item<R, I, B>>) {
    && |items| == |queue|
    && forall k :: 0 <= k < |queue| ==> items[k].raw == queue[k].message && items[k].tcp == codec.decode(queue[k].message)
  }

  /** `message` is how a batch that became `x` is written. */
  ghost predicate WrittenAs<R, I, B>(codec: Codec<R, I, B>, x: Item<R, I, B>, message: R) {
    x.raw == message && (x.tcp.Some? ==> message == codec.encode(x.tcp.value))
  }

  /** The first `n` jobs have been given back, each exactly once and in order. */
  ghost predicate Gave<R>(released: seq<nat>, queue: seq<Job<R>>, n: nat) {
    |released| == n <= |queue| && forall k :: 0 <= k < n ==> released[k] == queue[k].size
  }

  /** How far the queue has been taken from: past the batch, and past the job that ended it, if one did. */
  function Taken<R>(end: nat, pending: Option<Job<R>>): nat {
    if pending.Some? then end + 1 else end
  }

  // ---------------------------------------------------------------- joining

  /** Copies the parts into one buffer of the given length. */
  method Merge<B(0)>(parts: seq<seq<B>>, total: nat) returns (merged: seq<B>)
    requires total == |All(parts)|
    ensures merged == All(parts)
  {
    var buffer := new B[total];
    var off := 0;
    for i := 0 to |parts|
      invariant off == |Flat(parts, 0, i)| <= total
      invariant buffer[..off] == Flat(parts, 0, i)
    {
      FlatJoin(parts, 0, i + 1, |parts|);
      var part := parts[i];
      ghost var before := buffer[..off];
      for k := 0 to |part|
        invariant off + |part| <= buffer.Length
        invariant buffer[..off] == before
        invariant buffer[off..off + k] == part[..k]
      {
        buffer[off + k] := part[k];
      }
      off := off + |part|;
      assert buffer[..off] == before + part;
    }
    merged := buffer[..];
  }

  method Join<B(0)>(parts: seq<seq<B>>, total: nat) returns (merged: seq<B>)
    requires parts != [] && total == |All(parts)|
    ensures merged == All(parts)
  {
    if |parts| == 1 {
      merged := parts[0];
      FlatOne(parts, 0);
    } else {
      merged := Merge(parts, total);
    }
  }

  lemma {:induction false} PartsJoin<R, I, B>(items: seq<Item<R, I, B>>, lo: nat, hi: nat, parts: seq<seq<B>>)
    requires lo <= hi <= |items| && |parts| >= hi - lo
    requires forall k :: 0 <= k < |parts| && lo + k < |items| ==> parts[k] == PayloadOf(items[lo + k])
    ensures Flat(parts, 0, hi - lo) == Payloads(items, lo, hi)
    ensures |Payloads(items, lo, hi)| == Size(items, lo, hi)
    decreases hi
  {
    if lo < hi {
      PartsJoin(items, lo, hi - 1, parts);
    }
  }

  // ---------------------------------------------------------------- the worker

  /** The payload of the next message, if it may join a batch of `total` bytes. */
  method TryJoin<R, I(==), B(==)>(codec: Codec<R, I, B>, message: R, id: I, total: nat, maxAgg: int, ghost x: Item<R, I, B>)
      returns (part: Option<seq<B>>)
    requires x.tcp == codec.decode(message)
    ensures part.Some? <==> Follows(id, x) && total + |PayloadOf(x)| <= maxAgg
    ensures part.Some? ==> part.value == PayloadOf(x)
  {
    var data := codec.decode(message);
    if data.None? || data.value.id != id || data.value.meta != [] {
      return None;
    }
    if total + |data.value.payload| > maxAgg {
      return None;
    }
    return Some(data.value.payload);
  }

  /**
    The aggregation loop, after the first message has been taken: it stops at a gap, at a closed queue, or at
    a job it cannot join, which it has already taken and given back the bytes of.
  */
  method Collect<R, I(==), B(==)>(codec: Codec<R, I, B>, queue: seq<Job<R>>, start: nat, first: Segment<I, B>, maxAgg: int,
                                  gap: nat -> bool, before: seq<nat>, ghost items: seq<Item<R, I, B>>)
      returns (parts: seq<seq<B>>, total: nat, end: nat, pending: Option<Job<R>>, released: seq<nat>)
    requires Seen(codec, queue, items) && start < |queue| && items[start].tcp == Some(first) && Gave(before, queue, start + 1)
    ensures start < end <= Taken(end, pending) <= |queue| && total == Size(items, start, end)
    ensures end == start + 1 || total <= maxAgg
    ensures forall k :: start < k < end ==> Follows(first.id, items[k])
    ensures |parts| == end - start && forall k :: 0 <= k < |parts| ==> parts[k] == PayloadOf(items[start + k])
    ensures Gave(released, queue, Taken(end, pending))
    ensures pending.Some? ==> pending.value == queue[end]
    ensures end < |queue| ==> gap(end) || !Follows(first.id, items[end]) || total + |PayloadOf(items[end])| > maxAgg
  {
    total := |first.payload|;
    parts := [first.payload];
    end, pending, released := start + 1, None, before;
    while pending.None? && end < |queue| && !gap(end)
      invariant start < end <= Taken(end, pending) <= |queue| && total == Size(items, start, end)
      invariant end == start + 1 || total <= maxAgg
      invariant forall k :: start < k < end ==> Follows(first.id, items[k])
      invariant |parts| == end - start && forall k :: 0 <= k < |parts| ==> parts[k] == PayloadOf(items[start + k])
      invariant Gave(released, queue, Taken(end, pending))
      invariant pending.Some? ==>
                  && pending.value == queue[end]
                  && (!Follows(first.id, items[end]) || total + |PayloadOf(items[end])| > maxAgg)
      decreases |queue| - Taken(end, pending)
    {
      var next := queue[end];
      released := released + [next.size];
      var part := TryJoin(codec, next.message, first.id, total, maxAgg, items[end]);
      if part.None? {
        pending := Some(next);
      } else {
        parts := parts + [part.value];
        total := total + |part.value|;
        end := end + 1;
      }
    }
  }

  /** One message for the job at `start`: joined with what follows if it holds data, unchanged otherwise. */
  method Prepare<R, I(==), B(==, 0)>(codec: Codec<R, I, B>, queue: seq<Job<R>>, start: nat, maxAgg: int,
                                     gap: nat -> bool, before: seq<nat>, ghost items: seq<Item<R, I, B>>)
      returns (message: R, end: nat, pending: Option<Job<R>>, released: seq<nat>, ghost joined: Item<R, I, B>)
    requires Seen(codec, queue, items) && start < |queue| && Gave(before, queue, start + 1)
    ensures start < end <= Taken(end, pending) <= |queue|
    ensures Written(items, maxAgg, gap, start, end, joined) && WrittenAs(codec, joined, message)
    ensures pending.Some? ==> pending.value == queue[end]
    ensures Gave(released, queue, Taken(end, pending))
  {
    var job := queue[start];
    var first := codec.decode(job.message);
    if first.None? {
      message, end, pending, released := job.message, start + 1, None, before;
      joined := Item(message, None);
    } else {
      var parts, total;
      parts, total, end, pending, released := Collect(codec, queue, start, first.value, maxAgg, gap, before, items);
      PartsJoin(items, start, end, parts);
      var merged := Join(parts, total);
      message := codec.encode(first.value.(payload := merged));
      joined := Item(message, Some(first.value.(payload := merged)));
    }
  }

  /**
    Works through the jobs that will arrive on a session queue, in order.

    gap(i): when the aggregation loop looks for job `i`, it has not arrived yet. fails(k): the write of
    message `k` fails. quits(i): waiting for job `i` ends in a cancelled context or a failed ping. late(i): the
    deferred drain of a worker that has failed or quit finds the queue empty before job `i` arrives. `complete`
    says that the worker ran until the queue was closed and empty, `taken` how many jobs left the queue.
    `joined` is what it meant each message to hold.
  */
  method Loop<R, I(==), B(==, 0)>(codec: Codec<R, I, B>, queue: seq<Job<R>>, maxAgg: int,
                                  gap: nat -> bool, fails: nat -> bool, quits: nat -> bool, late: nat -> bool,
                                  ghost items: seq<Item<R, I, B>>)
      returns (sent: seq<R>, released: seq<nat>, taken: nat, complete: bool, ghost cuts: seq<nat>, ghost joined: seq<Item<R, I, B>>)
    requires Seen(codec, queue, items)
    // the bytes of every job that leaves the queue are given back exactly once, whatever happens
    ensures Gave(released, queue, taken)
    ensures taken < |queue| ==> !complete && late(taken)
    ensures Batched(items, maxAgg, gap, cuts, joined)
    ensures |joined| == |sent| && forall k :: 0 <= k < |sent| ==> WrittenAs(codec, joined[k], sent[k])
    ensures cuts[|sent|] <= taken && (complete ==> cuts[|sent|] == |queue|)
    ensures (forall k: nat :: !fails(k) && !quits(k)) ==> complete
  {
    sent, released, complete, cuts, joined := [], [], true, [0], [];
    var pending: Option<Job<R>> := None;
    var pendingReleased := false;
    var i: nat := 0;
    while complete && (pending.Some? || i < |queue|)
      invariant i <= |queue| && Gave(released, queue, i)
      invariant Batched(items, maxAgg, gap, cuts, joined)
      invariant |joined| == |sent| && forall k :: 0 <= k < |sent| ==> WrittenAs(codec, joined[k], sent[k])
      invariant pending.Some? ==> pendingReleased && i > 0 && pending.value == queue[i - 1]
      invariant cuts[|sent|] <= i && (complete ==> i == Taken(cuts[|sent|], pending))
      invariant !complete ==> exists k: nat :: fails(k) || quits(k)
      decreases complete, |queue| - cuts[|sent|]
    {
      var isReleased := false;
      if pending.Some? {
        isReleased := pendingReleased;
        pending, pendingReleased := None, false;
      } else if quits(i) {
        complete := false;
        break;
      } else {
        i := i + 1;
      }
      var job := queue[i - 1];
      if !isReleased {
        released := released + [job.size];
      }
      var message, end;
      ghost var x;
      message, end, pending, released, x := Prepare(codec, queue, i - 1, maxAgg, gap, released, items);
      pendingReleased := pending.Some?;
      i := Taken(end, pending);
      if fails(|sent|) {
        complete := false;
        break;
      }
      NextBatch(items, maxAgg, gap, cuts, joined, end, x);
      sent, cuts, joined := sent + [message], cuts + [end], joined + [x];
    }
    taken := i;
    if !complete {
      released, taken := Drain(queue, i, released, late);
    }
  }

  /** The deferred loop that empties the queue when the worker ends: it stops as soon as it finds it empty. */
  method Drain<R>(queue: seq<Job<R>>, start: nat, before: seq<nat>, late: nat -> bool) returns (released: seq<nat>, taken: nat)
    requires Gave(before, queue, start)
    ensures start <= taken && Gave(released, queue, taken)
    ensures taken < |queue| ==> late(taken)
  {
    released, taken := before, start;
    while taken < |queue| && !late(taken)
      invariant start <= taken && Gave(released, queue, taken)
    {
      released := released + [queue[taken].size];
      taken := taken + 1;
    }
  }

  lemma {:induction false} NextBatch<R, I, B>(items: seq<Item<R, I, B>>, maxAgg: int, gap: nat -> bool, cuts: seq<nat>,
                           got: seq<Item<R, I, B>>, end: nat, x: Item<R, I, B>)
    requires Batched(items, maxAgg, gap, cuts, got) && Written(items, maxAgg, gap, cuts[|got|], end, x)
    ensures Batched(items, maxAgg, gap, cuts + [end], got + [x])
  {
    var cs, xs := cuts + [end], got + [x];
    forall k | 0 <= k < |xs| ensures Written(items, maxAgg, gap, cs[k], cs[k + 1], xs[k]) {
      if k < |got| {
        assert Written(items, maxAgg, gap, cuts[k], cuts[k + 1], got[k]);
      }
    }
  }

  // ---------------------------------------------------------------- with the frame codec

  const BINARY := 2
  const TCP_DATA: Byte := 2

  /** A WebSocket message. */
  datatype Sent = Sent(kind: int, data: Bytes)

  type Data = Segment<Bytes, Byte>

  type Message = Item<Sent, Bytes, Byte>

  /** The TCP data a message holds, if it holds any. */
  function Tcp(s: Sent): (r: Option<Data>)
    ensures r.Some? ==> Fits(FrameOf(r.value))
  {
    if s.kind != BINARY then None
    else
      var d := DecodeMessage(s.data);
      if d.Ok? && d.value.kind == TCP_DATA then
        DecodedFits(s.data);
        Some(Segment(d.value.id, d.value.meta, d.value.payload))
      else None
  }

  function FrameOf(d: Data): Frame {
    Frame(TCP_DATA, d.id, d.meta, d.payload)
  }

  function Encoded(d: Data): Sent {
    Sent(BINARY, EncodeMessage(FrameOf(d)))
  }

  const FrameCodec: Codec<Sent, Bytes, Byte> := Codec(Tcp, Encoded)

  /** The messages as the other end takes them. */
  function Looks(ss: seq<Sent>): (items: seq<Message>)
    ensures |items| == |ss|
  {
    seq(|ss|, k requires 0 <= k < |ss| => Item(ss[k], Tcp(ss[k])))
  }

  /** The jobs written one by one, without any joining. */
  function Plain(queue: seq<Job<Sent>>): (ss: seq<Sent>)
    ensures |ss| == |queue| && forall k :: 0 <= k < |queue| ==> ss[k] == queue[k].message
  {
    seq(|queue|, k requires 0 <= k < |queue| => queue[k].message)
  }

  lemma {:induction false} EncodedDecodes(d: Data)
    requires Fits(FrameOf(d))
    ensures Tcp(Encoded(d)) == Some(d)
  {
    RoundTripIff(FrameOf(d));
  }

  /** A message holds TCP data exactly if it is binary and a frame of that kind. */
  lemma {:induction false} TcpDataIff(kind: int, f: Frame)
    requires Fits(f)
    ensures Tcp(Sent(kind, EncodeMessage(f))) ==
            if kind == 2 && f.kind == 2 then Some(Segment(f.id, f.meta, f.payload)) else None
  {
    RoundTripIff(f);
  }

  /** A joined frame stays within its length field when the limit does. */
  lemma {:induction false} JoinedFits(items: seq<Message>, maxAgg: int, lo: nat, hi: nat)
    requires Batch(items, lo, hi, maxAgg) && maxAgg < U32
    requires items[lo].tcp.Some? && Fits(FrameOf(items[lo].tcp.value))
    ensures Fits(FrameOf(Joined(items, lo, hi).value))
  {
    PayloadsJoin(items, lo, hi);
    PayloadsSize(items, lo, hi);
  }

  /** The other end decodes what the worker meant. */
  lemma {:induction false} BatchDecodes(items: seq<Message>, maxAgg: int, gap: nat -> bool, lo: nat, hi: nat, x: Message, s: Sent)
    requires Written(items, maxAgg, gap, lo, hi, x) && maxAgg < U32
    requires x.raw == s && (x.tcp.Some? ==> s == Encoded(x.tcp.value))
    requires items[lo].tcp == Tcp(items[lo].raw)
    ensures Tcp(s) == x.tcp
  {
    if items[lo].tcp.Some? {
      JoinedFits(items, maxAgg, lo, hi);
      EncodedDecodes(x.tcp.value);
    }
  }

  lemma {:induction false} SentDecodes(queue: seq<Job<Sent>>, items: seq<Message>, maxAgg: int, gap: nat -> bool, cuts: seq<nat>,
                    joined: seq<Message>, sent: seq<Sent>)
    requires Seen(FrameCodec, queue, items) && Batched(items, maxAgg, gap, cuts, joined) && maxAgg < U32
    requires |joined| == |sent| && forall k :: 0 <= k < |sent| ==> WrittenAs(FrameCodec, joined[k], sent[k])
    ensures Looks(sent) == joined
  {
    forall k | 0 <= k < |sent| ensures Looks(sent)[k] == joined[k] {
      assert Written(items, maxAgg, gap, cuts[k], cuts[k + 1], joined[k]);
      assert WrittenAs(FrameCodec, joined[k], sent[k]);
      BatchDecodes(items, maxAgg, gap, cuts[k], cuts[k + 1], joined[k], sent[k]);
    }
  }

  /**
    The worker with the frame codec. What the other end decodes is the queue cut into batches, and it says
    what the jobs say one by one, up to the first failure.
  */
  method Work(queue: seq<Job<Sent>>, maxAgg: int, gap: nat -> bool, fails: nat -> bool, quits: nat -> bool, late: nat -> bool)
      returns (sent: seq<Sent>, released: seq<nat>, taken: nat, complete: bool, ghost cuts: seq<nat>)
    ensures Gave(released, queue, taken) && (taken < |queue| ==> !complete && late(taken))
    ensures (forall k: nat :: !fails(k) && !quits(k)) ==> complete
    ensures maxAgg < U32 ==> Batched(Looks(Plain(queue)), maxAgg, gap, cuts, Looks(sent))
    ensures maxAgg < U32 ==> Meaning(Looks(sent)) <= Meaning(Looks(Plain(queue)))
    ensures maxAgg < U32 && complete ==> Meaning(Looks(sent)) == Meaning(Looks(Plain(queue)))
  {
    ghost var items := Looks(Plain(queue));
    ghost var joined;
    sent, released, taken, complete, cuts, joined := Loop(FrameCodec, queue, maxAgg, gap, fails, quits, late, items);
    if maxAgg < U32 {
      SentDecodes(queue, items, maxAgg, gap, cuts, joined, sent);
      BatchesMean(items, maxAgg, gap, cuts, joined);
    }
  }
}
