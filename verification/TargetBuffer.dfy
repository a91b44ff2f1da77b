/**
  One server connection from buffering to direct writes, lock section by lock section.

  Data that arrives before the target is connected is buffered; the connecting goroutine publishes the
  target, takes the buffer and writes it out without a lock, while newly arriving data is already written
  directly. One reader, that of the uplink channel, delivers the data; anybody may unregister.
*/
module TargetBuffer {
  /** A payload by its number in order of acceptance. */
  datatype Chunk = Chunk(serial: nat, size: nat)

  const PENDING_MAX := 1024 * 1024

  /** Checking: saw no target and is about to take the lock. Writing: is about to write to the target. */
  datatype Reader = Idle | Checking(size: nat) | Writing(chunk: Chunk)

  datatype Phase = Dialing | Flushing | Done

  /**
    registered: in the connection table. closing: somebody took it off the table and has not marked it closed.
    accepted counts payloads taken on; `split` of them were buffered. flushed and direct count writes of
    either kind; overtaken: a direct write happened while buffered data was still to be written.
  */
  datatype Conn = Conn(
    registered: bool, closing: bool, closed: bool, connected: bool, target: bool,
    pending: seq<Chunk>, flushing: seq<Chunk>, written: seq<Chunk>,
    phase: Phase, reader: Reader,
    accepted: nat, split: nat, flushed: nat, direct: nat, overtaken: bool)

  const Fresh := Conn(true, false, false, false, false, [], [], [], Dialing, Idle, 0, 0, 0, 0, false)

  datatype Action =
    | Arrive(size: nat) | TakeLock | WriteDirect
    | DialFails | Publish | FlushOne | FlushEnds
    | Unregister | MarkClosed

  function Sum(chunks: seq<Chunk>, n: nat): nat
    requires n <= |chunks|
  {
    if n == 0 then 0 else Sum(chunks, n - 1) + chunks[n - 1].size
  }

  function Size(chunks: seq<Chunk>): nat {
    Sum(chunks, |chunks|)
  }

  /** The reader has the lock: it buffers, gives the connection up, or goes on to write. */
  function Locked(c: Conn, size: nat): Conn {
    var chunk := Chunk(c.accepted, size);
    if c.target then c.(reader := Writing(chunk), accepted := c.accepted + 1)
    else if Size(c.pending) + size > PENDING_MAX then Unregistered(c.(reader := Idle))
    else c.(reader := Idle, accepted := c.accepted + 1, split := c.split + 1, pending := c.pending + [chunk])
  }

  /** First half of unregisterConn: the table entry goes. */
  function Unregistered(c: Conn): Conn {
    if c.registered then c.(registered := false, closing := true) else c
  }

  /** Second half: the state is marked closed once, and the target connection goes with it. */
  function MarkedClosed(c: Conn): Conn {
    c.(closing := false, closed := true, connected := false)
  }

  function Published(c: Conn): Conn {
    if c.closed then c.(phase := Done)
    else c.(target := true, connected := true, flushing := c.pending, pending := [], phase := Flushing)
  }

  /** A step that is not possible leaves the connection as it is. A write to a closed target fails. */
  function Apply(c: Conn, a: Action): Conn {
    match a
    case Arrive(size) =>
      if c.reader != Idle || !c.registered then c
      else if c.target then c.(reader := Writing(Chunk(c.accepted, size)), accepted := c.accepted + 1)
      else c.(reader := Checking(size))
    case TakeLock => if c.reader.Checking? then Locked(c, c.reader.size) else c
    case WriteDirect =>
      if !c.reader.Writing? then c
      else if c.closed then Unregistered(c.(reader := Idle))
      else c.(reader := Idle, written := c.written + [c.reader.chunk], direct := c.direct + 1,
              overtaken := c.overtaken || c.flushing != [])
    case DialFails => if c.phase == Dialing then c.(registered := false, phase := Done) else c
    case Publish => if c.phase == Dialing then Published(c) else c
    case FlushOne =>
      if c.phase != Flushing || c.flushing == [] then c
      else if c.closed then Unregistered(c.(phase := Done))
      else c.(written := c.written + [c.flushing[0]], flushing := c.flushing[1..], flushed := c.flushed + 1)
    case FlushEnds => if c.phase == Flushing && c.flushing == [] then c.(phase := Done) else c
    case Unregister => Unregistered(c)
    case MarkClosed => if c.closing then MarkedClosed(c) else c
  }

  function Run(c: Conn, actions: seq<Action>): Conn
    decreases |actions|
  {
    if actions == [] then c else Run(Apply(c, actions[0]), actions[1..])
  }

  // ---------------------------------------------------------------- the invariant

  /** The chunks numbered below `m`, in the order of `s`. */
  function Early(s: seq<Chunk>, m: nat): seq<Chunk> {
    if s == [] then []
    else
      var rest := Early(s[..|s| - 1], m);
      var last := s[|s| - 1];
      if last.serial < m then rest + [last] else rest
  }

  /** The chunks numbered `m` and above, in the order of `s`. */
  function Late(s: seq<Chunk>, m: nat): seq<Chunk> {
    if s == [] then []
    else
      var rest := Late(s[..|s| - 1], m);
      var last := s[|s| - 1];
      if last.serial >= m then rest + [last] else rest
  }

  /** `count` chunks numbered from `start` on. */
  ghost predicate Numbered(s: seq<Chunk>, start: nat, count: nat) {
    |s| == count && forall i :: 0 <= i < count ==> s[i].serial == start + i
  }

  lemma {:induction false} SplitAppend(s: seq<Chunk>, x: Chunk, m: nat)
    ensures Early(s + [x], m) == if x.serial < m then Early(s, m) + [x] else Early(s, m)
    ensures Late(s + [x], m) == if x.serial < m then Late(s, m) else Late(s, m) + [x]
  {
    assert (s + [x])[..|s|] == s;
  }

  lemma {:induction false} SplitLengths(s: seq<Chunk>, m: nat)
    ensures |Early(s, m)| + |Late(s, m)| == |s|
  {
    if s != [] { SplitLengths(s[..|s| - 1], m); }
  }

  /** Everything so far was written in the order it came in. */
  ghost predicate InOrder(s: seq<Chunk>) {
    forall i :: 0 <= i < |s| ==> s[i].serial == i
  }

  ghost predicate Shape(c: Conn) {
    && (c.closed ==> !c.connected && !c.registered && !c.closing)
    && (c.closing ==> !c.registered)
    && (c.phase == Dialing ==> !c.target)
    && (c.phase == Flushing ==> c.target)
    && (c.connected ==> c.target)
    && Size(c.pending) <= PENDING_MAX
  }

  /** Before the target is published everything accepted is in the buffer, in order. */
  ghost predicate Buffering(c: Conn) {
    !c.target ==>
      && c.split == c.accepted && Numbered(c.pending, 0, c.accepted)
      && c.flushing == [] && c.written == [] && c.flushed == 0 && c.direct == 0
      && !c.reader.Writing? && !c.overtaken
  }

  /** Afterwards the buffer is on its way out, and later payloads go straight to the target. */
  ghost predicate Draining(c: Conn) {
    c.target ==>
      && c.pending == [] && c.flushed <= c.split <= c.accepted
      && Numbered(c.flushing, c.flushed, c.split - c.flushed)
      && (c.reader.Writing? ==> c.accepted > c.split && c.reader.chunk.serial == c.accepted - 1)
      && (!c.closed ==> c.direct == c.accepted - c.split - (if c.reader.Writing? then 1 else 0))
      && c.direct <= c.accepted - c.split - (if c.reader.Writing? then 1 else 0)
  }

  /** What the target has received: a merge of the buffered payloads and the direct ones, each in order. */
  ghost predicate Merged(c: Conn) {
    && Numbered(Early(c.written, c.split), 0, c.flushed)
    && Numbered(Late(c.written, c.split), c.split, c.direct)
    && (InOrder(c.written) <==> !c.overtaken)
    && (c.direct > 0 && !c.overtaken ==> c.flushed == c.split)
  }

  ghost predicate Inv(c: Conn) {
    Shape(c) && Buffering(c) && Draining(c) && Merged(c)
  }

  lemma {:induction false} SizeAppend(s: seq<Chunk>, x: Chunk)
    ensures Size(s + [x]) == Size(s) + x.size
  {
    SumSame(s + [x], s, |s|);
  }

  lemma {:induction false} SumSame(s: seq<Chunk>, t: seq<Chunk>, n: nat)
    requires n <= |s| && n <= |t| && forall k :: 0 <= k < n ==> s[k] == t[k]
    ensures Sum(s, n) == Sum(t, n)
  {
    if n > 0 { SumSame(s, t, n - 1); }
  }

  lemma {:induction false} ArriveStep(c: Conn, size: nat)
    requires Inv(c)
    ensures Inv(Apply(c, Arrive(size)))
  {
  }

  lemma {:induction false} LockStep(c: Conn)
    requires Inv(c)
    ensures Inv(Apply(c, TakeLock))
  {
    if c.reader.Checking? {
      SizeAppend(c.pending, Chunk(c.accepted, c.reader.size));
    }
  }

  lemma {:induction false} InOrderAppend(s: seq<Chunk>, x: Chunk)
    ensures InOrder(s + [x]) <==> InOrder(s) && x.serial == |s|
  {
    assert (s + [x])[|s|] == x;
    assert forall i :: 0 <= i < |s| ==> (s + [x])[i] == s[i];
  }

  lemma {:induction false} NumberedAppend(s: seq<Chunk>, x: Chunk, start: nat, count: nat)
    requires Numbered(s, start, count) && x.serial == start + count
    ensures Numbered(s + [x], start, count + 1)
  {
  }

  /** The next buffered chunk is written. */
  lemma {:induction false} FlushMerges(c: Conn, x: Chunk, d: Conn)
    requires Merged(c) && c.target && Draining(c) && d.written == c.written + [x] && d.split == c.split
    requires x.serial == c.flushed < c.split && d.flushed == c.flushed + 1 && d.direct == c.direct && d.overtaken == c.overtaken
    ensures Merged(d)
  {
    SplitAppend(c.written, x, c.split);
    SplitLengths(c.written, c.split);
    NumberedAppend(Early(c.written, c.split), x, 0, c.flushed);
    InOrderAppend(c.written, x);
  }

  /** The next direct chunk is written. */
  lemma {:induction false} DirectMerges(c: Conn, x: Chunk, d: Conn)
    requires Merged(c) && c.target && Draining(c) && d.written == c.written + [x] && d.split == c.split
    requires x.serial == c.split + c.direct && d.direct == c.direct + 1 && d.flushed == c.flushed
    requires d.overtaken == (c.overtaken || c.flushing != [])
    ensures Merged(d)
  {
    SplitAppend(c.written, x, c.split);
    SplitLengths(c.written, c.split);
    NumberedAppend(Late(c.written, c.split), x, c.split, c.direct);
    InOrderAppend(c.written, x);
  }

  lemma {:induction false} FlushDrains(c: Conn)
    requires Inv(c) && c.phase == Flushing && c.flushing != [] && !c.closed
    ensures Shape(Apply(c, FlushOne)) && Buffering(Apply(c, FlushOne)) && Draining(Apply(c, FlushOne))
  {
  }

  lemma {:induction false} DirectStep(c: Conn)
    requires Inv(c)
    ensures Inv(Apply(c, WriteDirect))
  {
    if c.reader.Writing? && !c.closed {
      DirectMerges(c, c.reader.chunk, Apply(c, WriteDirect));
    }
  }

  lemma {:induction false} FlushStep(c: Conn)
    requires Inv(c)
    ensures Inv(Apply(c, FlushOne))
  {
    if c.phase == Flushing && c.flushing != [] && !c.closed {
      FlushDrains(c);
      FlushMerges(c, c.flushing[0], Apply(c, FlushOne));
    }
  }

  lemma {:induction false} OtherStep(c: Conn, a: Action)
    requires Inv(c) && !a.Arrive? && !a.TakeLock? && !a.WriteDirect? && !a.FlushOne?
    ensures Inv(Apply(c, a))
  {
    assert Size([]) == 0;
  }

  lemma {:induction false} ClosedStep(c: Conn, a: Action)
    requires Inv(c) && c.closed
    ensures Apply(c, a).closed && Apply(c, a).written == c.written
  {
  }

  lemma {:induction false} NextConn(c: Conn, a: Action) returns (d: Conn)
    requires Inv(c)
    ensures d == Apply(c, a) && Inv(d) && (c.closed ==> d.closed && d.written == c.written)
  {
    match a {
      case Arrive(size) => ArriveStep(c, size);
      case TakeLock => LockStep(c);
      case WriteDirect => DirectStep(c);
      case FlushOne => FlushStep(c);
      case _ => OtherStep(c, a);
    }
    if c.closed { ClosedStep(c, a); }
    d := Apply(c, a);
  }

  lemma {:induction false} RunKeeps(c: Conn, actions: seq<Action>)
    requires Inv(c)
    ensures Inv(Run(c, actions)) && (c.closed ==> Run(c, actions).closed && Run(c, actions).written == c.written)
    decreases |actions|
  {
    if actions != [] {
      var d := NextConn(c, actions[0]);
      RunKeeps(d, actions[1..]);
    }
  }

  // ---------------------------------------------------------------- main results

  ghost predicate Reaches(c: Conn) {
    exists actions :: Run(Fresh, actions) == c
  }

  lemma {:induction false} FreshKeeps()
    ensures Inv(Fresh)
  {
  }

  lemma {:induction false} ReachedKeeps(c: Conn)
    requires Reaches(c)
    ensures Inv(c)
  {
    var actions :| Run(Fresh, actions) == c;
    FreshKeeps();
    RunKeeps(Fresh, actions);
  }

  /** A closed connection stays closed in every run from there, is not connected, and is never written to again. */
  lemma {:induction false} ClosedForGood(c: Conn, actions: seq<Action>)
    requires Reaches(c) && c.closed
    ensures Run(c, actions).closed && !Run(c, actions).connected && Run(c, actions).written == c.written
  {
    ReachedKeeps(c);
    RunKeeps(c, actions);
  }

  function Count(s: seq<Chunk>, n: nat): nat {
    if s == [] then 0 else Count(s[..|s| - 1], n) + if s[|s| - 1].serial == n then 1 else 0
  }

  lemma {:induction false} CountAppend(s: seq<Chunk>, x: Chunk, n: nat)
    ensures Count(s + [x], n) == Count(s, n) + if x.serial == n then 1 else 0
  {
    assert (s + [x])[..|s|] == s;
  }

  lemma {:induction false} CountSplit(s: seq<Chunk>, m: nat, n: nat)
    ensures Count(s, n) == if n < m then Count(Early(s, m), n) else Count(Late(s, m), n)
  {
    if s != [] {
      var init, x := s[..|s| - 1], s[|s| - 1];
      CountSplit(init, m, n);
      CountAppend(Early(init, m), x, n);
      CountAppend(Late(init, m), x, n);
    }
  }

  lemma {:induction false} CountNumbered(s: seq<Chunk>, start: nat, count: nat, n: nat)
    requires Numbered(s, start, count)
    ensures Count(s, n) == if start <= n < start + count then 1 else 0
    decreases count
  {
    if count > 0 {
      CountNumbered(s[..count - 1], start, count - 1, n);
    }
  }

  /**
    Exactly once: the target never receives a payload twice, nor one that was not accepted, and once the flush
    is over and the reader idle, a surviving connection has passed on every payload it accepted.
  */
  lemma {:induction false} PayloadsAreWrittenOnce(c: Conn, n: nat)
    requires Reaches(c)
    ensures Count(c.written, n) <= 1 && (n >= c.accepted ==> Count(c.written, n) == 0)
    ensures c.target && !c.closed && c.flushing == [] && c.reader == Idle && n < c.accepted ==> Count(c.written, n) == 1
  {
    ReachedKeeps(c);
    CountSplit(c.written, c.split, n);
    CountNumbered(Early(c.written, c.split), 0, c.flushed, n);
    CountNumbered(Late(c.written, c.split), c.split, c.direct, n);
  }

  /**
    Buffered payloads keep their order among themselves, and so do the later ones; the buffer never outgrows
    its limit.
  */
  lemma {:induction false} BufferedKeepTheirOrder(c: Conn)
    requires Reaches(c)
    ensures Numbered(Early(c.written, c.split), 0, c.flushed) && Numbered(Late(c.written, c.split), c.split, c.direct)
    ensures Size(c.pending) <= PENDING_MAX
    ensures InOrder(c.written) <==> !c.overtaken
  {
    ReachedKeeps(c);
  }

  /** A direct write keeps the order exactly when the flush has nothing left to write. */
  lemma {:induction false} DirectWriteKeepsOrderIff(c: Conn)
    requires Reaches(c) && c.reader.Writing? && !c.closed && InOrder(c.written)
    ensures InOrder(Apply(c, WriteDirect).written) <==> c.flushing == []
  {
    ReachedKeeps(c);
    DirectStep(c);
  }

  /**
    The reader under the lock gives the connection up exactly if there is no target yet and the payload would take
    the buffer over 1 MiB; otherwise the payload is accepted, for the buffer's end or for the target.
  */
  lemma {:induction false} GivenUpIff(c: Conn)
    requires Reaches(c) && c.reader.Checking?
    ensures var d := Apply(c, TakeLock); var x := Chunk(c.accepted, c.reader.size);
            && (d.accepted == c.accepted <==> !c.target && Size(c.pending) + x.size > 1_048_576)
            && (d.accepted == c.accepted ==> !d.registered && d.pending == c.pending && d.reader == Idle)
            && (d.accepted != c.accepted ==>
                  && d.accepted == c.accepted + 1 && d.registered == c.registered
                  && (if c.target then d.reader == Writing(x) && d.pending == c.pending else d.reader == Idle && d.pending == c.pending + [x]))
  {
  }

  /** Unregistering, wherever it comes in a run, ends in a closed connection to which nothing more is ever written. */
  lemma {:induction false} UnregisteringCloses(c: Conn, actions: seq<Action>)
    requires Reaches(c) && c.registered
    ensures var d := Apply(Apply(c, Unregister), MarkClosed);
            && d.closed && !d.registered && !d.connected && d.written == c.written
            && Run(d, actions).closed && Run(d, actions).written == c.written
  {
    var b := Apply(c, Unregister);
    var d := Apply(b, MarkClosed);
    ReachesNext(c, Unregister, b);
    ReachesNext(b, MarkClosed, d);
    ClosedForGood(d, actions);
  }

  /** The first step of a flush: the target is there, and takes the whole buffer with it, unless the connection is closed. */
  lemma {:induction false} PublishHandsOver(c: Conn)
    requires Reaches(c) && c.phase == Dialing
    ensures var d := Apply(c, Publish);
            if c.closed then !d.target && !d.connected && d.pending == c.pending && d.flushing == []
            else d.target && d.connected && d.pending == [] && d.flushing == c.pending
  {
    ReachedKeeps(c);
  }

  /** Left alone, a flush writes the whole buffer. */
  lemma {:induction false} FlushCompletes(c: Conn) returns (actions: seq<Action>)
    requires Reaches(c) && c.phase == Flushing && !c.closed
    ensures var d := Run(c, actions); d.flushing == [] && !d.closed && d.written == c.written + c.flushing && d.reader == c.reader
    decreases |c.flushing|
  {
    if c.flushing == [] {
      actions := [];
      assert c.written + [] == c.written;
    } else {
      var d := Apply(c, FlushOne);
      ReachesNext(c, FlushOne, d);
      var rest := FlushCompletes(d);
      actions := [FlushOne] + rest;
      assert actions[1..] == rest;
      assert c.flushing == [c.flushing[0]] + c.flushing[1..];
    }
  }

  lemma {:induction false} RunAppend(c: Conn, actions: seq<Action>, a: Action)
    ensures Run(c, actions + [a]) == Apply(Run(c, actions), a)
    decreases |actions|
  {
    if actions == [] {
      assert (actions + [a])[1..] == [];
    } else {
      assert (actions + [a])[1..] == actions[1..] + [a];
      RunAppend(Apply(c, actions[0]), actions[1..], a);
    }
  }

  lemma {:induction false} ReachesNext(c: Conn, a: Action, d: Conn)
    requires Reaches(c) && Apply(c, a) == d
    ensures Reaches(d)
  {
    var actions :| Run(Fresh, actions) == c;
    RunAppend(Fresh, actions, a);
  }

  /** One payload buffered, the target published, and the next payload already at the target's door. */
  lemma {:induction false} BufferedAndNext() returns (c: Conn)
    ensures Reaches(c) && !c.closed && c.registered && c.target && c.phase == Flushing && c.reader == Writing(Chunk(1, 1))
    ensures c.flushing == [Chunk(0, 1)] && c.written == []
  {
    assert Run(Fresh, []) == Fresh;
    var checking := Fresh.(reader := Checking(1));
    ReachesNext(Fresh, Arrive(1), checking);
    var buffered := Fresh.(accepted := 1, split := 1, pending := [Chunk(0, 1)]);
    assert Size([]) == 0 && [] + [Chunk(0, 1)] == [Chunk(0, 1)];
    ReachesNext(checking, TakeLock, buffered);
    var published := Published(buffered);
    ReachesNext(buffered, Publish, published);
    c := Apply(published, Arrive(1));
    ReachesNext(published, Arrive(1), c);
  }

  /** It happens: the second payload reaches the target before the first. */
  lemma {:induction false} DirectWriteCanOvertake() returns (c: Conn)
    ensures Reaches(c) && !c.closed && c.registered && c.reader == Idle && c.flushing == []
    ensures c.written == [Chunk(1, 1), Chunk(0, 1)]
  {
    var b := BufferedAndNext();
    var d := Apply(b, WriteDirect);
    ReachesNext(b, WriteDirect, d);
    assert d.written == [Chunk(1, 1)];
    c := Apply(d, FlushOne);
    ReachesNext(d, FlushOne, c);
  }

  // ---------------------------------------------------------------- the connection state, updated in place

  /** The part of the connection that the server keeps in its record. */
  datatype Record = Record(registered: bool, closing: bool, closed: bool, connected: bool, target: bool, pending: seq<Chunk>)

  function RecordOf(c: Conn): Record {
    Record(c.registered, c.closing, c.closed, c.connected, c.target, c.pending)
  }

  datatype Verdict = Buffered | GivenUp | Direct

  class ServerConnState {
    var registered: bool
    var closing: bool
    var closed: bool
    var connected: bool
    var target: bool
    var pending: seq<Chunk>

    ghost function View(): Record
      reads this
    {
      Record(registered, closing, closed, connected, target, pending)
    }

    constructor ()
      ensures View() == RecordOf(Fresh)
    {
      registered, closing, closed, connected, target, pending := true, false, false, false, false, [];
    }

    /** The locked part of handleTCPData. */
    method BufferData(chunk: Chunk, ghost c: Conn) returns (verdict: Verdict)
      requires View() == RecordOf(c) && chunk.serial == c.accepted
      modifies this
      ensures View() == RecordOf(Locked(c, chunk.size))
      ensures verdict == Direct <==> Locked(c, chunk.size).reader.Writing?
      ensures verdict == GivenUp <==> !old(target) && Size(old(pending)) + chunk.size > 1_048_576
      ensures verdict == Buffered ==> pending == old(pending) + [chunk] && Size(pending) <= PENDING_MAX
      ensures verdict != Buffered ==> pending == old(pending)
    {
      if target {
        return Direct;
      }
      var size := 0;
      for i := 0 to |pending|
        invariant size == Sum(pending, i)
      {
        size := size + pending[i].size;
      }
      if size + chunk.size > PENDING_MAX {
        Unregister(c.(reader := Idle));
        return GivenUp;
      }
      SizeAppend(pending, chunk);
      pending := pending + [chunk];
      return Buffered;
    }

    method Unregister(ghost c: Conn)
      requires View() == RecordOf(c)
      modifies this
      ensures View() == RecordOf(Unregistered(c))
    {
      if registered {
        registered, closing := false, true;
      }
    }

    method Close(ghost c: Conn)
      requires View() == RecordOf(c) && (closed ==> !connected)
      modifies this
      ensures View() == RecordOf(MarkedClosed(c))
    {
      closing := false;
      if closed {
        return;
      }
      closed := true;
      if !connected {
        return;
      }
      connected := false;
    }

    /** The locked part of connectTarget; the buffer is handed to the caller, who writes it out. */
    method PublishTarget(ghost c: Conn) returns (flush: seq<Chunk>)
      requires View() == RecordOf(c) && c.flushing == []
      modifies this
      ensures View() == RecordOf(Published(c)) && flush == Published(c).flushing
    {
      if closed {
        return [];
      }
      target, connected := true, true;
      flush := pending;
      pending := [];
    }
  }
}
