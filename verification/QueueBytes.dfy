/**
  The client's global count of queued bytes, atomic operation by atomic operation.

  A sender reserves the size of its message, hands the job to a session queue or gives up and releases; a
  worker takes a job and releases its size. Reserving and releasing are compare-and-swap loops, so each is
  a load and a swap with anything in between. A reconnected channel gets a new session queue, and jobs may
  still sit in, or be added to, the old one.
*/
module QueueBytes {
  import opened Link

  /** A compare-and-swap under way: the size it is about and the count that was loaded. */
  datatype Swap = Swap(size: nat, seen: int)

  /**
    queues: the sizes of the jobs in every session queue, abandoned ones included. held: sizes reserved and
    in the hands of a sender, or taken by a worker, and not yet released. reserving, releasing: swaps under
    way.
  */
  datatype Pool = Pool(
    limit: int, bytes: int, queues: seq<seq<nat>>, held: seq<nat>, reserving: seq<Swap>, releasing: seq<Swap>)

  datatype Action =
    | NewSession
    | LoadReserve(size: nat) | SwapReserve(i: nat)
    | Enqueue(i: nat, q: nat) | Dequeue(q: nat)
    | LoadRelease(i: nat) | SwapRelease(i: nat)

  function Without<T>(s: seq<T>, i: nat): seq<T>
    requires i < |s|
  {
    s[..i] + s[i + 1..]
  }

  /** A step that is not possible leaves the pool as it is. */
  function Apply(p: Pool, a: Action): Pool {
    match a
    case NewSession => p.(queues := p.queues + [[]])
    // a size of zero reserves nothing; a size over the limit is refused; a failed swap loads again
    case LoadReserve(size) =>
      if size == 0 then p.(held := p.held + [0])
      else if p.bytes + size > p.limit then p
      else p.(reserving := p.reserving + [Swap(size, p.bytes)])
    case SwapReserve(i) =>
      if i >= |p.reserving| then p
      else
        var s := p.reserving[i];
        var q := p.(reserving := Without(p.reserving, i));
        if p.bytes == s.seen then q.(bytes := s.seen + s.size, held := p.held + [s.size]) else q
    case Enqueue(i, q) =>
      if i >= |p.held| || q >= |p.queues| then p
      else p.(held := Without(p.held, i), queues := p.queues[q := p.queues[q] + [p.held[i]]])
    case Dequeue(q) =>
      if q >= |p.queues| || p.queues[q] == [] then p
      else p.(held := p.held + [p.queues[q][0]], queues := p.queues[q := p.queues[q][1..]])
    case LoadRelease(i) =>
      if i >= |p.held| then p
      else
        var q := p.(held := Without(p.held, i));
        if p.held[i] == 0 then q else q.(releasing := p.releasing + [Swap(p.held[i], p.bytes)])
    case SwapRelease(i) =>
      if i >= |p.releasing| then p
      else
        var s := p.releasing[i];
        var q := p.(releasing := Without(p.releasing, i));
        if p.bytes == s.seen then q.(bytes := Clamp(s.seen - s.size)) else q.(held := p.held + [s.size])
  }

  function Fresh(limit: int): Pool {
    Pool(limit, 0, [], [], [], [])
  }

  function Run(p: Pool, actions: seq<Action>): Pool
    decreases |actions|
  {
    if actions == [] then p else Run(Apply(p, actions[0]), actions[1..])
  }

  // ---------------------------------------------------------------- sums

  function Sum(s: seq<nat>, n: nat): nat
    requires n <= |s|
  {
    if n == 0 then 0 else Sum(s, n - 1) + s[n - 1]
  }

  function Total(s: seq<nat>): nat {
    Sum(s, |s|)
  }

  lemma {:induction false} SumJoin(a: seq<nat>, b: seq<nat>, n: nat)
    requires n <= |b|
    ensures Sum(a + b, |a| + n) == Total(a) + Sum(b, n)
  {
    if n == 0 {
      SumSame(a + b, a, |a|);
    } else {
      SumJoin(a, b, n - 1);
    }
  }

  lemma {:induction false} SumSame(s: seq<nat>, t: seq<nat>, n: nat)
    requires n <= |s| && n <= |t| && forall k :: 0 <= k < n ==> s[k] == t[k]
    ensures Sum(s, n) == Sum(t, n)
  {
    if n > 0 { SumSame(s, t, n - 1); }
  }

  lemma {:induction false} TotalJoin(a: seq<nat>, b: seq<nat>)
    ensures Total(a + b) == Total(a) + Total(b)
  {
    SumJoin(a, b, |b|);
  }

  lemma {:induction false} TotalOne(x: nat)
    ensures Total([x]) == x
  {
    assert Sum([x], 0) == 0;
  }

  lemma {:induction false} TotalAppend(s: seq<nat>, x: nat)
    ensures Total(s + [x]) == Total(s) + x
  {
    TotalJoin(s, [x]);
    TotalOne(x);
  }

  lemma {:induction false} TotalWithout(s: seq<nat>, i: nat)
    requires i < |s|
    ensures Total(Without(s, i)) == Total(s) - s[i]
  {
    assert s == (s[..i] + [s[i]]) + s[i + 1..];
    TotalJoin(s[..i] + [s[i]], s[i + 1..]);
    TotalAppend(s[..i], s[i]);
    TotalJoin(s[..i], s[i + 1..]);
  }

  function Queued(queues: seq<seq<nat>>, n: nat): nat
    requires n <= |queues|
  {
    if n == 0 then 0 else Queued(queues, n - 1) + Total(queues[n - 1])
  }

  lemma {:induction false} QueuedUpdate(queues: seq<seq<nat>>, q: nat, s: seq<nat>, n: nat)
    requires q < |queues| && n <= |queues|
    ensures Queued(queues[q := s], n) == Queued(queues, n) + if q < n then Total(s) - Total(queues[q]) else 0
  {
    if n > 0 { QueuedUpdate(queues, q, s, n - 1); }
  }

  lemma {:induction false} QueuedAppend(queues: seq<seq<nat>>, s: seq<nat>, n: nat)
    requires n <= |queues|
    ensures Queued(queues + [s], n) == Queued(queues, n)
  {
    if n > 0 { QueuedAppend(queues, s, n - 1); }
  }

  function Sizes(swaps: seq<Swap>): (r: seq<nat>)
    ensures |r| == |swaps| && forall k :: 0 <= k < |r| ==> r[k] == swaps[k].size
  {
    seq(|swaps|, k requires 0 <= k < |swaps| => swaps[k].size)
  }

  /** Everything that has been reserved and not yet released. */
  function Outstanding(p: Pool): nat {
    Queued(p.queues, |p.queues|) + Total(p.held) + Total(Sizes(p.releasing))
  }

  // ---------------------------------------------------------------- conservation

  ghost predicate Inv(p: Pool) {
    && p.bytes == Outstanding(p)
    && p.bytes <= Clamp(p.limit)
    && (forall k :: 0 <= k < |p.reserving| ==> p.reserving[k].seen + p.reserving[k].size <= p.limit)
  }

  lemma {:induction false} QueueStep(p: Pool, a: Action)
    requires Inv(p) && (a.Enqueue? || a.Dequeue?)
    ensures Inv(Apply(p, a))
  {
    match a
    case Enqueue(i, q) =>
      if i < |p.held| && q < |p.queues| {
        TotalWithout(p.held, i);
        TotalAppend(p.queues[q], p.held[i]);
        QueuedUpdate(p.queues, q, p.queues[q] + [p.held[i]], |p.queues|);
      }
    case Dequeue(q) =>
      if q < |p.queues| && p.queues[q] != [] {
        var s := p.queues[q];
        TotalAppend(p.held, s[0]);
        TotalWithout(s, 0);
        assert Without(s, 0) == s[1..];
        QueuedUpdate(p.queues, q, s[1..], |p.queues|);
      }
  }

  lemma {:induction false} ReserveStep(p: Pool, a: Action)
    requires Inv(p) && (a.NewSession? || a.LoadReserve? || a.SwapReserve?)
    ensures Inv(Apply(p, a))
  {
    match a
    case NewSession =>
      QueuedAppend(p.queues, [], |p.queues|);
    case LoadReserve(size) =>
      TotalAppend(p.held, 0);
    case SwapReserve(i) =>
      if i < |p.reserving| {
        TotalAppend(p.held, p.reserving[i].size);
      }
  }

  lemma {:induction false} ReleaseStep(p: Pool, a: Action)
    requires Inv(p) && (a.LoadRelease? || a.SwapRelease?)
    ensures Inv(Apply(p, a))
  {
    match a
    case LoadRelease(i) =>
      if i < |p.held| {
        TotalWithout(p.held, i);
        var s := Swap(p.held[i], p.bytes);
        assert Sizes(p.releasing + [s]) == Sizes(p.releasing) + [s.size];
        TotalAppend(Sizes(p.releasing), s.size);
      }
    case SwapRelease(i) =>
      if i < |p.releasing| {
        var s := p.releasing[i];
        assert Sizes(Without(p.releasing, i)) == Without(Sizes(p.releasing), i);
        TotalWithout(Sizes(p.releasing), i);
        TotalAppend(p.held, s.size);
      }
  }

  lemma {:induction false} RunKeeps(p: Pool, actions: seq<Action>)
    requires Inv(p)
    ensures Inv(Run(p, actions)) && Run(p, actions).limit == p.limit
    decreases |actions|
  {
    if actions != [] {
      var a := actions[0];
      if a.Enqueue? || a.Dequeue? {
        QueueStep(p, a);
      } else if a.LoadRelease? || a.SwapRelease? {
        ReleaseStep(p, a);
      } else {
        ReserveStep(p, a);
      }
      RunKeeps(Apply(p, a), actions[1..]);
    }
  }

  /** A swap counts its size exactly if nobody else has changed the count since the load; otherwise it loads again. */
  lemma {:induction false} SwapCountsIff(p: Pool, i: nat)
    ensures i < |p.reserving| ==>
              var q := Apply(p, SwapReserve(i)); var s := p.reserving[i];
              if p.bytes == s.seen then q.bytes == p.bytes + s.size && q.held == p.held + [s.size]
              else q.bytes == p.bytes && q.held == p.held
    ensures i < |p.releasing| && p.releasing[i].size <= p.bytes ==>
              var q := Apply(p, SwapRelease(i)); var s := p.releasing[i];
              if p.bytes == s.seen then q.bytes == p.bytes - s.size && q.held == p.held
              else q.bytes == p.bytes && q.held == p.held + [s.size]
  {
  }

  /**
    A sender that is not interrupted gets its bytes exactly if they still fit under the limit, a size of zero
    always; a refused one has changed nothing.
  */
  lemma {:induction false} ReserveSucceedsIff(p: Pool, size: nat)
    ensures var loaded := Apply(p, LoadReserve(size));
            var q := if |loaded.reserving| > |p.reserving| then Apply(loaded, SwapReserve(|p.reserving|)) else loaded;
            if size == 0 || p.bytes + size <= p.limit then q == p.(bytes := p.bytes + size, held := p.held + [size]) else q == p
  {
    var loaded := Apply(p, LoadReserve(size));
    if |loaded.reserving| > |p.reserving| {
      assert Without(loaded.reserving, |p.reserving|) == p.reserving;
    }
  }

  /** Whoever holds bytes and is not interrupted gives back exactly those. */
  lemma {:induction false} ReleaseGivesBack(limit: int, p: Pool, i: nat)
    requires Reaches(limit, p) && i < |p.held|
    ensures var loaded := Apply(p, LoadRelease(i));
            var q := if |loaded.releasing| > |p.releasing| then Apply(loaded, SwapRelease(|p.releasing|)) else loaded;
            q == p.(bytes := p.bytes - p.held[i], held := Without(p.held, i))
  {
    var actions :| Run(Fresh(limit), actions) == p;
    RunKeeps(Fresh(limit), actions);
    TotalWithout(p.held, i);
    var loaded := Apply(p, LoadRelease(i));
    if |loaded.releasing| > |p.releasing| {
      assert Without(loaded.releasing, |p.releasing|) == p.releasing;
    }
  }

  ghost predicate Reaches(limit: int, p: Pool) {
    exists actions :: Run(Fresh(limit), actions) == p
  }

  /**
    In every interleaving the count is the size of all queued jobs plus everything in hand, and stays within
    the limit; a swap that succeeds never needs the guard against a negative count.
  */
  lemma {:induction false} BytesAreConserved(limit: int, p: Pool, i: nat)
    requires Reaches(limit, p)
    ensures p.bytes == Outstanding(p)
    ensures 0 <= p.bytes <= Clamp(limit)
    ensures i < |p.releasing| && p.releasing[i].seen == p.bytes ==> p.releasing[i].seen - p.releasing[i].size >= 0
  {
    var actions :| Run(Fresh(limit), actions) == p;
    RunKeeps(Fresh(limit), actions);
    if i < |p.releasing| {
      TotalWithout(Sizes(p.releasing), i);
    }
  }

  /** So once every sender and worker is done and the queues are empty, nothing is left reserved. */
  lemma {:induction false} IdleMeansZero(limit: int, p: Pool)
    requires Reaches(limit, p) && p.held == [] && p.releasing == [] && forall q :: 0 <= q < |p.queues| ==> p.queues[q] == []
    ensures p.bytes == 0
  {
    BytesAreConserved(limit, p, 0);
    AllEmpty(p.queues, |p.queues|);
  }

  lemma {:induction false} AllEmpty(queues: seq<seq<nat>>, n: nat)
    requires n <= |queues| && forall q :: 0 <= q < |queues| ==> queues[q] == []
    ensures Queued(queues, n) == 0
  {
    if n > 0 { AllEmpty(queues, n - 1); }
  }

  function Dequeues(q: nat, n: nat): seq<Action> {
    if n == 0 then [] else [Dequeue(q)] + Dequeues(q, n - 1)
  }

  /** A worker takes the jobs of a session queue in the order in which they were put there; the count stands meanwhile. */
  lemma {:induction false} JobsLeaveInOrder(p: Pool, i: nat, q: nat)
    requires i < |p.held| && q < |p.queues|
    ensures var n := |p.queues[q]|;
            var t := Run(Apply(p, Enqueue(i, q)), Dequeues(q, n + 1));
            t == p.(held := Without(p.held, i) + p.queues[q] + [p.held[i]], queues := p.queues[q := []])
  {
    var e := Apply(p, Enqueue(i, q));
    TakesInOrder(e, q, |p.queues[q]| + 1);
    var s := e.queues[q];
    assert s == p.queues[q] + [p.held[i]] && s[..|p.queues[q]| + 1] == s && s[|p.queues[q]| + 1..] == [];
    assert Without(p.held, i) + (p.queues[q] + [p.held[i]]) == Without(p.held, i) + p.queues[q] + [p.held[i]];
    assert e.queues[q := []] == p.queues[q := []];
  }

  lemma {:induction false} TakesInOrder(p: Pool, q: nat, n: nat)
    requires q < |p.queues| && n <= |p.queues[q]|
    ensures Run(p, Dequeues(q, n)) == p.(held := p.held + p.queues[q][..n], queues := p.queues[q := p.queues[q][n..]])
    decreases n
  {
    if n == 0 {
      assert p.held + [] == p.held && p.queues[q := p.queues[q]] == p.queues;
    } else {
      var d := Apply(p, Dequeue(q));
      var s := p.queues[q];
      assert Dequeues(q, n)[1..] == Dequeues(q, n - 1);
      TakesInOrder(d, q, n - 1);
      assert d.queues[q] == s[1..] && s[1..][n - 1..] == s[n..];
      assert (p.held + [s[0]]) + s[1..][..n - 1] == p.held + s[..n];
      assert d.queues[q := s[n..]] == p.queues[q := s[n..]];
    }
  }
}
