/**
  The race between acquiring, releasing and draining one hot pair, atomic operation by atomic operation.

  Acquiring runs under the read lock, the draining sections under the write lock, and a release decrements
  and inspects the pair under no lock at all before it takes the write lock to remove it. Threads that are
  at the same point are counted together.
*/
module PairRace {
  import opened PairList

  /**
    What the holder of the write lock has done to the pair so far. `Passed`: InvalidateChannel has loaded a
    state that was not Closed (`closed`: a release has closed the pair since); `Storing`: its second load saw
    a state that was not Draining, and it is about to store Draining; `Decided`: the state is stored and
    `refs` not read yet.
  */
  datatype Lock = Free | Passed(first: PairState, closed: bool) | Storing(second: PairState) | Decided

  /**
    looking, found, counted: acquirers holding the read lock before their first state load, after it saw
    Ready, and after their increment. holders: references handed out. early, late: releases that brought
    `refs` to zero or below while the pair was Ready, or was not, and have not looked at the state yet.
    seen, sure, closing: releases after their first and second state load, and after they closed the pair.
    stale: some early release saw Draining although `refs` was positive again.
    torn: a pair was taken off the list while `refs` was positive.
  */
  datatype Cell = Cell(
    state: PairState, refs: int, listed: bool, lock: Lock,
    looking: nat, found: nat, counted: nat, holders: nat,
    early: nat, late: nat, seen: nat, sure: nat, closing: nat,
    stale: bool, torn: bool)
  {
    function Readers(): nat {
      looking + found + counted
    }

    /** Nobody holds either side of the lock. */
    predicate Unlocked() {
      Readers() == 0 && lock == Free
    }

    function Unlist(): Cell {
      this.(listed := false, torn := torn || (listed && refs > 0))
    }

    /** Releases that may still remove the pair. */
    function Releasing(): nat {
      early + late + seen + sure + closing
    }
  }

  /** A pair that has just joined the list. */
  predicate Newborn(c: Cell) {
    && c.state == Ready && c.refs == c.holders == 0 && c.listed && c.Unlocked()
    && c.Releasing() == 0 && !c.stale && !c.torn
  }

  datatype Op =
    | AcquireLock | AcquireLoad | AcquireAdd | AcquireRecheck
    | ReleaseSub | EarlyLoad | LateLoad | SecondLoad | StoreClosed | RemoveSection
    | InvalidateFirst | InvalidateSecond | InvalidateStore | RetireReady | DrainRefs
    | PruneSection | DiscardSection

  /** A step that is not possible in a cell leaves it as it is. */
  function Step(c: Cell, op: Op): Cell {
    match op
    // AcquirePrimary, under the read lock
    case AcquireLock => if c.lock == Free && c.listed then c.(looking := c.looking + 1) else c
    case AcquireLoad =>
      if c.looking == 0 then c
      else if c.state == Ready then c.(looking := c.looking - 1, found := c.found + 1)
      else c.(looking := c.looking - 1)
    case AcquireAdd => if c.found == 0 then c else c.(found := c.found - 1, counted := c.counted + 1, refs := c.refs + 1)
    case AcquireRecheck =>
      if c.counted == 0 then c
      else if c.state == Ready then c.(counted := c.counted - 1, holders := c.holders + 1)
      else c.(counted := c.counted - 1, refs := c.refs - 1)
    // ReleasePair: decrement, two loads and the store without a lock, then the removing section
    case ReleaseSub =>
      if c.holders == 0 then c
      else
        var d := c.(holders := c.holders - 1, refs := c.refs - 1);
        if d.refs > 0 then d
        else if d.state == Ready then d.(early := d.early + 1)
        else d.(late := d.late + 1)
    case EarlyLoad =>
      if c.early == 0 then c
      else if c.state == Draining then c.(early := c.early - 1, seen := c.seen + 1, stale := c.stale || c.refs > 0)
      else c.(early := c.early - 1)
    case LateLoad =>
      if c.late == 0 then c
      else if c.state == Draining then c.(late := c.late - 1, seen := c.seen + 1)
      else c.(late := c.late - 1)
    case SecondLoad =>
      if c.seen == 0 then c
      else if c.state != Closed then c.(seen := c.seen - 1, sure := c.sure + 1)
      else c.(seen := c.seen - 1)
    case StoreClosed =>
      if c.sure == 0 then c
      else c.(sure := c.sure - 1, closing := c.closing + 1, state := Closed,
              lock := if c.lock.Passed? then c.lock.(closed := true) else c.lock)
    case RemoveSection => if c.closing == 0 || !c.Unlocked() then c else c.(closing := c.closing - 1).Unlist()
    // InvalidateChannel: two loads, the store, then refs
    case InvalidateFirst =>
      if c.listed && c.Unlocked() && c.state != Closed then c.(lock := Passed(c.state, false)) else c
    case InvalidateSecond =>
      if !c.lock.Passed? then c
      else if c.state == Draining then c.(lock := Decided)
      else c.(lock := Storing(c.state))
    case InvalidateStore => if c.lock.Storing? then c.(state := Draining, lock := Decided) else c
    // deduplicating and trimming send a Ready pair draining, and nobody else can change a Ready pair meanwhile
    case RetireReady => if c.listed && c.Unlocked() && c.state == Ready then c.(state := Draining, lock := Decided) else c
    case DrainRefs =>
      if c.lock != Decided then c
      else if c.refs <= 0 then c.(state := Closed, lock := Free).Unlist()
      else c.(lock := Free)
    case PruneSection =>
      if c.listed && c.Unlocked() && c.state == Draining && c.refs <= 0 then c.(state := Closed).Unlist() else c
    // discardCandidatePair looks at neither the state nor the list
    case DiscardSection =>
      if !c.Unlocked() then c
      else if c.refs <= 0 then c.(state := Closed).Unlist()
      else c.(state := Draining)
  }

  function Run(c: Cell, ops: seq<Op>): Cell
    decreases |ops|
  {
    if ops == [] then c else Run(Step(c, ops[0]), ops[1..])
  }

  // ---------------------------------------------------------------- invariant

  /** What the lock holder knows: nobody else takes a pair out of Ready, and only a release closes one meanwhile. */
  predicate LockOk(c: Cell) {
    match c.lock
    case Free => true
    case Passed(first, closed) =>
      c.listed && c.Readers() == 0 && first != Closed && c.state == if closed then Closed else first
    case Storing(second) => c.listed && c.Readers() == 0 && second != Draining && c.state == second
    case Decided => c.listed && c.Readers() == 0 && c.state != Ready
  }

  ghost predicate Inv(c: Cell) {
    // every counted reference is a holder or an acquirer about to become one
    && c.refs == c.holders + c.counted
    // the lock keeps acquirers and draining sections apart, so a pair cannot leave Ready under an acquirer
    && LockOk(c)
    && (c.found + c.counted > 0 ==> c.state == Ready)
    && (c.late + c.seen + c.sure + c.closing > 0 || !c.listed ==> c.state != Ready)
    // somebody is on the way to remove a pair that has to go
    && (c.state != Ready && c.listed && c.refs <= 0 && c.lock == Free ==> c.Releasing() > 0)
    && (c.state == Closed && c.listed ==> c.closing > 0)
    // without a stale release, a pair on its way out has no references left
    && (!c.stale && (c.late + c.seen + c.sure + c.closing > 0 || !c.listed || c.state == Closed) ==> c.refs <= 0)
    && (c.torn ==> c.stale)
  }

  lemma {:induction false} AcquireKeeps(c: Cell, op: Op)
    requires Inv(c) && (op.AcquireLock? || op.AcquireLoad? || op.AcquireAdd? || op.AcquireRecheck?)
    ensures Inv(Step(c, op))
  {
  }

  lemma {:induction false} ReleaseKeeps(c: Cell, op: Op)
    requires Inv(c) && (op.ReleaseSub? || op.EarlyLoad? || op.LateLoad?)
    ensures Inv(Step(c, op))
  {
  }

  lemma {:induction false} CloseKeeps(c: Cell, op: Op)
    requires Inv(c) && (op.SecondLoad? || op.StoreClosed? || op.RemoveSection?)
    ensures Inv(Step(c, op))
  {
  }

  lemma {:induction false} DrainKeeps(c: Cell, op: Op)
    requires Inv(c) && (op.RetireReady? || op.DrainRefs? || op.PruneSection? || op.DiscardSection?)
    ensures Inv(Step(c, op))
  {
  }

  lemma {:induction false} InvalidateKeeps(c: Cell, op: Op)
    requires Inv(c) && (op.InvalidateFirst? || op.InvalidateSecond? || op.InvalidateStore?)
    ensures Inv(Step(c, op))
  {
  }

  lemma {:induction false} StepKeeps(c: Cell, op: Op)
    requires Inv(c)
    ensures Inv(Step(c, op))
  {
    match op {
      case AcquireLock | AcquireLoad | AcquireAdd | AcquireRecheck => AcquireKeeps(c, op);
      case ReleaseSub | EarlyLoad | LateLoad => ReleaseKeeps(c, op);
      case SecondLoad | StoreClosed | RemoveSection => CloseKeeps(c, op);
      case InvalidateFirst | InvalidateSecond | InvalidateStore => InvalidateKeeps(c, op);
      case _ => DrainKeeps(c, op);
    }
  }

  // ---------------------------------------------------------------- over every run

  function Rank(s: PairState): nat {
    match s
    case Ready => 0
    case Draining => 1
    case Closed => 2
  }

  /**
    The two ways back from Closed to Draining: InvalidateChannel stores Draining after its second load saw
    Closed, and a candidate that a stale release has closed is discarded while it is in use.
  */
  predicate Retreats(c: Cell, op: Op) {
    || (op.InvalidateStore? && c.lock == Storing(Closed))
    || (op.DiscardSection? && c.Unlocked() && c.state == Closed && c.refs > 0)
  }

  /** A step moves the state back exactly when it is one of those two; every other step only advances it. */
  lemma {:induction false} RetreatsIff(c: Cell, op: Op)
    requires Inv(c)
    ensures Rank(Step(c, op).state) < Rank(c.state) <==> Retreats(c, op)
    ensures Retreats(c, op) ==> c.state == Closed && Step(c, op).state == Draining
  {
  }

  /** The second load sees Closed exactly when a release has closed the pair since the first load. */
  lemma {:induction false} SecondLoadSeesClosedIff(c: Cell)
    requires Inv(c) && c.lock.Passed?
    ensures Step(c, InvalidateSecond).lock == Storing(Closed) <==> c.lock.closed
  {
  }

  /** No step of the run moves the state back. */
  ghost predicate Steady(c: Cell, ops: seq<Op>)
    decreases |ops|
  {
    ops == [] || (!Retreats(c, ops[0]) && Steady(Step(c, ops[0]), ops[1..]))
  }

  lemma {:induction false} NextCell(c: Cell, op: Op) returns (d: Cell)
    requires Inv(c)
    ensures d == Step(c, op) && Inv(d) && (!Retreats(c, op) ==> Rank(d.state) >= Rank(c.state))
    ensures d.state == Ready ==> c.state == Ready
  {
    StepKeeps(c, op);
    RetreatsIff(c, op);
    d := Step(c, op);
  }

  lemma {:induction false} RunKeeps(c: Cell, ops: seq<Op>)
    requires Inv(c)
    ensures Inv(Run(c, ops))
    decreases |ops|
  {
    if ops != [] {
      var d := NextCell(c, ops[0]);
      RunKeeps(d, ops[1..]);
    }
  }

  /**
    Between any two points of a run without such a step, states only move from Ready to Draining to Closed.
    In any run whatever, a pair that has left Ready never comes back to it.
  */
  lemma {:induction false} StatesOnlyAdvance(c: Cell, ops: seq<Op>)
    requires Inv(c)
    ensures Steady(c, ops) ==> Rank(Run(c, ops).state) >= Rank(c.state)
    ensures Run(c, ops).state == Ready ==> c.state == Ready
    decreases |ops|
  {
    if ops != [] {
      var d := NextCell(c, ops[0]);
      StatesOnlyAdvance(d, ops[1..]);
    }
  }

  /** A cell some run of operations from a fresh pair ends in. */
  ghost predicate Reaches(c: Cell) {
    exists b :: Newborn(b) && Leads(b, c)
  }

  ghost predicate Leads(a: Cell, c: Cell) {
    exists ops :: Run(a, ops) == c
  }

  lemma {:induction false} ReachedKeeps(c: Cell)
    requires Reaches(c)
    ensures Inv(c)
  {
    var b :| Newborn(b) && Leads(b, c);
    var ops :| Run(b, ops) == c;
    RunKeeps(b, ops);
  }

  /**
    No pair is stranded: with no release in flight and the lock free, a listed draining pair is in use, and
    a closed pair is off the list. The second state check of an acquirer never fails.
  */
  lemma {:induction false} NothingIsStranded(c: Cell)
    requires Reaches(c)
    ensures c.Releasing() == 0 && c.lock == Free && c.listed && c.state == Draining ==> c.refs > 0
    ensures c.Releasing() == 0 && c.state == Closed ==> !c.listed
    ensures c.counted > 0 ==> c.state == Ready
    ensures c.refs == c.holders + c.counted
  {
    ReachedKeeps(c);
  }

  /** A pair in use is taken off the list only after a stale release: every other way out waits for the last reference. */
  lemma {:induction false} OnlyStaleReleasesTear(c: Cell)
    requires Reaches(c)
    ensures c.torn ==> c.stale
    ensures !c.stale && !c.listed ==> c.refs <= 0
  {
    ReachedKeeps(c);
  }

  /** In every interleaving: a step takes a pair in use off the list exactly when it is a release removing one it has closed. */
  lemma {:induction false} StepTearsIff(c: Cell, op: Op)
    requires Inv(c) && !c.torn
    ensures Step(c, op).torn <==> op.RemoveSection? && c.closing > 0 && c.Unlocked() && c.listed && c.refs > 0
  {
  }

  // ---------------------------------------------------------------- the stale release

  /** A release that has decremented runs to its end with nobody in between. */
  function FinishRelease(c: Cell): Cell {
    Step(Step(Step(Step(c, EarlyLoad), SecondLoad), StoreClosed), RemoveSection)
  }

  /**
    A release that reached zero on a Ready pair removes a pair in use exactly when, by the time it looks at
    the state, the pair is draining and has been acquired again.
  */
  lemma {:induction false} ReleaseTearsIff(c: Cell)
    requires Inv(c) && c.early > 0 && c.Unlocked() && !c.torn && c.seen == c.sure == c.closing == 0
    ensures FinishRelease(c).torn <==> c.state == Draining && c.refs > 0 && c.listed
  {
  }

  lemma {:induction false} RunAppend(c: Cell, ops: seq<Op>, op: Op)
    ensures Run(c, ops + [op]) == Step(Run(c, ops), op)
    decreases |ops|
  {
    if ops == [] {
      assert (ops + [op])[1..] == [];
    } else {
      assert (ops + [op])[1..] == ops[1..] + [op];
      RunAppend(Step(c, ops[0]), ops[1..], op);
    }
  }

  lemma {:induction false} LeadsNext(a: Cell, c: Cell, op: Op, d: Cell)
    requires Leads(a, c) && Step(c, op) == d
    ensures Leads(a, d)
  {
    var ops :| Run(a, ops) == c;
    RunAppend(a, ops, op);
  }

  lemma {:induction false} TwoSteps(a: Cell, c: Cell, op: Op, d: Cell, next: Op, e: Cell)
    requires Leads(a, c) && Step(c, op) == d && Step(d, next) == e
    ensures Leads(a, e)
  {
    LeadsNext(a, c, op, d);
    LeadsNext(a, d, next, e);
  }

  /** One whole acquisition of an idle Ready pair. */
  lemma {:induction false} AcquireLeads(a: Cell, c: Cell, e: Cell)
    requires Leads(a, c) && c.state == Ready && c.listed && c.Unlocked()
    requires e == c.(refs := c.refs + 1, holders := c.holders + 1)
    ensures Leads(a, e)
  {
    TwoSteps(a, c, AcquireLock, c.(looking := 1), AcquireLoad, c.(found := 1));
    TwoSteps(a, c.(found := 1), AcquireAdd, c.(counted := 1, refs := c.refs + 1), AcquireRecheck, e);
  }

  /** A held Ready pair is sent draining. */
  lemma {:induction false} DrainLeads(a: Cell, c: Cell)
    requires Leads(a, c) && c.listed && c.Unlocked() && c.state == Ready && c.refs > 0
    ensures Leads(a, c.(state := Draining))
  {
    TwoSteps(a, c, RetireReady, c.(state := Draining, lock := Decided), DrainRefs, c.(state := Draining));
  }

  /** Acquired, released to zero, acquired again and sent draining, before the release looks at the state. */
  lemma {:induction false} StaleReleaseLeads(a: Cell)
    requires a.state == Ready && a.listed && a.Unlocked() && a.refs == a.holders == 0
    ensures Leads(a, a.(refs := 1, holders := 1, early := a.early + 1, state := Draining))
  {
    assert Run(a, []) == a;
    AcquireLeads(a, a, a.(refs := 1, holders := 1));
    var b := a.(early := a.early + 1);
    LeadsNext(a, a.(refs := 1, holders := 1), ReleaseSub, b);
    AcquireLeads(a, b, b.(refs := 1, holders := 1));
    DrainLeads(a, b.(refs := 1, holders := 1));
  }

  lemma {:induction false} ReachedTears(c: Cell)
    requires Reaches(c) && c.early > 0 && c.Unlocked() && c.seen == c.sure == c.closing == 0
    requires c.state == Draining && c.refs > 0 && c.listed && !c.torn
    ensures FinishRelease(c).torn
  {
    ReachedKeeps(c);
    ReleaseTearsIff(c);
  }

  /** It happens to any pair: release to zero, acquire again, drain, and only then the release looks at the state. */
  lemma {:induction false} ReleaseCanTear(b: Cell) returns (c: Cell)
    requires Newborn(b)
    ensures Leads(b, c) && !c.torn && FinishRelease(c).torn
  {
    StaleReleaseLeads(b);
    c := b.(refs := 1, holders := 1, early := 1, state := Draining);
    ReachedTears(c);
  }

  // ---------------------------------------------------------------- both ways back happen

  /** A pair held once, draining, whose release has made both its loads: it is about to close the pair. */
  lemma {:induction false} SureLeads(b: Cell)
    requires Newborn(b)
    ensures Leads(b, b.(state := Draining, sure := 1))
  {
    assert Run(b, []) == b;
    var held := b.(refs := 1, holders := 1);
    AcquireLeads(b, b, held);
    DrainLeads(b, held);
    var c := b.(state := Draining);
    LeadsNext(b, held.(state := Draining), ReleaseSub, c.(late := 1));
    TwoSteps(b, c.(late := 1), LateLoad, c.(seen := 1), SecondLoad, c.(sure := 1));
  }

  /** InvalidateChannel looks, the release closes the pair, and InvalidateChannel looks again. */
  lemma {:induction false} OvertakenLeads(b: Cell, a: Cell, d: Cell)
    requires Leads(b, a) && a.listed && a.Unlocked() && a.state == Draining && a.sure == 1 && a.closing == 0
    requires d == a.(state := Closed, sure := 0, closing := 1, lock := Storing(Closed))
    ensures Leads(b, d)
  {
    TwoSteps(b, a, InvalidateFirst, a.(lock := Passed(Draining, false)), StoreClosed, d.(lock := Passed(Draining, true)));
    LeadsNext(b, d.(lock := Passed(Draining, true)), InvalidateSecond, d);
  }

  /** Then it stores Draining, and the closed pair is draining again. */
  lemma {:induction false} InvalidateCanRetreat(b: Cell) returns (c: Cell)
    requires Newborn(b)
    ensures Leads(b, c) && c.state == Closed && Step(c, InvalidateStore).state == Draining
  {
    SureLeads(b);
    c := b.(state := Closed, closing := 1, lock := Storing(Closed));
    OvertakenLeads(b, b.(state := Draining, sure := 1), c);
  }

  /** A stale release closes a pair in use, and the refresh discards it. */
  lemma {:induction false} DiscardCanRetreat(b: Cell) returns (c: Cell)
    requires Newborn(b)
    ensures Leads(b, c) && c.state == Closed && Step(c, DiscardSection).state == Draining
  {
    StaleReleaseLeads(b);
    var a := b.(refs := 1, holders := 1, early := b.early + 1, state := Draining);
    var d := a.(early := 0, sure := 1, stale := true);
    TwoSteps(b, a, EarlyLoad, a.(early := 0, seen := 1, stale := true), SecondLoad, d);
    c := d.(sure := 0, closing := 1, state := Closed);
    LeadsNext(b, d, StoreClosed, c);
  }

  // ---------------------------------------------------------------- discarding must be one step

  /** Listed and draining with no reference, and nobody is left to remove it. */
  predicate Stranded(c: Cell) {
    c.listed && c.state == Draining && c.refs <= 0 && c.Releasing() == 0 && c.lock == Free
  }

  /** What can happen while a section holds the write lock: releases run, but remove nothing. */
  predicate LockFree(op: Op) {
    op.ReleaseSub? || op.EarlyLoad? || op.LateLoad? || op.SecondLoad? || op.StoreClosed?
  }

  ghost predicate AllLockFree(ops: seq<Op>) {
    forall i :: 0 <= i < |ops| ==> LockFree(ops[i])
  }

  /** Lock-free operations leave the list and the lock alone, and a pair that is not Ready stays so. */
  lemma {:induction false} LockFreeFrame(c: Cell, ops: seq<Op>)
    requires Inv(c) && c.Unlocked() && AllLockFree(ops)
    ensures var d := Run(c, ops);
            Inv(d) && d.Unlocked() && d.listed == c.listed && (c.state != Ready ==> d.state != Ready)
    decreases |ops|
  {
    if ops != [] {
      StepKeeps(c, ops[0]);
      var d := LockFreeStep(c, ops[0]);
      LockFreeFrame(d, ops[1..]);
    }
  }

  lemma {:induction false} LockFreeStep(c: Cell, op: Op) returns (d: Cell)
    requires Inv(c) && c.Unlocked() && LockFree(op)
    ensures d == Step(c, op) && d.Unlocked() && d.listed == c.listed && (c.state != Ready ==> d.state != Ready)
  {
    d := Step(c, op);
  }

  lemma {:induction false} RunCons(c: Cell, op: Op, ops: seq<Op>)
    ensures Run(c, [op] + ops) == Run(Step(c, op), ops)
  {
    assert ([op] + ops)[1..] == ops;
  }

  /** On a Ready pair every reference can be given back and looked at before anybody else moves. */
  lemma {:induction false} AllRelease(c: Cell) returns (ops: seq<Op>)
    requires Inv(c) && c.Unlocked() && c.listed && c.state == Ready
    ensures AllLockFree(ops) && Run(c, ops) == c.(refs := 0, holders := 0, early := 0)
    decreases c.holders, c.early
  {
    if c.holders > 0 {
      StepKeeps(c, ReleaseSub);
      var rest := AllRelease(Step(c, ReleaseSub));
      RunCons(c, ReleaseSub, rest);
      ops := [ReleaseSub] + rest;
    } else if c.early > 0 {
      StepKeeps(c, EarlyLoad);
      var rest := AllRelease(Step(c, EarlyLoad));
      RunCons(c, EarlyLoad, rest);
      ops := [EarlyLoad] + rest;
    } else {
      ops := [];
    }
  }

  /**
    Discarding reads `refs` before it stores Draining, under the write lock. Taken apart, with a positive count
    read, some course of the releases in between leaves the pair stranded by the store exactly when the pair
    was Ready: each of them then finds it Ready and goes away. As one step discarding strands none
    (`NothingIsStranded`).
  */
  lemma {:induction false} SplitDiscardStrandsIff(c: Cell)
    requires Inv(c) && c.Unlocked() && c.listed && c.refs > 0
    ensures (exists ops :: AllLockFree(ops) && Stranded(Run(c, ops).(state := Draining))) <==> c.state == Ready
  {
    if c.state == Ready {
      var ops := AllRelease(c);
      assert Stranded(Run(c, ops).(state := Draining));
    } else {
      forall ops | AllLockFree(ops) ensures !Stranded(Run(c, ops).(state := Draining)) {
        LockFreeFrame(c, ops);
      }
    }
  }

  // ---------------------------------------------------------------- what goes through

  /** An acquirer that is not interrupted gets a reference exactly if the pair is Ready, and leaves no trace otherwise. */
  lemma {:induction false} AcquireSucceedsIff(c: Cell)
    requires c.Unlocked() && c.listed
    ensures Run(c, [AcquireLock, AcquireLoad, AcquireAdd, AcquireRecheck]) ==
            if c.state == Ready then c.(refs := c.refs + 1, holders := c.holders + 1) else c
  {
    var looking := Step(c, AcquireLock);
    var found := Step(looking, AcquireLoad);
    var counted := Step(found, AcquireAdd);
    RunFour(c, AcquireLock, AcquireLoad, AcquireAdd, AcquireRecheck);
  }

  lemma {:induction false} RunFour(c: Cell, a: Op, b: Op, d: Op, e: Op)
    ensures Run(c, [a, b, d, e]) == Step(Step(Step(Step(c, a), b), d), e)
  {
    var c1 := Step(c, a);
    var c2 := Step(c1, b);
    RunCons(c, a, [b, d, e]);
    RunCons(c1, b, [d, e]);
    RunCons(c2, d, [e]);
    RunCons(Step(c2, d), e, []);
    assert [a, b, d, e] == [a] + [b, d, e] && [b, d, e] == [b] + [d, e] && [d, e] == [d] + [e] && [e] == [e] + [];
  }

  /** InvalidateChannel, not interrupted, sends an open pair draining, and removes one that nobody holds. */
  lemma {:induction false} InvalidateDrains(c: Cell)
    requires Inv(c) && c.Unlocked() && c.listed && c.state != Closed
    ensures Run(c, [InvalidateFirst, InvalidateSecond, InvalidateStore, DrainRefs]) ==
            if c.refs > 0 then c.(state := Draining) else c.(state := Closed, listed := false)
  {
    var passed := Step(c, InvalidateFirst);
    var stored := Step(passed, InvalidateSecond);
    var decided := Step(stored, InvalidateStore);
    RunFour(c, InvalidateFirst, InvalidateSecond, InvalidateStore, DrainRefs);
  }

  /** What a release does after its decrement, by the operations that are its own. */
  predicate Releases(op: Op) {
    op.EarlyLoad? || op.LateLoad? || op.SecondLoad? || op.StoreClosed? || op.RemoveSection?
  }

  ghost predicate AllReleases(ops: seq<Op>) {
    forall i :: 0 <= i < |ops| ==> Releases(ops[i])
  }

  /** A listed pair that has left Ready and has no reference is taken off the list by the releases already under way. */
  lemma {:induction false} ReleasesRemove(c: Cell) returns (ops: seq<Op>)
    requires Inv(c) && c.Unlocked() && c.listed && c.state != Ready && c.refs <= 0
    ensures AllReleases(ops) && !Run(c, ops).listed
    decreases 3 * (c.early + c.late) + 2 * c.seen + c.sure, c.closing
  {
    var op := if c.closing > 0 then RemoveSection
              else if c.sure > 0 then StoreClosed
              else if c.seen > 0 then SecondLoad
              else if c.late > 0 then LateLoad
              else EarlyLoad;
    assert c.Releasing() > 0;
    StepKeeps(c, op);
    var d := Step(c, op);
    var rest := [];
    if d.listed {
      rest := ReleasesRemove(d);
    }
    RunCons(c, op, rest);
    ops := [op] + rest;
  }

  /** A pair leaves the list only closed, and only through a section that found it idle or a release that had closed it. */
  lemma {:induction false} UnlistedIff(c: Cell, op: Op)
    requires Inv(c) && c.listed
    ensures !Step(c, op).listed <==>
              || (op.RemoveSection? && c.Unlocked() && c.closing > 0)
              || (op.DrainRefs? && c.lock == Decided && c.refs <= 0)
              || ((op.DiscardSection? || (op.PruneSection? && c.state == Draining)) && c.Unlocked() && c.refs <= 0)
    ensures !Step(c, op).listed && c.closing == 0 ==> Step(c, op).state == Closed
  {
  }
}
