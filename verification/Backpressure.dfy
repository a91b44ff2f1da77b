/**
  Server backpressure: a three-level hysteresis driven by the bytes queued for all channels.

  A level change is announced on every open channel, and the announcement goes through the same queues
  that it measures, so a write can announce a level, whose own notices raise the level again. Every call
  (a write, one dequeue, a close) is one step.
*/
module Backpressure {
  import opened Link

  datatype Level = Normal | SlowDown | Pause

  function Rank(l: Level): nat {
    match l
    case Normal => 0
    case SlowDown => 1
    case Pause => 2
  }

  /** A queued message: its encoded size and, for a backpressure notice, the announced level. */
  datatype Task = Task(size: nat, notice: Option<Level>)

  /** A closed channel takes nothing more, but its write loop still empties the queue. */
  datatype Chan = Chan(open: bool, capacity: nat, queue: seq<Task>)

  /** `notices` counts announcements and `enqueued` bytes ever queued; they are history, not server state. */
  datatype Pool = Pool(
    limit: int, bytes: int, level: Level, cooldown: bool, chans: seq<Chan>, notices: nat, enqueued: nat)

  /** An encoded notice is the eight header bytes and one byte of meta. */
  const NOTICE_SIZE := 9

  function Notice(l: Level): Task {
    Task(NOTICE_SIZE, Some(l))
  }

  function PauseAbove(limit: int): int {
    limit * 95 / 100
  }

  function SlowAbove(limit: int): int {
    limit * 8 / 10
  }

  function SlowBelow(limit: int): int {
    limit * 9 / 10
  }

  function NormalBelow(limit: int): int {
    limit * 7 / 10
  }

  function EmptyBelow(limit: int): int {
    limit * 3 / 10
  }

  // ---------------------------------------------------------------- the recursive calls

  /** One write to one channel. A nested announcement only ever raises the level. */
  function Written(p: Pool, i: nat, t: Task): (r: Pool)
    requires i < |p.chans|
    ensures |r.chans| == |p.chans| && Rank(r.level) >= Rank(p.level)
    ensures p.bytes >= 0 ==> r.bytes >= p.bytes
    decreases 2 - Rank(p.level), 0, 2
  {
    var c := p.chans[i];
    if !c.open then p
    else if |c.queue| >= c.capacity then p.(bytes := Clamp(p.bytes + t.size - t.size))
    else Update(Pushed(p, i, t))
  }

  /** The task is queued and counted; the level has not been looked at yet. */
  function Pushed(p: Pool, i: nat, t: Task): Pool
    requires i < |p.chans|
  {
    p.(bytes := p.bytes + t.size,
       enqueued := p.enqueued + t.size,
       chans := p.chans[i := p.chans[i].(queue := p.chans[i].queue + [t])])
  }

  function Update(p: Pool): (r: Pool)
    ensures |r.chans| == |p.chans| && Rank(r.level) >= Rank(p.level)
    ensures p.bytes >= 0 ==> r.bytes >= p.bytes
    decreases 2 - Rank(p.level), 0, 1
  {
    if p.limit <= 0 then p
    else if p.bytes > PauseAbove(p.limit) then
      if p.level != Pause then Announce(p, Pause) else p
    else if p.bytes > SlowAbove(p.limit) && p.level == Normal && !p.cooldown then
      Announce(p.(cooldown := true), SlowDown)
    else p
  }

  /** The level is stored first, then announced on every open channel. */
  function Announce(p: Pool, l: Level): (r: Pool)
    ensures |r.chans| == |p.chans| && Rank(r.level) >= Rank(l)
    ensures p.bytes >= 0 ==> r.bytes >= p.bytes
    decreases 2 - Rank(l), 2, 0
  {
    FanOut(p.(level := l, notices := p.notices + 1), l, 0)
  }

  function FanOut(p: Pool, l: Level, i: nat): (r: Pool)
    requires i <= |p.chans|
    ensures |r.chans| == |p.chans| && Rank(r.level) >= Rank(p.level)
    ensures p.bytes >= 0 ==> r.bytes >= p.bytes
    decreases 2 - Rank(p.level), 1, |p.chans| - i
  {
    if i == |p.chans| then p else FanOut(Written(p, i, Notice(l)), l, i + 1)
  }

  /** Bytes leave the queues; recovery goes by stages, or straight to Normal when little is left. */
  function Remove(p: Pool, size: nat): Pool {
    var q := p.(bytes := Clamp(p.bytes - size));
    if q.limit <= 0 then q
    else if q.level == Pause && q.bytes < EmptyBelow(q.limit) then Announce(q, Normal)
    else if q.level == Pause && q.bytes < SlowBelow(q.limit) then Announce(q, SlowDown)
    else if q.level == SlowDown && q.bytes < NormalBelow(q.limit) then Announce(q, Normal)
    else q
  }

  // ---------------------------------------------------------------- runs

  datatype Action =
    | Write(ch: nat, size: nat)
    | Take(ch: nat)
    | CloseChannel(ch: nat)
    | OpenChannel(capacity: nat)
    | CooldownEnds

  function TakeFrom(p: Pool, i: nat): Pool
    requires i < |p.chans|
  {
    var c := p.chans[i];
    if c.queue == [] then p
    else
      var q := p.(chans := p.chans[i := c.(queue := c.queue[1..])]);
      if c.queue[0].size > 0 then Remove(q, c.queue[0].size) else q
  }

  function Apply(p: Pool, a: Action): Pool {
    match a
    case Write(i, size) => if i < |p.chans| then Written(p, i, Task(size, None)) else p
    case Take(i) => if i < |p.chans| then TakeFrom(p, i) else p
    case CloseChannel(i) => if i < |p.chans| then p.(chans := p.chans[i := p.chans[i].(open := false)]) else p
    case OpenChannel(capacity) => p.(chans := p.chans + [Chan(true, capacity, [])])
    case CooldownEnds => p.(cooldown := false)
  }

  function Fresh(limit: int): Pool {
    Pool(limit, 0, Normal, false, [], 0, 0)
  }

  function Run(p: Pool, actions: seq<Action>): Pool
    decreases |actions|
  {
    if actions == [] then p else Run(Apply(p, actions[0]), actions[1..])
  }

  // ---------------------------------------------------------------- the invariant

  function Sizes(queue: seq<Task>): nat {
    if queue == [] then 0 else queue[0].size + Sizes(queue[1..])
  }

  function Total(chans: seq<Chan>): nat {
    if chans == [] then 0 else Sizes(chans[0].queue) + Total(chans[1..])
  }

  lemma {:induction false} SizesAppend(queue: seq<Task>, t: Task)
    ensures Sizes(queue + [t]) == Sizes(queue) + t.size
  {
    if queue == [] {
      assert (queue + [t])[1..] == [];
    } else {
      assert (queue + [t])[1..] == queue[1..] + [t];
      SizesAppend(queue[1..], t);
    }
  }

  lemma {:induction false} TotalUpdate(chans: seq<Chan>, i: nat, c: Chan)
    requires i < |chans|
    ensures Total(chans[i := c]) == Total(chans) - Sizes(chans[i].queue) + Sizes(c.queue)
  {
    if i > 0 {
      assert chans[i := c][1..] == chans[1..][i - 1 := c];
      TotalUpdate(chans[1..], i - 1, c);
    }
  }

  lemma {:induction false} TotalAppend(chans: seq<Chan>, c: Chan)
    ensures Total(chans + [c]) == Total(chans) + Sizes(c.queue)
  {
    if chans == [] {
      assert (chans + [c])[1..] == [];
    } else {
      assert (chans + [c])[1..] == chans[1..] + [c];
      TotalAppend(chans[1..], c);
    }
  }

  /** How many bytes must be queued to go from falling below `SlowBelow` to rising above `PauseAbove`. */
  function Gap(limit: int): int {
    PauseAbove(limit) - SlowBelow(limit)
  }

  /** Bytes already queued towards the next rise. */
  function Progress(limit: int, level: Level, bytes: int): int {
    match level
    case Normal => Clamp(bytes - NormalBelow(limit))
    case SlowDown => Clamp(bytes - SlowBelow(limit))
    case Pause => 0
  }

  /** The counter is exact, and an elevated level has the bytes to show for it. */
  ghost predicate Base(p: Pool) {
    && p.bytes == Total(p.chans)
    && (p.limit <= 0 ==> p.level == Normal && p.notices == 0)
    && (p.limit > 0 && p.level == Pause ==> p.bytes >= SlowBelow(p.limit))
    && (p.limit > 0 && p.level == SlowDown ==> p.bytes >= EmptyBelow(p.limit))
    && (p.limit > 0 ==> Paid(p))
  }

  /** Every announcement, and every level still to be given back, is paid for by queued bytes. */
  ghost predicate Paid(p: Pool) {
    (p.notices + Rank(p.level)) * Gap(p.limit) + 3 * Progress(p.limit, p.level, p.bytes) <= 3 * p.enqueued
  }

  ghost predicate Inv(p: Pool) {
    && Base(p)
    && (p.limit > 0 && p.bytes > PauseAbove(p.limit) ==> p.level == Pause)
  }

  lemma {:induction false} Rise(p: Pool, l: Level)
    requires p.limit > 0 && Paid(p) && Rank(p.level) < Rank(l)
    requires l == Pause ==> p.bytes > PauseAbove(p.limit)
    requires l == SlowDown ==> p.bytes > SlowAbove(p.limit)
    ensures Paid(p.(level := l, notices := p.notices + 1))
  {
    var k := Rank(l) - Rank(p.level) + 1;
    var g := Gap(p.limit);
    assert k * g <= 3 * (Progress(p.limit, p.level, p.bytes) - Progress(p.limit, l, p.bytes)) by {
      if l == Pause && p.level == Normal {
        assert k * g == 3 * g;
      } else {
        assert k * g == 2 * g;
      }
    }
    var n := p.notices + Rank(p.level);
    assert (n + k) * g == n * g + k * g;
  }

  lemma {:induction false} Fall(p: Pool, l: Level)
    requires p.limit > 0 && Paid(p) && Rank(p.level) > Rank(l) && Progress(p.limit, l, p.bytes) == 0
    requires Progress(p.limit, p.level, p.bytes) >= 0
    ensures Paid(p.(level := l, notices := p.notices + 1))
  {
    var g := Gap(p.limit);
    var n := p.notices + Rank(p.level);
    var m := p.notices + 1 + Rank(l);
    assert g >= 0;
    assert m * g <= n * g;
  }

  lemma {:induction false} PushKeeps(p: Pool, i: nat, t: Task)
    requires Base(p) && i < |p.chans|
    ensures Base(Pushed(p, i, t))
  {
    var c := p.chans[i];
    SizesAppend(c.queue, t);
    TotalUpdate(p.chans, i, c.(queue := c.queue + [t]));
    assert Progress(p.limit, p.level, p.bytes + t.size) <= Progress(p.limit, p.level, p.bytes) + t.size;
  }

  lemma {:induction false} AsyncWriteKeeps(p: Pool, i: nat, t: Task)
    requires Inv(p) && i < |p.chans|
    ensures Inv(Written(p, i, t)) && Written(p, i, t).limit == p.limit
    decreases 2 - Rank(p.level), 0, 2
  {
    var c := p.chans[i];
    if c.open && |c.queue| < c.capacity {
      PushKeeps(p, i, t);
      UpdateKeeps(Pushed(p, i, t));
    }
  }

  lemma {:induction false} UpdateKeeps(p: Pool)
    requires Base(p)
    ensures Inv(Update(p)) && Update(p).limit == p.limit
    decreases 2 - Rank(p.level), 0, 1
  {
    if p.limit > 0 {
      if p.bytes > PauseAbove(p.limit) {
        if p.level != Pause {
          Rise(p, Pause);
          AnnounceKeeps(p, Pause);
        }
      } else if p.bytes > SlowAbove(p.limit) && p.level == Normal && !p.cooldown {
        Rise(p, SlowDown);
        AnnounceKeeps(p.(cooldown := true), SlowDown);
      }
    }
  }

  lemma {:induction false} AnnounceKeeps(p: Pool, l: Level)
    requires Inv(p.(level := l, notices := p.notices + 1))
    ensures Inv(Announce(p, l)) && Announce(p, l).limit == p.limit
    decreases 2 - Rank(l), 2, 0
  {
    FanOutKeeps(p.(level := l, notices := p.notices + 1), l, 0);
  }

  lemma {:induction false} FanOutKeeps(p: Pool, l: Level, i: nat)
    requires Inv(p) && i <= |p.chans|
    ensures Inv(FanOut(p, l, i)) && FanOut(p, l, i).limit == p.limit
    decreases 2 - Rank(p.level), 1, |p.chans| - i
  {
    if i < |p.chans| {
      AsyncWriteKeeps(p, i, Notice(l));
      FanOutKeeps(Written(p, i, Notice(l)), l, i + 1);
    }
  }

  /** `p` has lost a queued task of `size` bytes whose removal the counter has not seen yet. */
  lemma {:induction false} RemoveKeeps(p: Pool, size: nat)
    requires p.bytes - size == Total(p.chans)
    requires p.limit <= 0 ==> p.level == Normal && p.notices == 0
    requires p.limit > 0 ==> Paid(p) && (p.bytes > PauseAbove(p.limit) ==> p.level == Pause)
    ensures Inv(Remove(p, size)) && Remove(p, size).limit == p.limit
  {
    var q := p.(bytes := p.bytes - size);
    if q.limit > 0 {
      assert Paid(q);
      if q.level == Pause && q.bytes < EmptyBelow(q.limit) {
        FallKeeps(q, Normal);
      } else if q.level == Pause && q.bytes < SlowBelow(q.limit) {
        FallKeeps(q, SlowDown);
      } else if q.level == SlowDown && q.bytes < NormalBelow(q.limit) {
        FallKeeps(q, Normal);
      }
    }
  }

  lemma {:induction false} FallKeeps(q: Pool, l: Level)
    requires q.limit > 0 && q.bytes == Total(q.chans) && Paid(q) && Rank(q.level) > Rank(l)
    requires l == Normal ==> q.bytes < NormalBelow(q.limit)
    requires l == SlowDown ==> EmptyBelow(q.limit) <= q.bytes < SlowBelow(q.limit)
    ensures Inv(Announce(q, l)) && Announce(q, l).limit == q.limit
  {
    Fall(q, l);
    AnnounceKeeps(q, l);
  }

  lemma {:induction false} TakeKeeps(p: Pool, i: nat)
    requires Inv(p) && i < |p.chans|
    ensures Inv(TakeFrom(p, i)) && TakeFrom(p, i).limit == p.limit
  {
    var c := p.chans[i];
    if c.queue != [] {
      var d := c.(queue := c.queue[1..]);
      TotalUpdate(p.chans, i, d);
      var q := p.(chans := p.chans[i := d]);
      if c.queue[0].size > 0 {
        RemoveKeeps(q, c.queue[0].size);
      }
    }
  }

  lemma {:induction false} ApplyKeeps(p: Pool, a: Action)
    requires Inv(p)
    ensures Inv(Apply(p, a)) && Apply(p, a).limit == p.limit
  {
    match a {
      case Write(i, size) => if i < |p.chans| { AsyncWriteKeeps(p, i, Task(size, None)); }
      case Take(i) => if i < |p.chans| { TakeKeeps(p, i); }
      case CloseChannel(i) => if i < |p.chans| { TotalUpdate(p.chans, i, p.chans[i].(open := false)); }
      case OpenChannel(capacity) => TotalAppend(p.chans, Chan(true, capacity, []));
      case CooldownEnds =>
    }
  }

  lemma {:induction false} RunKeeps(p: Pool, actions: seq<Action>)
    requires Inv(p)
    ensures Inv(Run(p, actions)) && Run(p, actions).limit == p.limit
    decreases |actions|
  {
    if actions != [] {
      ApplyKeeps(p, actions[0]);
      RunKeeps(Apply(p, actions[0]), actions[1..]);
    }
  }

  // ---------------------------------------------------------------- main results

  ghost predicate Reaches(limit: int, p: Pool) {
    exists actions :: Run(Fresh(limit), actions) == p
  }

  lemma {:induction false} ReachedKeeps(limit: int, p: Pool)
    requires Reaches(limit, p)
    ensures Inv(p) && p.limit == limit
  {
    var actions :| Run(Fresh(limit), actions) == p;
    RunKeeps(Fresh(limit), actions);
  }

  /** The counter is the sum of all queued sizes, so the guard against a negative count never acts. */
  lemma {:induction false} BytesAreCounted(limit: int, p: Pool, i: nat)
    requires Reaches(limit, p)
    ensures p.bytes == Total(p.chans) >= 0
    ensures i < |p.chans| && p.chans[i].queue != [] ==> p.bytes >= p.chans[i].queue[0].size
  {
    ReachedKeeps(limit, p);
    if i < |p.chans| {
      TotalUpdate(p.chans, i, p.chans[i].(queue := []));
    }
  }

  /**
    What the levels promise about the queues, after every call of every run: above 95% of the limit the
    server is in Pause; in Pause at least 90% is queued; and an elevated level is never left standing over
    empty queues, when the limit is at least 4.
  */
  lemma {:induction false} LevelsFollowTheQueues(limit: int, p: Pool)
    requires Reaches(limit, p)
    ensures limit > 0 && p.bytes > PauseAbove(limit) ==> p.level == Pause
    ensures p.level == Pause ==> p.bytes >= SlowBelow(limit)
    ensures p.level == SlowDown ==> EmptyBelow(limit) <= p.bytes <= PauseAbove(limit)
    ensures p.level != Normal && limit >= 4 ==> p.bytes > 0
    ensures limit <= 0 ==> p.level == Normal && p.notices == 0
  {
    ReachedKeeps(limit, p);
  }

  /** Announcements are paid for by traffic: in every run at most three per `Gap` bytes queued. */
  lemma {:induction false} NoticesAreAmortised(limit: int, p: Pool)
    requires Reaches(limit, p)
    ensures limit > 0 ==> p.notices * Gap(limit) <= 3 * p.enqueued
    ensures limit <= 0 ==> p.notices == 0
  {
    ReachedKeeps(limit, p);
    if limit > 0 {
      Distributes(p.notices, Rank(p.level), Gap(limit));
    }
  }

  lemma {:induction false} Distributes(a: nat, b: nat, g: nat)
    ensures (a + b) * g >= a * g
  {
    assert (a + b) * g == a * g + b * g;
  }

  /** The recursion is shallow: one write announces at most once for every level it raises. */
  lemma {:induction false} WriteAnnouncesPerLevel(p: Pool, i: nat, t: Task)
    requires i < |p.chans|
    ensures var r := Written(p, i, t);
            p.notices <= r.notices <= p.notices + Rank(r.level) - Rank(p.level)
    decreases 2 - Rank(p.level), 0, 2
  {
    var c := p.chans[i];
    if c.open && |c.queue| < c.capacity {
      UpdateAnnouncesPerLevel(Pushed(p, i, t));
    }
  }

  lemma {:induction false} UpdateAnnouncesPerLevel(p: Pool)
    ensures var r := Update(p);
            p.notices <= r.notices <= p.notices + Rank(r.level) - Rank(p.level)
    decreases 2 - Rank(p.level), 0, 1
  {
    if p.limit > 0 {
      if p.bytes > PauseAbove(p.limit) {
        if p.level != Pause {
          FanOutAnnouncesPerLevel(p.(level := Pause, notices := p.notices + 1), Pause, 0);
        }
      } else if p.bytes > SlowAbove(p.limit) && p.level == Normal && !p.cooldown {
        FanOutAnnouncesPerLevel(p.(cooldown := true, level := SlowDown, notices := p.notices + 1), SlowDown, 0);
      }
    }
  }

  lemma {:induction false} FanOutAnnouncesPerLevel(p: Pool, l: Level, i: nat)
    requires i <= |p.chans|
    ensures var r := FanOut(p, l, i);
            p.notices <= r.notices <= p.notices + Rank(r.level) - Rank(p.level)
    decreases 2 - Rank(p.level), 1, |p.chans| - i
  {
    if i < |p.chans| {
      WriteAnnouncesPerLevel(p, i, Notice(l));
      FanOutAnnouncesPerLevel(Written(p, i, Notice(l)), l, i + 1);
    }
  }

  // ---------------------------------------------------------------- what the channels are told

  /** A write that leaves the level alone does nothing but queue its task, if it can. */
  lemma {:induction false} QuietWrite(p: Pool, i: nat, t: Task)
    requires i < |p.chans| && p.bytes >= 0 && Written(p, i, t).level == p.level
    ensures Written(p, i, t) == if Takes(p.chans[i]) then Pushed(p, i, t) else p
  {
  }

  predicate Takes(c: Chan) {
    c.open && |c.queue| < c.capacity
  }

  function Notified(c: Chan, l: Level): Chan {
    if Takes(c) then c.(queue := c.queue + [Notice(l)]) else c
  }

  lemma {:induction false} FanOutTells(p: Pool, l: Level, i: nat, k: nat)
    requires i <= |p.chans| && k < |p.chans| && p.bytes >= 0 && FanOut(p, l, i).level == p.level
    ensures FanOut(p, l, i).chans[k] == if k < i then p.chans[k] else Notified(p.chans[k], l)
    decreases |p.chans| - i
  {
    if i < |p.chans| {
      var q := Written(p, i, Notice(l));
      assert q.level == p.level;
      QuietWrite(p, i, Notice(l));
      FanOutTells(q, l, i + 1, k);
    }
  }

  /** An announcement that does not raise the level again puts one notice on every open channel with room. */
  lemma {:induction false} AnnouncementIsHeard(p: Pool, l: Level, k: nat)
    requires k < |p.chans| && p.bytes >= 0 && Announce(p, l).level == l
    ensures Announce(p, l).chans[k] == Notified(p.chans[k], l)
  {
    FanOutTells(p.(level := l, notices := p.notices + 1), l, 0, k);
  }

  /** The newest task of the channel's queue announces `l`. */
  predicate Hears(c: Chan, l: Level) {
    c.queue != [] && c.queue[|c.queue| - 1] == Notice(l)
  }

  /** Room for a notice and for the one it may trigger. */
  predicate Roomy(c: Chan) {
    c.open && |c.queue| + 2 <= c.capacity
  }

  /** How many channels from `i` up to `j` take a notice. */
  function TakersBetween(chans: seq<Chan>, i: nat, j: nat): nat
    requires i <= j <= |chans|
    decreases j - i
  {
    if i == j then 0 else (if Takes(chans[i]) then 1 else 0) + TakersBetween(chans, i + 1, j)
  }

  lemma {:induction false} TakersSame(a: seq<Chan>, b: seq<Chan>, i: nat, j: nat)
    requires i <= j <= |a| == |b| && forall k :: i <= k < j ==> a[k] == b[k]
    ensures TakersBetween(a, i, j) == TakersBetween(b, i, j)
    decreases j - i
  {
    if i < j { TakersSame(a, b, i + 1, j); }
  }

  /** Announcing `l`, the next level up is Pause: SlowDown has been announced, or its cooldown is running. */
  predicate PauseIsNext(p: Pool, l: Level) {
    p.level == l && (l == SlowDown || (l == Normal && p.cooldown))
  }

  /** The write that crosses into Pause: channel `j` hears of it first, and the rest of the outer announcement follows. */
  lemma {:induction false} Crossing(p: Pool, l: Level, i: nat, j: nat)
    requires i < |p.chans| && j < |p.chans| && p.limit > 0 && 0 <= p.bytes && p.level == l != Pause
    requires Takes(p.chans[i]) && p.bytes + NOTICE_SIZE > PauseAbove(p.limit)
    requires if j < i then Takes(p.chans[j]) else Roomy(p.chans[j])
    ensures var r := FanOut(p, l, i);
            r.level == Pause && Hears(r.chans[j], if j <= i then Pause else l)
  {
    var pushed := Pushed(p, i, Notice(l));
    var q := Announce(pushed, Pause);
    assert Written(p, i, Notice(l)) == q;
    AnnouncementIsHeard(pushed, Pause, j);
    assert q.level == Pause && q.bytes >= 0;
    FanOutTells(q, l, i + 1, j);
  }

  lemma {:induction false} QuietNotice(p: Pool, l: Level, i: nat) returns (q: Pool)
    requires i < |p.chans| && p.limit > 0 && 0 <= p.bytes && p.level == l
    requires PauseIsNext(p, l) || p.bytes + NOTICE_SIZE <= SlowAbove(p.limit)
    requires Takes(p.chans[i]) ==> p.bytes + NOTICE_SIZE <= PauseAbove(p.limit)
    ensures q == if Takes(p.chans[i]) then Pushed(p, i, Notice(l)) else p
    ensures FanOut(p, l, i) == FanOut(q, l, i + 1)
  {
    q := if Takes(p.chans[i]) then Pushed(p, i, Notice(l)) else p;
    if Takes(p.chans[i]) {
      assert Update(q) == q;
    }
    assert Written(p, i, Notice(l)) == q;
  }

  /** A channel that already has the notice, and room for another, ends with the current level. */
  lemma {:induction false} ReachedHears(p: Pool, l: Level, i: nat, j: nat)
    requires j < i <= |p.chans| && p.limit > 0 && 0 <= p.bytes <= PauseAbove(p.limit) && PauseIsNext(p, l)
    requires Takes(p.chans[j]) && Hears(p.chans[j], l)
    ensures var r := FanOut(p, l, i); Hears(r.chans[j], r.level)
    decreases |p.chans| - i
  {
    if i < |p.chans| {
      if Takes(p.chans[i]) && p.bytes + NOTICE_SIZE > PauseAbove(p.limit) {
        Crossing(p, l, i, j);
      } else {
        var q := QuietNotice(p, l, i);
        ReachedHears(q, l, i + 1, j);
      }
    }
  }

  lemma {:induction false} AheadHearsIff(p: Pool, l: Level, i: nat, j: nat)
    requires i <= j < |p.chans| && p.limit > 0 && 0 <= p.bytes <= PauseAbove(p.limit) && PauseIsNext(p, l)
    requires Roomy(p.chans[j])
    ensures var r := FanOut(p, l, i);
            Hears(r.chans[j], r.level) <==> p.bytes + NOTICE_SIZE * TakersBetween(p.chans, i, j) <= PauseAbove(p.limit)
    decreases |p.chans| - i
  {
    if Takes(p.chans[i]) && p.bytes + NOTICE_SIZE > PauseAbove(p.limit) {
      Crossing(p, l, i, j);
    } else {
      var q := QuietNotice(p, l, i);
      if i == j {
        ReachedHears(q, l, i + 1, j);
      } else {
        AheadHearsIff(q, l, i + 1, j);
        TakersSame(p.chans, q.chans, i + 1, j);
      }
    }
  }

  /**
    A notice can be overtaken: the notices themselves may push the queues into Pause, and the channels that the
    outer announcement had not reached yet then hear Pause first and the lower level last. For a slow-down
    notice, and for a recovery notice while the cooldown is running: an open channel with room for two notices
    ends with the current level as its newest one exactly when the notices put on the channels before it still
    fit under the pause threshold.
  */
  lemma {:induction false} NoticeIsHeardIff(p: Pool, l: Level, r: Pool, j: nat)
    requires p.limit > 0 && 0 <= p.bytes <= PauseAbove(p.limit) && PauseIsNext(p, l)
    requires j < |p.chans| && Roomy(p.chans[j]) && r == FanOut(p, l, 0)
    ensures Hears(r.chans[j], r.level) <==> p.bytes + NOTICE_SIZE * TakersBetween(p.chans, 0, j) <= PauseAbove(p.limit)
  {
    AheadHearsIff(p, l, 0, j);
  }

  /** A recovery notice outside the cooldown is overtaken as well: limit 30, 12 bytes queued, three empty channels. */
  lemma {:induction false} RecoveryCanBeOvertaken(p: Pool)
    requires p.limit == 30 && p.bytes == 12 && p.level == Normal && |p.chans| == 3
    requires forall k :: 0 <= k < 3 ==> p.chans[k] == Chan(true, 10, [])
    ensures var r := FanOut(p, Normal, 0); r.level == Pause && Hears(r.chans[2], Normal)
  {
    var q := QuietNotice(p, Normal, 0);
    assert q.chans[1] == p.chans[1] && q.chans[2] == p.chans[2];
    Crossing(q, Normal, 1, 2);
  }

  // ---------------------------------------------------------------- when the level changes

  /**
    A queued write raises the level exactly when it takes the queues above 95% of the limit outside Pause, or
    above 80% in Normal while no cooldown is running; above 95% it always ends in Pause.
  */
  lemma {:induction false} WriteRaisesIff(p: Pool, i: nat, t: Task)
    requires i < |p.chans| && p.chans[i].open && |p.chans[i].queue| < p.chans[i].capacity && p.bytes >= 0
    ensures var r := Written(p, i, t); var bytes := p.bytes + t.size;
            && (r.level != p.level <==>
                  p.limit > 0 && ((p.level != Pause && bytes > p.limit * 95 / 100) ||
                                  (p.level == Normal && !p.cooldown && bytes > p.limit * 8 / 10)))
            && (p.limit > 0 && bytes > p.limit * 95 / 100 ==> r.level == Pause)
            && (r.level == p.level ==> r.bytes == bytes && r.cooldown == p.cooldown && r.notices == p.notices)
            && (r.level != p.level && bytes <= p.limit * 95 / 100 ==> r.cooldown)
  {
    var q := Pushed(p, i, t);
    assert Written(p, i, t) == Update(q);
    if p.limit > 0 && q.bytes <= PauseAbove(p.limit) && q.bytes > SlowAbove(p.limit) && p.level == Normal && !p.cooldown {
      assert Update(q) == Announce(q.(cooldown := true), SlowDown);
      FanOutKeepsCooldown(q.(cooldown := true, level := SlowDown, notices := q.notices + 1), SlowDown, 0);
    }
  }

  lemma {:induction false} WrittenKeepsCooldown(p: Pool, i: nat, t: Task)
    requires i < |p.chans| && p.cooldown
    ensures Written(p, i, t).cooldown
    decreases 2 - Rank(p.level), 0, 2
  {
    var q := Pushed(p, i, t);
    assert Takes(p.chans[i]) ==> Written(p, i, t) == Update(q);
    if Takes(p.chans[i]) && p.limit > 0 && q.bytes > PauseAbove(p.limit) && p.level != Pause {
      assert Update(q) == Announce(q, Pause);
      FanOutKeepsCooldown(q.(level := Pause, notices := q.notices + 1), Pause, 0);
    }
  }

  lemma {:induction false} FanOutKeepsCooldown(p: Pool, l: Level, i: nat)
    requires i <= |p.chans| && p.cooldown
    ensures FanOut(p, l, i).cooldown
    decreases 2 - Rank(p.level), 1, |p.chans| - i
  {
    if i < |p.chans| {
      WrittenKeepsCooldown(p, i, Notice(l));
      FanOutKeepsCooldown(Written(p, i, Notice(l)), l, i + 1);
    }
  }

  /** With room for one more notice per channel below the next threshold, an announcement does not raise the level. */
  lemma {:induction false} FanOutStays(p: Pool, l: Level, i: nat)
    requires i <= |p.chans| && p.limit > 0 && p.bytes >= 0 && p.level != Pause
    requires p.bytes + 9 * (|p.chans| - i) <= p.limit * 95 / 100
    requires p.level == Normal && !p.cooldown ==> p.bytes + 9 * (|p.chans| - i) <= p.limit * 8 / 10
    ensures FanOut(p, l, i).level == p.level
    decreases |p.chans| - i
  {
    if i < |p.chans| {
      var pushed := Pushed(p, i, Notice(l));
      assert Update(pushed) == pushed;
      var q := if Takes(p.chans[i]) then pushed else p;
      assert Written(p, i, Notice(l)) == q;
      FanOutStays(q, l, i + 1);
    }
  }

  /** The level that a removal leaving `bytes` announces, or the level there was. */
  function Fallen(limit: int, level: Level, bytes: int): Level {
    if limit <= 0 then level
    else if level == Pause then if bytes < limit * 3 / 10 then Normal else if bytes < limit * 9 / 10 then SlowDown else Pause
    else if level == SlowDown && bytes < limit * 7 / 10 then Normal
    else level
  }

  /**
    A removal lowers the level exactly when it leaves less than 90% in Pause, to Normal already when it leaves
    less than 30%, or less than 70% in SlowDown. What it announces stands, unless its own notices take the
    queues above the next threshold. Nothing else changes but the count.
  */
  lemma {:induction false} RemovalLowersIff(p: Pool, size: nat)
    requires size <= p.bytes
    ensures var r := Remove(p, size); var bytes := p.bytes - size; var l := Fallen(p.limit, p.level, bytes);
            && (r.notices > p.notices <==> l != p.level)
            && (l == p.level ==> r == p.(bytes := bytes))
            && (bytes + 9 * |p.chans| <= p.limit * 8 / 10 ==> r.level == l)
            && (bytes + 9 * |p.chans| <= p.limit * 95 / 100 && (p.cooldown || l == SlowDown) ==> r.level == l)
  {
    var q := p.(bytes := p.bytes - size);
    var l := Fallen(p.limit, p.level, q.bytes);
    if l != p.level {
      assert Remove(p, size) == Announce(q, l);
      var s := q.(level := l, notices := q.notices + 1);
      FanOutAnnouncesPerLevel(s, l, 0);
      if q.bytes + 9 * |p.chans| <= p.limit * 95 / 100 && (l == SlowDown || p.cooldown || q.bytes + 9 * |p.chans| <= p.limit * 8 / 10) {
        FanOutStays(s, l, 0);
      }
    }
  }

  /** So a fall to Normal need not last: limit 30, SlowDown, twenty bytes left, one empty channel. */
  lemma {:induction false} RecoveryCanRelapse(p: Pool)
    requires p.limit == 30 && p.bytes == 21 && p.level == SlowDown && !p.cooldown && p.chans == [Chan(true, 10, [])]
    ensures Fallen(30, SlowDown, 20) == Normal && Remove(p, 1).level != Normal
  {
    var q := p.(bytes := 20, level := Normal, notices := p.notices + 1);
    WriteRaisesIff(q, 0, Notice(Normal));
    var r := Written(q, 0, Notice(Normal));
    assert Remove(p, 1) == FanOut(q, Normal, 0) == FanOut(r, Normal, 1) == r;
  }

  // ---------------------------------------------------------------- first in, first out

  /** The channel has kept its tasks in order and has only been given notices behind them. */
  ghost predicate Extends(c: Chan, d: Chan) {
    && d.open == c.open && d.capacity == c.capacity && c.queue <= d.queue
    && forall k :: |c.queue| <= k < |d.queue| ==> d.queue[k].notice.Some?
  }

  ghost predicate AllExtend(a: seq<Chan>, b: seq<Chan>) {
    |a| == |b| && forall k :: 0 <= k < |a| ==> Extends(a[k], b[k])
  }

  lemma {:induction false} ExtendsTrans(a: seq<Chan>, b: seq<Chan>, c: seq<Chan>)
    requires AllExtend(a, b) && AllExtend(b, c)
    ensures AllExtend(a, c)
  {
    forall k | 0 <= k < |a| ensures Extends(a[k], c[k]) {
      assert Extends(a[k], b[k]) && Extends(b[k], c[k]);
    }
  }

  lemma {:induction false} UpdateExtends(p: Pool)
    ensures AllExtend(p.chans, Update(p).chans)
    decreases 2 - Rank(p.level), 0, 1
  {
    if p.limit > 0 && p.bytes > PauseAbove(p.limit) && p.level != Pause {
      assert Update(p) == Announce(p, Pause);
      FanOutExtends(p.(level := Pause, notices := p.notices + 1), Pause, 0);
    } else if p.limit > 0 && p.bytes <= PauseAbove(p.limit) && p.bytes > SlowAbove(p.limit) && p.level == Normal && !p.cooldown {
      assert Update(p) == Announce(p.(cooldown := true), SlowDown);
      FanOutExtends(p.(cooldown := true, level := SlowDown, notices := p.notices + 1), SlowDown, 0);
    }
  }

  lemma {:induction false} FanOutExtends(p: Pool, l: Level, i: nat)
    requires i <= |p.chans|
    ensures AllExtend(p.chans, FanOut(p, l, i).chans)
    decreases 2 - Rank(p.level), 1, |p.chans| - i
  {
    if i < |p.chans| {
      var q := Written(p, i, Notice(l));
      if Takes(p.chans[i]) {
        var pushed := Pushed(p, i, Notice(l));
        assert q == Update(pushed);
        UpdateExtends(pushed);
        assert AllExtend(p.chans, pushed.chans);
        ExtendsTrans(p.chans, pushed.chans, q.chans);
      }
      FanOutExtends(q, l, i + 1);
      ExtendsTrans(p.chans, q.chans, FanOut(q, l, i + 1).chans);
    }
  }

  /**
    A write puts its task behind everything the channel has queued, if the channel is open and has room, and
    nothing into any other queue; a full or closed channel takes nothing. Behind that come only notices.
  */
  lemma {:induction false} WriteIsLast(p: Pool, i: nat, t: Task)
    requires i < |p.chans| && p.bytes >= 0
    ensures var c := p.chans[i];
            if c.open && |c.queue| < c.capacity then AllExtend(p.chans[i := c.(queue := c.queue + [t])], Written(p, i, t).chans)
            else Written(p, i, t) == p
  {
    if Takes(p.chans[i]) {
      assert Written(p, i, t) == Update(Pushed(p, i, t));
      UpdateExtends(Pushed(p, i, t));
    }
  }

  /** A write loop takes the oldest task, and what remains keeps its order. */
  lemma {:induction false} TakeIsFirst(p: Pool, i: nat)
    requires i < |p.chans| && p.chans[i].queue != []
    ensures var c := p.chans[i]; AllExtend(p.chans[i := c.(queue := c.queue[1..])], TakeFrom(p, i).chans)
  {
    var c := p.chans[i];
    var q := p.(chans := p.chans[i := c.(queue := c.queue[1..])]);
    if c.queue[0].size > 0 {
      var bytes := Clamp(q.bytes - c.queue[0].size);
      var l := Fallen(q.limit, q.level, bytes);
      if l != q.level {
        assert Remove(q, c.queue[0].size) == Announce(q.(bytes := bytes), l);
        FanOutExtends(q.(bytes := bytes, level := l, notices := q.notices + 1), l, 0);
      }
    }
  }

  // ---------------------------------------------------------------- tiny limits

  lemma {:induction false} RunAppend(p: Pool, actions: seq<Action>, a: Action)
    ensures Run(p, actions + [a]) == Apply(Run(p, actions), a)
    decreases |actions|
  {
    if actions == [] {
      assert (actions + [a])[1..] == [];
    } else {
      assert (actions + [a])[1..] == actions[1..] + [a];
      RunAppend(Apply(p, actions[0]), actions[1..], a);
    }
  }

  lemma {:induction false} ReachesNext(limit: int, p: Pool, a: Action, q: Pool)
    requires Reaches(limit, p) && Apply(p, a) == q
    ensures Reaches(limit, q)
  {
    var actions :| Run(Fresh(limit), actions) == p;
    RunAppend(Fresh(limit), actions, a);
  }

  /** With its only channel closed or full, an announcement changes the level and nothing else. */
  lemma {:induction false} Unannounced(p: Pool, l: Level)
    requires |p.chans| == 1 && !Takes(p.chans[0]) && p.bytes >= 0
    ensures Announce(p, l) == p.(level := l, notices := p.notices + 1)
  {
    var q := p.(level := l, notices := p.notices + 1);
    assert Written(q, 0, Notice(l)) == q;
    assert FanOut(q, l, 0) == FanOut(q, l, 1) == q;
  }

  /** One five-byte task in a one-slot queue that is closed afterwards: Pause, with nowhere to announce it. */
  lemma {:induction false} PausedAndClosed(limit: int) returns (p: Pool)
    requires 1 <= limit <= 3
    ensures Reaches(limit, p) && p == Pool(limit, 5, Pause, false, [Chan(false, 1, [Task(5, None)])], 1, 5)
  {
    assert Run(Fresh(limit), []) == Fresh(limit);
    var vacant := Fresh(limit).(chans := [Chan(true, 1, [])]);
    ReachesNext(limit, Fresh(limit), OpenChannel(1), vacant);
    var after := Pool(limit, 5, Pause, false, [Chan(true, 1, [Task(5, None)])], 1, 5);
    var pushed := Pushed(vacant, 0, Task(5, None));
    assert [] + [Task(5, None)] == [Task(5, None)];
    assert pushed.chans == after.chans;
    Unannounced(pushed, Pause);
    assert Written(vacant, 0, Task(5, None)) == Update(pushed) == Announce(pushed, Pause);
    ReachesNext(limit, vacant, Write(0, 5), after);
    p := Pool(limit, 5, Pause, false, [Chan(false, 1, [Task(5, None)])], 1, 5);
    ReachesNext(limit, after, CloseChannel(0), p);
  }

  /** The level can be left standing over empty queues exactly for the limits whose 30% rounds to nothing. */
  lemma {:induction false} ElevatedOverEmptyIff(limit: int)
    ensures (exists p :: Reaches(limit, p) && p.level != Normal && p.bytes == 0) <==> 1 <= limit <= 3
  {
    if 1 <= limit <= 3 {
      var p := PausedAndClosed(limit);
      var q := TakeFrom(p, 0);
      var drained := Pool(limit, 0, Pause, false, [Chan(false, 1, [])], 1, 5);
      assert p.chans[0].queue[1..] == [];
      assert p.chans[0 := p.chans[0].(queue := p.chans[0].queue[1..])] == drained.chans;
      Unannounced(drained, SlowDown);
      assert q == Remove(drained.(bytes := 5), 5);
      ReachesNext(limit, p, Take(0), q);
    } else {
      forall p | Reaches(limit, p) ensures p.level == Normal || p.bytes != 0 {
        LevelsFollowTheQueues(limit, p);
      }
    }
  }

  // ---------------------------------------------------------------- the server's counters, updated in place

  class ServerPool {
    const limit: int
    var bytes: int
    var level: Level
    var cooldown: bool
    var chans: seq<Chan>
    ghost var notices: nat
    ghost var enqueued: nat

    ghost function View(): Pool
      reads this
    {
      Pool(limit, bytes, level, cooldown, chans, notices, enqueued)
    }

    constructor (limit: int)
      ensures View() == Fresh(limit)
    {
      this.limit := limit;
      bytes, level, cooldown, chans, notices, enqueued := 0, Normal, false, [], 0, 0;
    }

    /** `full` is the queue-full error; a closed channel is not an error. */
    method AsyncWrite(i: nat, t: Task) returns (full: bool)
      requires i < |chans|
      modifies this
      ensures View() == Written(old(View()), i, t)
      ensures full == (old(chans)[i].open && |old(chans)[i].queue| >= old(chans)[i].capacity)
      decreases 2 - Rank(level), 0, 2
    {
      var c := chans[i];
      if !c.open {
        return false;
      }
      AddQueueBytes(t.size);
      if |c.queue| < c.capacity {
        chans := chans[i := c.(queue := c.queue + [t])];
        enqueued := enqueued + t.size;
        UpdateBackpressureState();
        return false;
      }
      RollbackQueueBytes(t.size);
      return true;
    }

    method AddQueueBytes(size: nat)
      modifies this`bytes
      ensures bytes == old(bytes) + size
    {
      bytes := bytes + size;
    }

    method RollbackQueueBytes(size: nat)
      modifies this`bytes
      ensures bytes == Clamp(old(bytes) - size)
    {
      bytes := bytes - size;
      if bytes < 0 {
        bytes := 0;
      }
    }

    method UpdateBackpressureState()
      modifies this
      ensures View() == Update(old(View()))
      decreases 2 - Rank(level), 0, 1
    {
      if limit <= 0 {
        return;
      }
      if bytes > limit * 95 / 100 {
        if level != Pause {
          BroadcastBackpressure(Pause);
        }
        return;
      }
      if bytes > limit * 8 / 10 && level == Normal && !cooldown {
        cooldown := true;
        BroadcastBackpressure(SlowDown);
      }
    }

    /** Stores the level and announces it; the notices go through the queues that are being measured. */
    method BroadcastBackpressure(l: Level)
      modifies this
      ensures View() == Announce(old(View()), l)
      decreases 2 - Rank(l), 2, 0
    {
      level := l;
      notices := notices + 1;
      ghost var start := View();
      var i := 0;
      while i < |chans|
        invariant i <= |chans| && Rank(level) >= Rank(l)
        invariant FanOut(View(), l, i) == FanOut(start, l, 0)
        decreases |start.chans| - i
        invariant |chans| == |start.chans|
      {
        var full := AsyncWrite(i, Notice(l));
        i := i + 1;
      }
    }

    method RemoveQueueBytes(size: nat)
      modifies this
      ensures View() == Remove(old(View()), size)
    {
      RollbackQueueBytes(size);
      if limit <= 0 {
        return;
      }
      if level == Pause && bytes < limit * 3 / 10 {
        BroadcastBackpressure(Normal);
      } else if level == Pause && bytes < limit * 9 / 10 {
        BroadcastBackpressure(SlowDown);
      } else if level == SlowDown && bytes < limit * 7 / 10 {
        BroadcastBackpressure(Normal);
      }
    }

    /** One turn of a channel's write loop, up to the socket write. */
    method TakeTask(i: nat) returns (task: Option<Task>)
      requires i < |chans|
      modifies this
      ensures View() == TakeFrom(old(View()), i)
      ensures task == if old(chans)[i].queue == [] then None else Some(old(chans)[i].queue[0])
    {
      var c := chans[i];
      if c.queue == [] {
        return None;
      }
      var t := c.queue[0];
      chans := chans[i := c.(queue := c.queue[1..])];
      if t.size > 0 {
        RemoveQueueBytes(t.size);
      }
      return Some(t);
    }
  }
}
