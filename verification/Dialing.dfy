/**
  Dialing over hot pairs: a connection that was dialed over a pair holds one reference to it until it is
  unregistered. Dialing, unregistering and each locked section of the pair warmer are single steps.
*/
module Dialing {
  import opened Link
  import opened PairList
  import opened PairSections
  import PairWarmer

  /** What the pool's connection table says about a connection: its target and the pair it holds. */
  datatype Holder = Holder(target: string, pair: Option<string>)

  datatype Pool = Pool(conns: map<string, Holder>, warm: Refresh)
  {
    function Pairs(): seq<HotPair> {
      warm.w.pairs
    }

    /** One locked section of the pair warmer. */
    function Do(x: Section): Pool {
      this.(warm := Step(warm, x))
    }
  }

  /**
    unicast: the connect message went out over the pair's uplink. broadcast: at least one channel took the
    broadcast connect message.
  */
  datatype Action =
    | Dial(id: string, target: string, hot: bool, unicast: bool, broadcast: bool)
    | Unregister(id: string)
    | Prebind(id: string)
    | Warm(section: Section)

  function Unregistered(p: Pool, id: string): Pool {
    if id !in p.conns then p
    else
      var h := p.conns[id];
      var q := p.(conns := p.conns - {id});
      if h.target == PREBIND_TARGET || h.pair.None? then q else q.Do(Drop(h.pair.value))
  }

  /** A plain dial: broadcast the connect message, and forget the connection when no channel took it. */
  function Announced(p: Pool, id: string, target: string, broadcast: bool): Pool {
    var q := p.(conns := p.conns[id := Holder(target, None)]);
    if broadcast then q else Unregistered(q, id)
  }

  /** A hot dial that cannot be sent gives the pair back, invalidates its uplink and falls back to broadcast. */
  function Dialed(p: Pool, id: string, target: string, hot: bool, unicast: bool, broadcast: bool): Pool {
    var key := if hot then FirstReady(p.Pairs()) else None;
    if key.None? || !Listed(p.Pairs(), key.value) then Announced(p, id, target, broadcast)
    else
      var up := p.Pairs()[IndexOf(p.Pairs(), key.value)].up;
      if unicast then p.(conns := p.conns[id := Holder(target, key)]).Do(Acquire(key.value))
      else Announced(p.Do(Acquire(key.value)).Do(Drop(key.value)).Do(ChannelLost(up)), id, target, broadcast)
  }

  function Apply(p: Pool, a: Action): Pool {
    match a
    case Dial(id, target, hot, unicast, broadcast) => Dialed(p, id, target, hot, unicast, broadcast)
    case Unregister(id) => Unregistered(p, id)
    case Prebind(id) => p.(conns := p.conns[id := Holder(PREBIND_TARGET, None)])
    case Warm(x) => p.Do(x)
  }

  /** A dial uses a fresh connection ID; references are taken and dropped only by dialing and unregistering. */
  ghost predicate Allowed(p: Pool, a: Action) {
    match a
    case Dial(id, target, _, _, _) => id !in p.conns && target != PREBIND_TARGET
    case Unregister(_) => true
    case Prebind(id) => id !in p.conns
    case Warm(x) => !x.Acquire? && !x.Drop? && Enabled(p.warm, x)
  }

  ghost predicate ValidRun(p: Pool, actions: seq<Action>)
    decreases |actions|
  {
    actions == [] || (Allowed(p, actions[0]) && ValidRun(Apply(p, actions[0]), actions[1..]))
  }

  function Run(p: Pool, actions: seq<Action>): Pool
    decreases |actions|
  {
    if actions == [] then p else Run(Apply(p, actions[0]), actions[1..])
  }

  const Fresh := Pool(map[], Refresh(Warmer([], None), false))

  // ---------------------------------------------------------------- counting

  /** How many connections hold the pair. */
  function Holders(conns: map<string, Holder>, key: string): nat {
    |set id | id in conns && conns[id].pair == Some(key)|
  }

  lemma {:induction false} HoldersAdd(conns: map<string, Holder>, id: string, h: Holder, key: string)
    requires id !in conns
    ensures Holders(conns[id := h], key) == Holders(conns, key) + if h.pair == Some(key) then 1 else 0
  {
    var before := set i | i in conns && conns[i].pair == Some(key);
    var next := conns[id := h];
    var after := set i | i in next && next[i].pair == Some(key);
    assert after == if h.pair == Some(key) then before + {id} else before;
  }

  lemma {:induction false} HoldersDrop(conns: map<string, Holder>, id: string, key: string)
    requires id in conns
    ensures Holders(conns - {id}, key) == Holders(conns, key) - if conns[id].pair == Some(key) then 1 else 0
  {
    HoldersAdd(conns - {id}, id, conns[id], key);
    assert (conns - {id})[id := conns[id]] == conns;
  }

  /** The references of a listed pair. */
  function RefsOf(ps: seq<HotPair>, key: string): Option<int> {
    if Listed(ps, key) then Some(ps[IndexOf(ps, key)].refs) else None
  }

  /** A listed pair has as many references as holders; an unlisted one has no holders. */
  predicate Even(refs: Option<int>, holders: nat) {
    match refs
    case Some(n) => n == holders
    case None => holders == 0
  }

  ghost predicate Balanced(p: Pool) {
    forall key :: Even(RefsOf(p.Pairs(), key), Holders(p.conns, key))
  }

  /** Only prebind races are registered under the prebind target, and those hold no pair. */
  ghost predicate Inv(p: Pool) {
    && PrimaryInv(p.warm) && Balanced(p)
    && (forall id :: id in p.conns && p.conns[id].target == PREBIND_TARGET ==> p.conns[id].pair == None)
  }

  // ---------------------------------------------------------------- sections that take and drop no reference

  /** Pairs in use stay with their references; others stay or go. New ones have none. */
  predicate Keeps(before: Option<int>, after: Option<int>) {
    match before
    case Some(n) => after == before || (after.None? && n <= 0)
    case None => after.None? || after == Some(0)
  }

  lemma {:induction false} RefsOfMember(ps: seq<HotPair>, p: HotPair)
    requires UniqueKeys(ps) && p in ps
    ensures RefsOf(ps, p.key) == Some(p.refs)
  {
    var i :| 0 <= i < |ps| && ps[i] == p;
    IndexOfIs(ps, i);
  }

  lemma {:induction false} SurvivorRefs(a: seq<HotPair>, b: seq<HotPair>, key: string)
    requires Shrinks(a, b) && UniqueKeys(a) && Listed(b, key)
    ensures RefsOf(a, key) == RefsOf(b, key)
  {
    ShrinksMembers(a, b);
    var q := b[IndexOf(b, key)];
    assert q in b;
    var p :| p in a && Same(p, q);
    RefsOfMember(a, p);
  }

  lemma {:induction false} InUseSurvives(a: seq<HotPair>, b: seq<HotPair>, key: string)
    requires Shrinks(a, b) && UniqueKeys(a) && Listed(a, key) && RefsOf(a, key).value > 0
    ensures Listed(b, key)
  {
    ShrinksMembers(a, b);
    var p := a[IndexOf(a, key)];
    assert p in a;
    var q :| q in b && Same(p, q);
    var j :| 0 <= j < |b| && b[j] == q;
    ListedAt(b, j);
  }

  lemma {:induction false} ShrinksKeepsRefs(a: seq<HotPair>, b: seq<HotPair>, key: string)
    requires Shrinks(a, b) && UniqueKeys(a)
    ensures Keeps(RefsOf(a, key), RefsOf(b, key))
  {
    if Listed(b, key) {
      SurvivorRefs(a, b, key);
    } else if Listed(a, key) && RefsOf(a, key).value > 0 {
      InUseSurvives(a, b, key);
    }
  }

  /** Reordering the list keeps every reference count. */
  lemma {:induction false} ReorderKeepsRefs(a: seq<HotPair>, b: seq<HotPair>, key: string)
    requires UniqueKeys(a) && UniqueKeys(b) && forall p :: p in a <==> p in b
    ensures RefsOf(a, key) == RefsOf(b, key)
  {
    if Listed(a, key) {
      var p := a[IndexOf(a, key)];
      RefsOfMember(b, p);
    } else if Listed(b, key) {
      var p := b[IndexOf(b, key)];
      RefsOfMember(a, p);
    }
  }

  lemma {:induction false} PromoteKeepsRefs(w: Warmer, k: string, key: string)
    requires Weak(w)
    ensures RefsOf(Promote(w, k).pairs, key) == RefsOf(w.pairs, key)
  {
    PromoteKeepsWeak(w, k);
    if Listed(w.pairs, k) {
      WithoutMembers(w.pairs, k);
      ReorderKeepsRefs(w.pairs, Promote(w, k).pairs, key);
    }
  }

  lemma {:induction false} ReplaceKeepsRefs(w: Warmer, k: string, oldHead: Option<string>, key: string)
    requires Weak(w)
    ensures RefsOf(Replace(w, k, oldHead).pairs, key) == RefsOf(w.pairs, key)
  {
    if Listed(w.pairs, k) {
      ReplaceKeepsWeak(w, k, oldHead);
      ReplaceMembers(w, k, oldHead);
      var ps := Replace(w, k, oldHead).pairs;
      assert UniqueKeys(ps);
      ReorderKeepsRefs(w.pairs, ps, key);
    }
  }

  lemma {:induction false} DiscardKeepsRefs(w: Warmer, k: string, key: string)
    requires Weak(w) && NoneClosed(w.pairs)
    ensures Keeps(RefsOf(w.pairs, key), RefsOf(Discard(w, k).pairs, key))
  {
    var i := IndexOf(w.pairs, k);
    if i < |w.pairs| {
      DropShrinks(w.pairs, i);
      ShrinksKeepsRefs(w.pairs, Discard(w, k).pairs, key);
    }
  }

  lemma {:induction false} JoinKeepsRefs(w: Warmer, k: string, race: Pair, key: string)
    requires !Listed(w.pairs, k)
    ensures Keeps(RefsOf(w.pairs, key), RefsOf(Join(w, k, race).pairs, key))
  {
    var ps := Join(w, k, race).pairs;
    var i, j := IndexOf(w.pairs, key), IndexOf(ps, key);
    assert forall n :: 0 <= n < |w.pairs| ==> ps[n] == w.pairs[n];
    if i < |w.pairs| {
      assert j == i;
    } else if j < |ps| {
      assert j == |w.pairs|;
    }
  }

  lemma {:induction false} SectionKeepsRefs(s: Refresh, x: Section, key: string)
    requires PrimaryInv(s) && Enabled(s, x) && !x.Acquire? && !x.Drop?
    ensures Keeps(RefsOf(s.w.pairs, key), RefsOf(Step(s, x).w.pairs, key))
  {
    var ps := s.w.pairs;
    match x
    case ChannelLost(ch) =>
      DrainedShrinks(ps, ch);
      ShrinksKeepsRefs(ps, Drained(ps, ch), key);
    case Reelect =>
    case Prune(left) => ShrinksKeepsRefs(ps, left, key);
    case Raced(k, race) => JoinKeepsRefs(s.w, k, race, key);
    case Promoted(k) => PromoteKeepsRefs(s.w, k, key);
    case Replaced(k, oldHead) => ReplaceKeepsRefs(s.w, k, oldHead, key);
    case Discarded(k, held) => DiscardKeepsRefs(s.w, k, key);
    case Deduplicated =>
      DedupedShrinks(ps, {});
      ShrinksKeepsRefs(ps, Deduped(ps, {}), key);
    case TrimmedTo(n) =>
      if n > 0 {
        TrimmedShrinks(ps, n);
        ShrinksKeepsRefs(ps, Trimmed(ps, n), key);
      }
  }

  // ---------------------------------------------------------------- steps

  lemma {:induction false} AddRefRefs(w: Warmer, k: string, d: int, key: string)
    requires Listed(w.pairs, k)
    ensures RefsOf(AddRef(w, k, d).pairs, key) ==
            if key == k then Some(RefsOf(w.pairs, k).value + d) else RefsOf(w.pairs, key)
  {
    var ps, qs := w.pairs, AddRef(w, k, d).pairs;
    assert forall n :: 0 <= n < |ps| ==> qs[n].key == ps[n].key;
    assert IndexOf(qs, key) == IndexOf(ps, key);
  }

  lemma {:induction false} ReleaseRefs(w: Warmer, k: string, key: string)
    requires UniqueKeys(w.pairs) && Listed(w.pairs, k)
    ensures key != k ==> RefsOf(Release(w, k).pairs, key) == RefsOf(w.pairs, key)
    ensures var after := RefsOf(Release(w, k).pairs, k);
            after == Some(RefsOf(w.pairs, k).value - 1) || (after.None? && RefsOf(w.pairs, k).value - 1 <= 0)
  {
    AddRefRefs(w, k, -1, key);
    AddRefRefs(w, k, -1, k);
    var v := AddRef(w, k, -1);
    assert UniqueKeys(v.pairs);
    WithoutIs(v.pairs, k);
    if key != k {
      WithoutKeepsOthers(v.pairs, k, key);
    }
  }

  lemma {:induction false} WithoutKeepsOthers(ps: seq<HotPair>, k: string, key: string)
    requires UniqueKeys(ps) && key != k
    ensures RefsOf(Without(ps, k), key) == RefsOf(ps, key)
  {
    WithoutIs(ps, k);
    var i := IndexOf(ps, k);
    if i < |ps| {
      WithoutMembers(ps, k);
      var rest := Without(ps, k);
      if Listed(ps, key) {
        RefsOfMember(rest, ps[IndexOf(ps, key)]);
      } else if Listed(rest, key) {
        RefsOfMember(ps, rest[IndexOf(rest, key)]);
      }
    }
  }

  lemma {:induction false} AddHolder(p: Pool, id: string, h: Holder)
    requires Inv(p) && id !in p.conns && h.pair == None
    ensures Inv(p.(conns := p.conns[id := h]))
  {
    var q := p.(conns := p.conns[id := h]);
    forall key ensures Even(RefsOf(q.Pairs(), key), Holders(q.conns, key)) {
      HoldersAdd(p.conns, id, h, key);
      assert Even(RefsOf(p.Pairs(), key), Holders(p.conns, key));
    }
  }

  /** A connection that holds a pair has a listed pair to give back. */
  lemma {:induction false} HeldIsListed(p: Pool, id: string)
    requires Balanced(p) && id in p.conns && p.conns[id].pair.Some?
    ensures Listed(p.Pairs(), p.conns[id].pair.value)
    ensures Holders(p.conns, p.conns[id].pair.value) > 0
  {
    var k := p.conns[id].pair.value;
    HoldersDrop(p.conns, id, k);
    assert Even(RefsOf(p.Pairs(), k), Holders(p.conns, k));
  }

  lemma {:induction false} ReleaseBalances(p: Pool, id: string)
    requires PrimaryInv(p.warm) && Balanced(p) && id in p.conns && p.conns[id].pair.Some?
    ensures var q := p.(conns := p.conns - {id}).Do(Drop(p.conns[id].pair.value));
            PrimaryInv(q.warm) && Balanced(q)
  {
    var k := p.conns[id].pair.value;
    var q := p.(conns := p.conns - {id}).Do(Drop(k));
    HeldIsListed(p, id);
    SectionKeepsPrimary(p.warm, Drop(k));
    forall key ensures Even(RefsOf(q.Pairs(), key), Holders(q.conns, key)) {
      HoldersDrop(p.conns, id, key);
      ReleaseRefs(p.warm.w, k, key);
      assert Even(RefsOf(p.Pairs(), key), Holders(p.conns, key));
    }
  }

  lemma {:induction false} UnregisterKeeps(p: Pool, id: string)
    requires Inv(p)
    ensures Inv(Unregistered(p, id))
  {
    if id in p.conns {
      if p.conns[id].pair.Some? {
        ReleaseBalances(p, id);
      } else {
        var q := p.(conns := p.conns - {id});
        forall key ensures Even(RefsOf(q.Pairs(), key), Holders(q.conns, key)) {
          HoldersDrop(p.conns, id, key);
          assert Even(RefsOf(p.Pairs(), key), Holders(p.conns, key));
        }
      }
    }
  }

  lemma {:induction false} WarmKeeps(p: Pool, x: Section)
    requires Inv(p) && !x.Acquire? && !x.Drop? && Enabled(p.warm, x)
    ensures Inv(p.Do(x))
  {
    var q := p.Do(x);
    SectionKeepsPrimary(p.warm, x);
    forall key ensures Even(RefsOf(q.Pairs(), key), Holders(q.conns, key)) {
      SectionKeepsRefs(p.warm, x, key);
      assert Even(RefsOf(p.Pairs(), key), Holders(p.conns, key));
    }
  }

  lemma {:induction false} BroadcastKeeps(p: Pool, id: string, target: string, broadcast: bool)
    requires Inv(p) && id !in p.conns
    ensures Inv(Announced(p, id, target, broadcast))
  {
    AddHolder(p, id, Holder(target, None));
    UnregisterKeeps(p.(conns := p.conns[id := Holder(target, None)]), id);
  }

  /** Taking the first Ready pair for a new connection. */
  lemma {:induction false} HoldBalances(p: Pool, id: string, target: string, k: string)
    requires PrimaryInv(p.warm) && Balanced(p) && id !in p.conns && FirstReady(p.Pairs()) == Some(k)
    ensures var q := p.(conns := p.conns[id := Holder(target, Some(k))]).Do(Acquire(k));
            Listed(p.Pairs(), k) && PrimaryInv(q.warm) && Balanced(q)
  {
    var q := p.(conns := p.conns[id := Holder(target, Some(k))]).Do(Acquire(k));
    FirstReadyIsReady(p.Pairs());
    SectionKeepsPrimary(p.warm, Acquire(k));
    forall key ensures Even(RefsOf(q.Pairs(), key), Holders(q.conns, key)) {
      HoldersAdd(p.conns, id, Holder(target, Some(k)), key);
      AddRefRefs(p.warm.w, k, 1, key);
      assert Even(RefsOf(p.Pairs(), key), Holders(p.conns, key));
    }
  }

  lemma {:induction false} FailedDialKeeps(p: Pool, id: string, target: string, k: string, up: Channel)
    requires Inv(p) && id !in p.conns && target != PREBIND_TARGET && FirstReady(p.Pairs()) == Some(k)
    ensures Inv(p.Do(Acquire(k)).Do(Drop(k)).Do(ChannelLost(up)))
  {
    HoldBalances(p, id, target, k);
    var q := p.(conns := p.conns[id := Holder(target, Some(k))]).Do(Acquire(k));
    ReleaseBalances(q, id);
    assert q.conns - {id} == p.conns;
    var r := p.Do(Acquire(k)).Do(Drop(k));
    assert Inv(r);
    WarmKeeps(r, ChannelLost(up));
  }

  lemma {:induction false} DialKeeps(p: Pool, id: string, target: string, hot: bool, unicast: bool, broadcast: bool)
    requires Inv(p) && id !in p.conns && target != PREBIND_TARGET
    ensures Inv(Dialed(p, id, target, hot, unicast, broadcast))
  {
    var key := if hot then FirstReady(p.Pairs()) else None;
    if key.None? || !Listed(p.Pairs(), key.value) {
      BroadcastKeeps(p, id, target, broadcast);
    } else if unicast {
      HoldBalances(p, id, target, key.value);
    } else {
      var up := p.Pairs()[IndexOf(p.Pairs(), key.value)].up;
      FailedDialKeeps(p, id, target, key.value, up);
      BroadcastKeeps(p.Do(Acquire(key.value)).Do(Drop(key.value)).Do(ChannelLost(up)), id, target, broadcast);
    }
  }

  lemma {:induction false} StepKeeps(p: Pool, a: Action)
    requires Inv(p) && Allowed(p, a)
    ensures Inv(Apply(p, a))
  {
    match a
    case Dial(id, target, hot, unicast, broadcast) => DialKeeps(p, id, target, hot, unicast, broadcast);
    case Unregister(id) => UnregisterKeeps(p, id);
    case Prebind(id) => AddHolder(p, id, Holder(PREBIND_TARGET, None));
    case Warm(x) => WarmKeeps(p, x);
  }

  lemma {:induction false} RunKeeps(p: Pool, actions: seq<Action>)
    requires Inv(p) && ValidRun(p, actions)
    ensures Inv(Run(p, actions))
    decreases |actions|
  {
    if actions != [] {
      StepKeeps(p, actions[0]);
      RunKeeps(Apply(p, actions[0]), actions[1..]);
    }
  }

  // ---------------------------------------------------------------- main results

  /**
    In every run every listed pair has exactly as many references as connections that hold it, and a pair
    that some connection holds is still listed. So with no holders left, no pair is kept in use.
  */
  lemma {:induction false} ReferencesAreConserved(actions: seq<Action>, key: string)
    requires ValidRun(Fresh, actions)
    ensures var p := Run(Fresh, actions);
            && (Listed(p.Pairs(), key) ==> p.Pairs()[IndexOf(p.Pairs(), key)].refs == Holders(p.conns, key))
            && (Holders(p.conns, key) > 0 ==> Listed(p.Pairs(), key))
  {
    forall k ensures Even(RefsOf(Fresh.Pairs(), k), Holders(Fresh.conns, k)) {
    }
    RunKeeps(Fresh, actions);
    var p := Run(Fresh, actions);
    assert Even(RefsOf(p.Pairs(), key), Holders(p.conns, key));
  }

  /** Unregistering keeps the balance exactly unless it is a held pair under the prebind target, which it forgets. */
  lemma {:induction false} UnregisterBalancesIff(p: Pool, id: string)
    requires PrimaryInv(p.warm) && Balanced(p) && id in p.conns
    ensures Balanced(Unregistered(p, id)) <==> !(p.conns[id].target == PREBIND_TARGET && p.conns[id].pair.Some?)
  {
    var h := p.conns[id];
    if h.pair.None? {
      var q := Unregistered(p, id);
      forall key ensures Even(RefsOf(q.Pairs(), key), Holders(q.conns, key)) {
        HoldersDrop(p.conns, id, key);
        assert Even(RefsOf(p.Pairs(), key), Holders(p.conns, key));
      }
    } else if h.target != PREBIND_TARGET {
      ReleaseBalances(p, id);
    } else {
      HeldIsListed(p, id);
      HoldersDrop(p.conns, id, h.pair.value);
      var q := Unregistered(p, id);
      assert Even(RefsOf(p.Pairs(), h.pair.value), Holders(p.conns, h.pair.value));
      assert !Even(RefsOf(q.Pairs(), h.pair.value), Holders(q.conns, h.pair.value));
    }
  }

  /** So dialing the prebind target itself over a pair leaks a reference that nobody will give back. */
  lemma {:induction false} DialingThePrebindTargetLeaks(p: Pool, id: string, broadcast: bool)
    requires Inv(p) && id !in p.conns && FirstReady(p.Pairs()).Some?
    ensures !Balanced(Unregistered(Dialed(p, id, PREBIND_TARGET, true, true, broadcast), id))
  {
    var k := FirstReady(p.Pairs()).value;
    HoldBalances(p, id, PREBIND_TARGET, k);
    UnregisterBalancesIff(Dialed(p, id, PREBIND_TARGET, true, true, broadcast), id);
  }

  // ---------------------------------------------------------------- what one call leaves behind

  /**
    A dial leaves its connection in the table exactly if it was sent: over a Ready pair, or by a broadcast that
    some channel took. It then names the dialed target, and the pair exactly in the first case. No other
    connection is touched.
  */
  lemma {:induction false} DialRegistersIff(p: Pool, id: string, target: string, hot: bool, unicast: bool, broadcast: bool)
    requires UniqueKeys(p.Pairs()) && id !in p.conns
    ensures var q := Dialed(p, id, target, hot, unicast, broadcast);
            var over := hot && unicast && exists r :: r in p.Pairs() && r.state == Ready;
            && (id in q.conns <==> over || broadcast)
            && (id in q.conns ==> q.conns[id] == Holder(target, if over then FirstReady(p.Pairs()) else None))
            && q.conns - {id} == p.conns
  {
    FirstReadyIsReady(p.Pairs());
    ReadiesAreListed(p.Pairs());
    assert Readies(p.Pairs()) == [] || Readies(p.Pairs())[0] in p.Pairs();
    if r :| r in p.Pairs() && r.state == Ready {
      var i :| 0 <= i < |p.Pairs()| && p.Pairs()[i] == r;
      ReadiesAt(p.Pairs(), i);
    }
    assert p.conns - {id} == p.conns;
  }

  /**
    What a dial does to the pairs: one over a pair adds a reference to the first Ready one; one whose pair could
    not be sent to gives the reference back, and no pair on that uplink may be handed out any more.
  */
  lemma {:induction false} DialUsesPairs(p: Pool, id: string, target: string, unicast: bool, broadcast: bool, k: string)
    requires Inv(p) && id !in p.conns && FirstReady(p.Pairs()) == Some(k)
    ensures Listed(p.Pairs(), k)
    ensures var q := Dialed(p, id, target, true, unicast, broadcast); var pair := p.Pairs()[IndexOf(p.Pairs(), k)];
            if unicast then q.Pairs() == p.Pairs()[IndexOf(p.Pairs(), k) := pair.(refs := pair.refs + 1)]
            else (forall r :: r in q.Pairs() && r.state == Ready ==> r.up != pair.up && r.down != pair.up)
                 && Keeps(RefsOf(p.Pairs(), k), RefsOf(q.Pairs(), k))
    ensures Dialed(p, id, target, false, unicast, broadcast).warm == p.warm
  {
    FirstReadyIsReady(p.Pairs());
    if !unicast { GivingUpClears(p, k); }
  }

  lemma {:induction false} GivingUpClears(p: Pool, k: string)
    requires PrimaryInv(p.warm) && IsReady(p.Pairs(), k)
    ensures var up := p.Pairs()[IndexOf(p.Pairs(), k)].up;
            var q := p.Do(Acquire(k)).Do(Drop(k)).Do(ChannelLost(up));
            && (forall r :: r in q.Pairs() && r.state == Ready ==> r.up != up && r.down != up)
            && Keeps(RefsOf(p.Pairs(), k), RefsOf(q.Pairs(), k))
  {
    var up := p.Pairs()[IndexOf(p.Pairs(), k)].up;
    var held := p.Do(Acquire(k));
    SectionKeepsPrimary(p.warm, Acquire(k));
    SectionKeepsPrimary(held.warm, Drop(k));
    var back := held.Do(Drop(k));
    InvalidateLeaves(back.warm.w, up);
    GivenBack(p, k);
    SectionKeepsRefs(back.warm, ChannelLost(up), k);
  }

  /** Taking a Ready pair and giving it back changes no reference count. */
  lemma {:induction false} GivenBack(p: Pool, k: string)
    requires PrimaryInv(p.warm) && IsReady(p.Pairs(), k)
    ensures RefsOf(p.Do(Acquire(k)).Do(Drop(k)).Pairs(), k) == RefsOf(p.Pairs(), k)
  {
    var held := p.Do(Acquire(k)).warm.w;
    AddRefKeeps(p.warm.w, k, 1);
    AddRefKeeps(held, k, -1);
    AddRefRefs(p.warm.w, k, 1, k);
    AddRefRefs(held, k, -1, k);
  }

  /** Unregistering takes exactly its connection off the table, and one reference off the pair it held. */
  lemma {:induction false} UnregisterForgets(p: Pool, id: string)
    requires UniqueKeys(p.Pairs())
    ensures Unregistered(p, id).conns == p.conns - {id}
    ensures var q := Unregistered(p, id);
            if id in p.conns && p.conns[id].pair.Some? && p.conns[id].target != PREBIND_TARGET && Listed(p.Pairs(), p.conns[id].pair.value) then
              var k := p.conns[id].pair.value; var refs := RefsOf(p.Pairs(), k).value;
              RefsOf(q.Pairs(), k) == Some(refs - 1) || (RefsOf(q.Pairs(), k) == None && refs <= 1)
            else q.Pairs() == p.Pairs()
  {
    if id in p.conns && p.conns[id].pair.Some? && p.conns[id].target != PREBIND_TARGET && Listed(p.Pairs(), p.conns[id].pair.value) {
      ReleaseRefs(p.warm.w, p.conns[id].pair.value, "");
    }
    assert id !in p.conns ==> p.conns - {id} == p.conns;
  }

  // ---------------------------------------------------------------- the pool, updated in place

  class ClientPool {
    var conns: map<string, Holder>
    const warmer: PairWarmer.PairWarmer
    /** Whether a refresh has just placed a candidate that leaves nobody elected. */
    ghost var deciding: bool

    ghost function View(): Pool
      reads this, warmer
    {
      Pool(conns, Refresh(warmer.View(), deciding))
    }

    constructor (warmer: PairWarmer.PairWarmer)
      ensures this.warmer == warmer && conns == map[] && !deciding
    {
      conns, deciding := map[], false;
      this.warmer := warmer;
    }

    method ReleasePair(key: string)
      requires WellFormed(warmer.View())
      modifies this`deciding, warmer
      ensures View() == old(View()).Do(Drop(key)) && WellFormed(warmer.View())
    {
      deciding := Step(View().warm, Drop(key)).deciding;
      warmer.ReleasePair(key);
    }

    method Unregister(id: string)
      requires WellFormed(warmer.View())
      modifies this, warmer
      ensures View() == Unregistered(old(View()), id)
    {
      if id !in conns {
        return;
      }
      var h := conns[id];
      conns := conns - {id};
      if h.target == PREBIND_TARGET {
        return;
      }
      if h.pair.Some? {
        ReleasePair(h.pair.value);
      }
    }

    method BroadcastConnect(id: string, target: string, broadcast: bool)
      requires WellFormed(warmer.View())
      modifies this, warmer
      ensures View() == Announced(old(View()), id, target, broadcast)
    {
      conns := conns[id := Holder(target, None)];
      if !broadcast {
        Unregister(id);
      }
    }

    /** The pair's uplink did not take the connect message. */
    method GiveUpPair(key: string, up: Channel)
      requires Weak(warmer.View())
      modifies this`deciding, warmer
      ensures View() == old(View()).Do(Drop(key)).Do(ChannelLost(up)) && WellFormed(warmer.View())
    {
      ReleaseKeeps(warmer.View(), key);
      ReleasePair(key);
      InvalidateIsSound(warmer.View(), up);
      deciding := false;
      warmer.InvalidateChannel(up);
    }

    /** Enters the connection with its pair, and gives the pair up again if it could not be sent to. */
    method SendOverPair(id: string, target: string, key: string, up: Channel, unicast: bool)
      requires Weak(warmer.View())
      modifies this, warmer
      ensures unicast ==> View() == old(View()).(conns := old(conns)[id := Holder(target, Some(key))])
      ensures !unicast ==> View() == old(View()).(conns := old(conns)[id := Holder(target, None)]).Do(Drop(key)).Do(ChannelLost(up))
      ensures !unicast ==> WellFormed(warmer.View())
    {
      conns := conns[id := Holder(target, Some(key))];
      if unicast {
        return;
      }
      conns := conns[id := Holder(target, None)];
      assert conns == old(conns)[id := Holder(target, None)];
      GiveUpPair(key, up);
    }

    /** unicast, broadcast: whether the sends find a channel. */
    method DialStream(id: string, target: string, hot: bool, unicast: bool, broadcast: bool)
      requires Weak(warmer.View()) && id !in conns
      modifies this, warmer
      ensures View() == Dialed(old(View()), id, target, hot, unicast, broadcast)
    {
      var pair: Option<string> := None;
      if hot {
        FirstReadyIsReady(warmer.pairs);
        pair := warmer.AcquirePrimary();
      }
      if pair.Some? {
        SamePlace(old(warmer.View()), pair.value);
        var up := warmer.pairs[IndexOf(warmer.pairs, pair.value)].up;
        SendOverPair(id, target, pair.value, up, unicast);
        if unicast {
          return;
        }
      }
      assert conns[id := Holder(target, None)] == old(conns)[id := Holder(target, None)];
      BroadcastConnect(id, target, broadcast);
    }
  }

  lemma {:induction false} InvalidateIsSound(w: Warmer, ch: Channel)
    requires Weak(w)
    ensures WellFormed(Invalidate(w, ch))
  {
    DrainedShrinks(w.pairs, ch);
    ShrinkElects(w, Drained(w.pairs, ch));
  }

  lemma {:induction false} SamePlace(w: Warmer, k: string)
    requires Listed(w.pairs, k)
    ensures var v := AddRef(w, k, 1);
            Listed(v.pairs, k) && IndexOf(v.pairs, k) == IndexOf(w.pairs, k)
            && v.pairs[IndexOf(v.pairs, k)].up == w.pairs[IndexOf(w.pairs, k)].up
  {
    var v := AddRef(w, k, 1);
    assert forall n :: 0 <= n < |w.pairs| ==> v.pairs[n].key == w.pairs[n].key;
    assert IndexOf(v.pairs, k) == IndexOf(w.pairs, k);
  }
}
