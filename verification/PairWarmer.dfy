/** The client's pair warmer: the list edited in place, one method per locked section, and the refresh that uses them. */
module PairWarmer {
  import opened Link
  import opened PairList
  import opened PairRefresh
  import opened Pieces

  class PairWarmer {
    var pairs: seq<HotPair>
    var primary: Option<string>
    const pairCount: int

    ghost function View(): Warmer
      reads this
    {
      Warmer(pairs, primary)
    }

    constructor (pairCount: int)
      ensures Sound(View()) && View() == Warmer([], None) && this.pairCount == pairCount
    {
      pairs, primary := [], None;
      this.pairCount := pairCount;
    }

    method EnsurePrimary()
      modifies this
      ensures View() == Ensure(old(View()))
    {
      if primary.Some? && IsReady(pairs, primary.value) {
        return;
      }
      for i := 0 to |pairs|
        invariant primary == old(primary) && pairs == old(pairs)
        invariant Readies(pairs) == Readies(pairs[i..])
      {
        assert pairs[i..][1..] == pairs[i + 1..];
        if pairs[i].state == Ready {
          primary := Some(pairs[i].key);
          return;
        }
      }
      primary := None;
    }

    /** The first Ready pair, when the primary cannot serve. */
    method ScanReady() returns (key: Option<string>)
      requires UniqueKeys(pairs) && (primary.Some? ==> !IsReady(pairs, primary.value))
      ensures key == FirstReady(pairs)
    {
      for i := 0 to |pairs|
        invariant Readies(pairs) == Readies(pairs[i..])
      {
        assert pairs[i..][1..] == pairs[i + 1..];
        if primary != Some(pairs[i].key) && pairs[i].state == Ready {
          return Some(pairs[i].key);
        }
        IndexOfIs(pairs, i);
        assert pairs[i].state != Ready;
      }
      return None;
    }

    /** Hands out the primary, or else the first Ready pair, and counts the reference. */
    method AcquirePrimary() returns (key: Option<string>)
      requires Weak(View())
      modifies this
      ensures Weak(View()) && (Elected(old(View())) ==> Elected(View()))
      ensures key == FirstReady(old(pairs)) && (key.Some? <==> Readies(old(pairs)) != [])
      ensures View() == if key.Some? then AddRef(old(View()), key.value, 1) else old(View())
    {
      FirstReadyIsReady(pairs);
      if primary.Some? && IsReady(pairs, primary.value) {
        ReadyMeansFirst(pairs, primary.value);
        key := primary;
      } else {
        key := ScanReady();
      }
      if key.Some? {
        AddRefKeeps(View(), key.value, 1);
        CountReference(key.value);
      }
    }

    method CountReference(key: string)
      modifies this`pairs
      ensures View() == AddRef(old(View()), key, 1)
    {
      var i := IndexOf(pairs, key);
      if i < |pairs| {
        pairs := pairs[i := pairs[i].(refs := pairs[i].refs + 1)];
      }
    }

    method RemovePair(key: string)
      requires WellFormed(View())
      modifies this
      ensures WellFormed(View()) && View() == Remove(old(View()), key)
    {
      ghost var ps := pairs;
      WithoutIs(ps, key);
      ghost var at := IndexOf(ps, key);
      var i := 0;
      while i < |pairs|
        invariant 0 <= i <= |pairs| && primary == old(primary)
        invariant if pairs == ps then i <= at else at < |ps| && i >= at && pairs == Without(ps, key)
        decreases |pairs| - i
      {
        if pairs[i].key == key {
          ListedAt(pairs, i);
          assert pairs == ps;
          pairs := pairs[..i] + pairs[i + 1..];
        } else {
          i := i + 1;
        }
      }
      if primary == Some(key) {
        primary := None;
      } else if primary.Some? {
        WithoutKeepsListed(ps, key, primary.value);
      }
    }

    method ReleasePair(key: string)
      requires WellFormed(View())
      modifies this
      ensures WellFormed(View()) && View() == Release(old(View()), key)
    {
      var i := IndexOf(pairs, key);
      if i < |pairs| {
        pairs := pairs[i := pairs[i].(refs := pairs[i].refs - 1)];
        RefsDoNotVote(old(pairs), pairs);
        if pairs[i].refs <= 0 && pairs[i].state == Draining {
          RemovePair(key);
          EnsurePrimary();
          FirstReadyIsReady(pairs);
        }
      }
    }

    /** Cuts one position out of the slice and forgets a primary that stood there. */
    method CutOut(i: nat, ghost p0: Option<string>)
      requires UniqueKeys(pairs) && i < |pairs| && primary == Settle(pairs, p0).primary
      modifies this
      ensures pairs == old(pairs)[..i] + old(pairs)[i + 1..] && UniqueKeys(pairs)
      ensures primary == Settle(pairs, p0).primary
    {
      var key := pairs[i].key;
      IndexOfIs(pairs, i);
      WithoutIs(pairs, key);
      if p0.Some? {
        if Listed(pairs, p0.value) {
          if p0.value != key { WithoutKeepsListed(pairs, key, p0.value); }
        } else {
          WithoutListsNoMore(pairs, key, p0.value);
        }
      }
      pairs := pairs[..i] + pairs[i + 1..];
      if primary == Some(key) {
        primary := None;
      }
    }

    /** Sends one position draining. */
    method MarkDraining(i: nat, ghost p0: Option<string>)
      requires UniqueKeys(pairs) && i < |pairs| && primary == Settle(pairs, p0).primary
      modifies this`pairs
      ensures pairs == old(pairs)[i := old(pairs)[i].(state := Draining)] && UniqueKeys(pairs)
      ensures primary == Settle(pairs, p0).primary
    {
      pairs := pairs[i := pairs[i].(state := Draining)];
      SameKeys(old(pairs), pairs);
    }

    /** Drains the pair at `i`, or cuts it out if nobody holds it; `next` is where the scan goes on. */
    method DrainAt(i: nat, ghost p0: Option<string>) returns (next: nat)
      requires UniqueKeys(pairs) && i < |pairs| && primary == Settle(pairs, p0).primary
      modifies this
      ensures pairs == old(pairs)[..i] + DrainOne(old(pairs)[i]) + old(pairs)[i + 1..] && UniqueKeys(pairs)
      ensures primary == Settle(pairs, p0).primary
      ensures next == i + |DrainOne(old(pairs)[i])|
    {
      if pairs[i].refs <= 0 {
        CutOut(i, p0);
        next := i;
      } else {
        MarkDraining(i, p0);
        next := i + 1;
      }
    }

    method InvalidateChannel(ch: Channel)
      requires WellFormed(View())
      modifies this
      ensures View() == Invalidate(old(View()), ch)
    {
      ghost var done, rest := [], pairs;
      var i := 0;
      while i < |pairs|
        invariant i == |done| && pairs == done + rest
        invariant Drained(old(pairs), ch) == done + Drained(rest, ch)
        invariant UniqueKeys(pairs) && primary == Settle(pairs, old(primary)).primary
        decreases |rest|
      {
        var pair := pairs[i];
        ghost var some := if pair.state == Closed || !pair.Touches(ch) then [pair] else DrainOne(pair);
        Seam(done, rest, some, Drained(rest[1..], ch));
        if pair.state != Closed && (pair.up == ch || pair.down == ch) {
          i := DrainAt(i, old(primary));
        } else {
          i := i + 1;
        }
        done, rest := done + some, rest[1..];
      }
      EnsurePrimary();
    }

    /** Ranges over the slice as it was, while removals shift the array behind it. */
    method PruneIdleDrainingPairs()
      requires WellFormed(View())
      modifies this
      ensures View() == Pruned(old(View()), PrunePass(old(pairs), old(pairs), 0))
    {
      var backing := pairs;
      var pruned := false;
      ghost var goal := PrunePass(pairs, pairs, 0);
      for i := 0 to |backing|
        invariant |backing| == |old(pairs)| && |pairs| <= |backing|
        invariant PrunePass(pairs, backing, i) == goal
        invariant UniqueKeys(pairs) && primary == Settle(pairs, old(primary)).primary
        invariant if pruned then |pairs| < |old(pairs)| else pairs == old(pairs)
      {
        var cut;
        backing, cut := PruneAt(backing, i, goal, old(primary));
        pruned := pruned || cut;
      }
      if pruned {
        EnsurePrimary();
      }
    }

    /** Looks at one slot of the old slice; a removal moves what is behind it one slot forward. */
    method PruneAt(backing: seq<HotPair>, i: nat, ghost goal: seq<HotPair>, ghost p0: Option<string>)
        returns (next: seq<HotPair>, cut: bool)
      requires i < |backing| && |pairs| <= |backing| && PrunePass(pairs, backing, i) == goal
      requires UniqueKeys(pairs) && primary == Settle(pairs, p0).primary
      modifies this
      ensures |next| == |backing| && |pairs| <= |next| && PrunePass(pairs, next, i + 1) == goal
      ensures UniqueKeys(pairs) && primary == Settle(pairs, p0).primary
      ensures if cut then |pairs| < |old(pairs)| else pairs == old(pairs)
    {
      var pair := backing[i];
      if pair.state != Draining || pair.refs > 0 || !Listed(pairs, pair.key) {
        return backing, false;
      }
      PassCuts(pairs, backing, i);
      CutOut(IndexOf(pairs, pair.key), p0);
      return pairs + backing[|pairs|..], true;
    }

    method FindReadyMatch(key: string, race: Pair) returns (head: Option<string>, spare: Option<string>)
      requires UniqueKeys(pairs)
      ensures head.Some? <==> HeadMatches(View(), key, race)
      ensures head.Some? ==> head == primary
      ensures head == None ==> spare == FirstMatch(pairs, key, race)
    {
      head, spare := None, None;
      for i := 0 to |pairs|
        invariant FirstMatch(pairs, key, race) == if spare.Some? then spare else FirstMatch(pairs[i..], key, race)
        invariant forall k :: 0 <= k < i && pairs[k].key != key && pairs[k].state == Ready && Pair(pairs[k].up, pairs[k].down) == race
                    ==> primary != Some(pairs[k].key)
      {
        var pair := pairs[i];
        assert pairs[i..][1..] == pairs[i + 1..];
        if pair.key != key && pair.state == Ready && pair.up == race.up && pair.down == race.down {
          if primary == Some(pair.key) {
            IndexOfIs(pairs, i);
            return primary, None;
          }
          if spare == None {
            spare := Some(pair.key);
          }
        }
      }
    }

    /** Keeps the first of several Ready pairs on the same channels. */
    method DeduplicatePairs()
      requires WellFormed(View())
      modifies this
      ensures View() == Deduplicate(old(View()))
    {
      ghost var done, rest := [], pairs;
      var seen: set<Pair> := {};
      var i := 0;
      while i < |pairs|
        invariant i == |done| && pairs == done + rest
        invariant Deduped(old(pairs), {}) == done + Deduped(rest, seen)
        invariant UniqueKeys(pairs) && primary == Settle(pairs, old(primary)).primary
        decreases |rest|
      {
        var pair := pairs[i];
        var twice := pair.state == Ready && Pair(pair.up, pair.down) in seen;
        ghost var some := if twice then DrainOne(pair) else [pair];
        if twice {
          i := DrainAt(i, old(primary));
        } else {
          if pair.state == Ready {
            seen := seen + {Pair(pair.up, pair.down)};
          }
          i := i + 1;
        }
        Seam(done, rest, some, Deduped(rest[1..], seen));
        done, rest := done + some, rest[1..];
      }
      EnsurePrimary();
    }

    /** Drains Ready pairs from the tail until `pairCount` are left or a tail is in use. */
    method TrimExcessPairs()
      requires WellFormed(View())
      modifies this
      ensures View() == Trim(old(View()), pairCount)
    {
      if pairCount <= 0 {
        return;
      }
      while true
        invariant UniqueKeys(pairs) && primary == Settle(pairs, old(primary)).primary
        invariant Trimmed(old(pairs), pairCount) == Trimmed(pairs, pairCount)
        decreases |pairs|
      {
        var readyCount := CountReady();
        if readyCount <= pairCount {
          break;
        }
        var tail := FindTail();
        if tail < 0 {
          break;
        }
        if pairs[tail].refs > 0 {
          MarkDraining(tail, old(primary));
          break;
        }
        CutOut(tail, old(primary));
      }
      assert pairs == Trimmed(old(pairs), pairCount);
      EnsurePrimary();
    }

    method FindTail() returns (tail: int)
      ensures tail == LastReady(pairs)
    {
      tail := |pairs| - 1;
      while tail >= 0 && pairs[tail].state != Ready
        invariant -1 <= tail < |pairs|
        invariant LastReady(pairs) == LastReady(pairs[..tail + 1])
      {
        assert pairs[..tail + 1][..tail] == pairs[..tail];
        tail := tail - 1;
      }
    }

    method CountReady() returns (n: nat)
      ensures n == |Readies(pairs)|
    {
      n := 0;
      for i := 0 to |pairs|
        invariant |Readies(pairs)| == n + |Readies(pairs[i..])|
      {
        assert pairs[i..][1..] == pairs[i + 1..];
        if pairs[i].state == Ready {
          n := n + 1;
        }
      }
    }

    /** `held`: the candidate has left the list, and somebody still holds it. */
    method DiscardCandidatePair(key: string, held: bool)
      requires WellFormed(View())
      modifies this
      ensures View() == DiscardCandidate(old(View()), key, held)
    {
      var i := IndexOf(pairs, key);
      if i == |pairs| && held {
        return;
      }
      if i < |pairs| && pairs[i].refs > 0 {
        pairs := pairs[i := pairs[i].(state := Draining)];
        return;
      }
      RemovePair(key);
      EnsurePrimary();
    }

    /** A pair that won its race joins; it serves at once if no pair does. */
    method BuildPair(won: Raced)
      modifies this
      ensures View() == Join(old(View()), won.key, won.race)
    {
      if !(primary.Some? && IsReady(pairs, primary.value)) {
        primary := Some(won.key);
      }
      pairs := pairs + [HotPair(won.key, won.race.up, won.race.down, Ready, 0)];
    }

    /** The Ready pairs other than the primary, in list order. */
    method CollectSpares() returns (spares: seq<HotPair>)
      ensures spares == Spares(View())
    {
      spares := [];
      for i := 0 to |pairs|
        invariant Spares(View()) == spares + NotKeyed(Readies(pairs[i..]), primary)
      {
        assert pairs[i..][0] == pairs[i] && pairs[i..][1..] == pairs[i + 1..];
        var head := [];
        if primary != Some(pairs[i].key) && pairs[i].state == Ready {
          head := [pairs[i]];
        }
        NextSpare(spares, pairs[i..], primary, head);
        spares := spares + head;
      }
    }

    /** Invalidates a channel of every spare that has lost one. */
    method HealthCheckSpares(alive: set<Channel>)
      requires Sound(View())
      modifies this
      ensures View() == HealthCheck(old(View()), Spares(old(View())), alive)
    {
      var spares := CollectSpares();
      for i := 0 to |spares|
        invariant Sound(View())
        invariant HealthCheck(old(View()), spares, alive) == HealthCheck(View(), spares[i..], alive)
      {
        var pair := spares[i];
        assert spares[i..][0] == pair && spares[i..][1..] == spares[i + 1..];
        InvalidateStage(View(), pair.up, Pair(pair.up, pair.down));
        InvalidateStage(View(), pair.down, Pair(pair.up, pair.down));
        if pair.up !in alive {
          InvalidateChannel(pair.up);
        } else if pair.down !in alive {
          InvalidateChannel(pair.down);
        }
      }
      assert spares[|spares|..] == [];
    }

    /** Builds pairs until `pairCount` are Ready or the races give out; `builds` are the outcomes of the races. */
    method TryBuildPairs(builds: seq<Raced>)
      modifies this
      ensures View() == TopUp(old(View()), pairCount, builds)
    {
      var readyCount := CountReady();
      var k := 0;
      while readyCount < pairCount && k < |builds|
        invariant 0 <= k <= |builds| && readyCount == |Readies(pairs)|
        invariant TopUp(old(View()), pairCount, builds) == TopUp(View(), pairCount, builds[k..])
      {
        assert builds[k..][0] == builds[k] && builds[k..][1..] == builds[k + 1..];
        ghost var joined := HotPair(builds[k].key, builds[k].race.up, builds[k].race.down, Ready, 0);
        ReadiesAppend(pairs, [joined]);
        assert [joined][1..] == [];
        BuildPair(builds[k]);
        readyCount := readyCount + 1;
        k := k + 1;
      }
    }

    /** The periodic refresh as one step; the outcomes of its races and the open channels are inputs. */
    method PeriodicRefresh(won: Option<Raced>, alive: set<Channel>, builds: seq<Raced>)
      requires Sound(View()) && FreshKeys(pairs, won, builds)
      modifies this
      ensures View() == Refreshed(old(View()), pairCount, PrunePass(old(pairs), old(pairs), 0), won, alive, builds)
      ensures won.Some? && pairCount > 0 && won.value.race.up in alive && won.value.race.down in alive ==>
                && Elected(View())
                && primary.Some? && IsReady(pairs, primary.value)
                && (var p := pairs[IndexOf(pairs, primary.value)]; Pair(p.up, p.down) == won.value.race)
                && DistinctChannels(Readies(pairs))
                && (var placed := Placed(Pruned(old(View()), PrunePass(old(pairs), old(pairs), 0)), won);
                    |Readies(pairs)| <= pairCount <==> Loose(Checked(placed, alive).pairs, pairCount))
                && (Idle(old(pairs)) ==> |Readies(pairs)| <= pairCount)
    {
      ghost var w := View();
      ghost var left := PrunePass(pairs, pairs, 0);
      PrunePassShrinks(pairs, pairs, 0);
      OpenStage(w, left, won, builds);
      PruneIdleDrainingPairs();
      if won.Some? {
        JoinElects(View(), won.value.key, won.value.race);
        BuildPair(won.value);
        PlaceCandidate(won.value);
      }
      AlignStage(View(), pairCount, alive, builds);
      DeduplicatePairs();
      HealthCheckSpares(alive);
      TrimExcessPairs();
      TryBuildPairs(builds);
      DeduplicatePairs();
      if won.Some? && pairCount > 0 && won.value.race.up in alive && won.value.race.down in alive {
        RefreshElectsTheWinner(w, pairCount, left, won.value, alive, builds);
      }
    }

    method PlaceCandidate(won: Raced)
      requires Elected(View())
      modifies this
      ensures View() == Decide(old(View()), won.key, won.race)
    {
      ElectedIsWeak(View());
      var first := primary;
      var head, spare := FindReadyMatch(won.key, won.race);
      if head.Some? {
        DiscardCandidatePair(won.key, false);
      } else if spare.Some? {
        PromoteKeepsWeak(View(), spare.value);
        PromoteToHead(spare.value);
        DiscardCandidatePair(won.key, false);
      } else if first != Some(won.key) {
        ReplaceHeadWithCandidate(won.key, first);
      }
    }

    method PromoteToHead(key: string)
      modifies this
      ensures View() == Promote(old(View()), key)
    {
      var idx := IndexOf(pairs, key);
      if idx == |pairs| {
        return;
      }
      var pair := pairs[idx];
      if idx > 0 {
        pairs := pairs[..idx] + pairs[idx + 1..];
        pairs := [pair] + pairs;
      } else {
        assert pairs == [pair] + (pairs[..0] + pairs[1..]);
      }
      primary := Some(key);
    }

    method ReplaceHeadWithCandidate(key: string, oldHead: Option<string>)
      modifies this
      ensures View() == Replace(old(View()), key, oldHead)
    {
      var i := IndexOf(pairs, key);
      if i == |pairs| {
        return;
      }
      var candidate := pairs[i];
      pairs := pairs[..i] + pairs[i + 1..];
      assert pairs == Without(old(pairs), key);
      primary := Some(key);
      if oldHead.Some? && oldHead.value != key && IsReady(pairs, oldHead.value) {
        var j := IndexOf(pairs, oldHead.value);
        var demote := pairs[j];
        ghost var rest := pairs;
        pairs := pairs[..j] + pairs[j + 1..];
        assert pairs == Without(rest, oldHead.value);
        pairs := [candidate, demote] + pairs;
      } else {
        pairs := [candidate] + pairs;
      }
    }
  }

  /** Working at the seam of a finished part and the rest. */
  lemma {:induction false} Seam(done: seq<HotPair>, rest: seq<HotPair>, some: seq<HotPair>, more: seq<HotPair>)
    requires rest != []
    ensures (done + rest)[..|done|] + some + (done + rest)[|done| + 1..] == (done + some) + rest[1..]
    ensures done + rest == (done + [rest[0]]) + rest[1..]
    ensures done + (some + more) == (done + some) + more
  {
  }

  lemma {:induction false} PassCuts(ps: seq<HotPair>, backing: seq<HotPair>, i: nat)
    requires |ps| <= |backing| && i < |backing| && IdleDraining(backing[i]) && Listed(ps, backing[i].key)
    ensures var at := IndexOf(ps, backing[i].key);
            var left := ps[..at] + ps[at + 1..];
            && |left + backing[|left|..]| == |backing|
            && PrunePass(ps, backing, i) == PrunePass(left, left + backing[|left|..], i + 1)
  {
  }

  lemma {:induction false} FirstSpare(ps: seq<HotPair>, primary: Option<string>, head: seq<HotPair>)
    requires ps != [] && head == if primary != Some(ps[0].key) && ps[0].state == Ready then [ps[0]] else []
    ensures NotKeyed(Readies(ps), primary) == head + NotKeyed(Readies(ps[1..]), primary)
  {
    if ps[0].state == Ready {
      assert Readies(ps)[1..] == Readies(ps[1..]);
    } else {
      assert Readies(ps) == Readies(ps[1..]);
    }
  }

  lemma {:induction false} NextSpare(spares: seq<HotPair>, ps: seq<HotPair>, primary: Option<string>, head: seq<HotPair>)
    requires ps != [] && head == if primary != Some(ps[0].key) && ps[0].state == Ready then [ps[0]] else []
    ensures spares + NotKeyed(Readies(ps), primary) == (spares + head) + NotKeyed(Readies(ps[1..]), primary)
  {
    FirstSpare(ps, primary, head);
    Regroup(spares, head, NotKeyed(Readies(ps[1..]), primary));
  }

  lemma {:induction false} WithoutKeepsListed(ps: seq<HotPair>, key: string, other: string)
    requires UniqueKeys(ps) && other != key && Listed(ps, other)
    ensures Listed(Without(ps, key), other)
  {
    var i, j := IndexOf(ps, key), IndexOf(ps, other);
    if i < |ps| {
      var r := Without(ps, key);
      assert r[if j < i then j else j - 1] == ps[j];
      ListedAt(r, if j < i then j else j - 1);
    }
  }
}
