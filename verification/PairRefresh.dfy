/** The periodic refresh of the hot-pair list, stage by stage, and what it guarantees at the end. */
module PairRefresh {
  import opened Link
  import opened PairList

  /** A pair that won a prebind race: its fresh key and its channels. */
  datatype Raced = Raced(key: string, race: Pair)

  // ---------------------------------------------------------------- the stages

  /** The first Ready pair other than the candidate that uses the candidate's channels. */
  function FirstMatch(ps: seq<HotPair>, key: string, race: Pair): Option<string> {
    if ps == [] then None
    else if ps[0].key != key && ps[0].state == Ready && Pair(ps[0].up, ps[0].down) == race then Some(ps[0].key)
    else FirstMatch(ps[1..], key, race)
  }

  predicate HeadMatches(w: Warmer, key: string, race: Pair) {
    && w.primary.Some? && w.primary.value != key && IsReady(w.pairs, w.primary.value)
    && var p := w.pairs[IndexOf(w.pairs, w.primary.value)]; Pair(p.up, p.down) == race
  }

  /** Places a candidate that has just joined the list. */
  function Decide(w: Warmer, key: string, race: Pair): Warmer {
    var spare := FirstMatch(w.pairs, key, race);
    if HeadMatches(w, key, race) then Discard(w, key)
    else if spare.Some? then Discard(Promote(w, spare.value), key)
    else if w.primary == Some(key) then w
    else Replace(w, key, w.primary)
  }

  function Spares(w: Warmer): seq<HotPair> {
    NotKeyed(Readies(w.pairs), w.primary)
  }

  function NotKeyed(ps: seq<HotPair>, key: Option<string>): seq<HotPair> {
    if ps == [] then [] else (if key == Some(ps[0].key) then [] else [ps[0]]) + NotKeyed(ps[1..], key)
  }

  /** Invalidates a channel of every spare that has lost one. */
  function HealthCheck(w: Warmer, spares: seq<HotPair>, alive: set<Channel>): Warmer
    decreases |spares|
  {
    if spares == [] then w
    else
      var p := spares[0];
      var w' := if p.up !in alive then Invalidate(w, p.up)
                else if p.down !in alive then Invalidate(w, p.down)
                else w;
      HealthCheck(w', spares[1..], alive)
  }

  /** Races new pairs until `n` are Ready or a race fails. */
  function TopUp(w: Warmer, n: int, builds: seq<Raced>): Warmer
    decreases |builds|
  {
    if |Readies(w.pairs)| >= n || builds == [] then w
    else TopUp(Join(w, builds[0].key, builds[0].race), n, builds[1..])
  }

  function Pruned(w: Warmer, left: seq<HotPair>): Warmer {
    if left == w.pairs then w else Ensure(Settle(left, w.primary))
  }

  /** The list as trimming finds it: deduplicated, and without the spares that have lost a channel. */
  function Checked(w: Warmer, alive: set<Channel>): Warmer {
    var deduped := Deduplicate(w);
    HealthCheck(deduped, Spares(deduped), alive)
  }

  /** Deduplicates, checks the spares, trims to `n`, tops up and deduplicates once more. */
  function Aligned(w: Warmer, n: int, alive: set<Channel>, builds: seq<Raced>): Warmer {
    Deduplicate(TopUp(Trim(Checked(w, alive), n), n, builds))
  }

  function Placed(w: Warmer, won: Option<Raced>): Warmer {
    if won.Some? then Decide(Join(w, won.value.key, won.value.race), won.value.key, won.value.race) else w
  }

  /** `left` is what pruning leaves, `won` the outcome of the race, `builds` the pairs that topping up obtains. */
  function Refreshed(w: Warmer, n: int, left: seq<HotPair>, won: Option<Raced>, alive: set<Channel>, builds: seq<Raced>): Warmer {
    Aligned(Placed(Pruned(w, left), won), n, alive, builds)
  }

  // ---------------------------------------------------------------- what is promised

  ghost predicate HeadOn(w: Warmer, race: Pair) {
    Readies(w.pairs) != [] && Pair(Readies(w.pairs)[0].up, Readies(w.pairs)[0].down) == race
  }

  ghost predicate DistinctChannels(ps: seq<HotPair>) {
    forall i, j :: 0 <= i < j < |ps| ==> !ps[i].SameChannels(ps[j])
  }

  ghost predicate Idle(ps: seq<HotPair>) {
    forall p :: p in ps ==> p.refs <= 0
  }

  /** Beyond the first `n` Ready pairs, and the one that trimming may leave draining, none is in use. */
  ghost predicate Loose(ps: seq<HotPair>, n: int) {
    forall j :: 0 <= n < j < |Readies(ps)| ==> Readies(ps)[j].refs <= 0
  }

  /** Race keys are fresh: not in the list, and not repeated. */
  ghost predicate FreshKeys(ps: seq<HotPair>, won: Option<Raced>, builds: seq<Raced>) {
    && (won.Some? ==> !Listed(ps, won.value.key) && forall i :: 0 <= i < |builds| ==> builds[i].key != won.value.key)
    && (forall i :: 0 <= i < |builds| ==> !Listed(ps, builds[i].key))
    && (forall i, j :: 0 <= i < j < |builds| ==> builds[i].key != builds[j].key)
  }

  // ---------------------------------------------------------------- facts about single stages

  lemma {:induction false} ShrinksCount(a: seq<HotPair>, b: seq<HotPair>)
    requires Shrinks(a, b)
    ensures |Readies(b)| <= |Readies(a)|
  {
    if a == [] {
    } else if b != [] && Same(a[0], b[0]) && Shrinks(a[1..], b[1..]) {
      ShrinksCount(a[1..], b[1..]);
    } else {
      ShrinksCount(a[1..], b);
    }
  }

  /** The first Ready pair, if it is still Ready, is still the very same first pair. */
  lemma {:induction false} ShrinkKeepsHead(a: seq<HotPair>, b: seq<HotPair>)
    requires Shrinks(a, b) && UniqueKeys(a) && Readies(a) != [] && IsReady(b, Readies(a)[0].key)
    ensures Readies(b) != [] && Readies(b)[0] == Readies(a)[0]
  {
    if b != [] && Same(a[0], b[0]) && Shrinks(a[1..], b[1..]) {
      if a[0].state != Ready {
        ShrinkKeepsHead(a[1..], b[1..]);
      }
    } else {
      ShrinksMembers(a[1..], b);
      var q := b[IndexOf(b, Readies(a)[0].key)];
      assert q in b;
      var p :| p in a[1..] && Same(p, q);
      if a[0].state != Ready {
        ShrinkKeepsHead(a[1..], b);
      }
    }
  }

  lemma {:induction false} DedupedKeepsHead(ps: seq<HotPair>, seen: set<Pair>)
    requires UniqueKeys(ps) && Readies(ps) != [] && Pair(Readies(ps)[0].up, Readies(ps)[0].down) !in seen
    ensures IsReady(Deduped(ps, seen), Readies(ps)[0].key)
  {
    var d := Deduped(ps, seen);
    if ps[0].state != Ready {
      DedupedKeepsHead(ps[1..], seen);
      ReadiesAreListed(ps[1..]);
      assert Readies(ps)[0] in ps[1..];
      assert d[1..] == Deduped(ps[1..], seen);
    }
  }

  lemma {:induction false} DedupedDistinct(ps: seq<HotPair>, seen: set<Pair>)
    ensures DistinctChannels(Readies(Deduped(ps, seen)))
    ensures forall p :: p in Readies(Deduped(ps, seen)) ==> Pair(p.up, p.down) !in seen
  {
    if ps != [] {
      var p := ps[0];
      var d := Deduped(ps, seen);
      var rest := Deduped(ps[1..], if p.state == Ready then seen + {Pair(p.up, p.down)} else seen);
      DedupedDistinct(ps[1..], seen);
      DedupedDistinct(ps[1..], seen + {Pair(p.up, p.down)});
      if p.state == Ready && Pair(p.up, p.down) !in seen {
        assert d[1..] == rest && Readies(d) == [p] + Readies(rest);
        forall j | 1 <= j < |Readies(d)| ensures !Readies(d)[0].SameChannels(Readies(d)[j]) {
          assert Readies(d)[j] in Readies(rest);
        }
      } else if p.state == Ready && p.refs <= 0 {
        assert d == Deduped(ps[1..], seen);
      } else {
        assert d[1..] == Deduped(ps[1..], seen) && Readies(d) == Readies(d[1..]);
      }
    }
  }

  lemma {:induction false} DrainedKeepsReady(ps: seq<HotPair>, ch: Channel, key: string)
    requires UniqueKeys(ps) && IsReady(ps, key) && !ps[IndexOf(ps, key)].Touches(ch)
    ensures IsReady(Drained(ps, ch), key)
  {
    if ps[0].key == key {
      assert Drained(ps, ch)[0] == ps[0];
    } else {
      DrainedKeepsReady(ps[1..], ch, key);
      var rest := Drained(ps[1..], ch);
      assert Drained(ps, ch) == rest || (Drained(ps, ch)[1..] == rest && Drained(ps, ch)[0].key != key);
    }
  }

  lemma {:induction false} LastReadyIsLast(ps: seq<HotPair>)
    ensures LastReady(ps) < 0 <==> Readies(ps) == []
    ensures LastReady(ps) >= 0 ==>
              Readies(ps) == Readies(ps[..LastReady(ps)]) + [ps[LastReady(ps)]]
              && Readies(ps[..LastReady(ps)] + ps[LastReady(ps) + 1..]) == Readies(ps[..LastReady(ps)])
  {
    var i := LastReady(ps);
    if i < 0 {
      NoneReady(ps);
    } else {
      assert ps == ps[..i] + ([ps[i]] + ps[i + 1..]);
      ReadiesAppend(ps[..i], [ps[i]] + ps[i + 1..]);
      ReadiesAppend(ps[..i], ps[i + 1..]);
      NoneReady(ps[i + 1..]);
      assert ([ps[i]] + ps[i + 1..])[1..] == ps[i + 1..];
    }
  }

  lemma {:induction false} NoneReady(ps: seq<HotPair>)
    requires forall k :: 0 <= k < |ps| ==> ps[k].state != Ready
    ensures Readies(ps) == []
  {
    if ps != [] { NoneReady(ps[1..]); }
  }

  lemma {:induction false} DrainedTail(ps: seq<HotPair>)
    requires LastReady(ps) >= 0
    ensures var i := LastReady(ps); Readies(ps[i := ps[i].(state := Draining)]) == Readies(ps[..i])
  {
    var i := LastReady(ps);
    var q := ps[i].(state := Draining);
    assert ps[i := q] == ps[..i] + ([q] + ps[i + 1..]);
    ReadiesAppend(ps[..i], [q] + ps[i + 1..]);
    NoneReady([q] + ps[i + 1..]);
  }

  /** Draining or dropping the last Ready pair takes exactly that one away. */
  lemma {:induction false} OneFewer(ps: seq<HotPair>)
    requires LastReady(ps) >= 0
    ensures var i := LastReady(ps);
            && |Readies(ps)| > 0
            && Readies(ps[i := ps[i].(state := Draining)]) == Readies(ps)[..|Readies(ps)| - 1]
            && Readies(ps[..i] + ps[i + 1..]) == Readies(ps)[..|Readies(ps)| - 1]
  {
    LastReadyIsLast(ps);
    DrainedTail(ps);
  }

  lemma {:induction false} BusyTailIff(ps: seq<HotPair>, n: nat)
    requires LastReady(ps) >= 0 && |Readies(ps)| > n && ps[LastReady(ps)].refs > 0
    ensures Loose(ps, n) <==> |Readies(ps)| == n + 1
  {
    LastReadyIsLast(ps);
    assert Readies(ps)[|Readies(ps)| - 1] == ps[LastReady(ps)];
  }

  lemma {:induction false} IdleTailIff(ps: seq<HotPair>, n: nat, rest: seq<HotPair>)
    requires LastReady(ps) >= 0 && ps[LastReady(ps)].refs <= 0
    requires |Readies(ps)| > 0 && Readies(rest) == Readies(ps)[..|Readies(ps)| - 1]
    ensures Loose(ps, n) <==> Loose(rest, n)
  {
    LastReadyIsLast(ps);
    var all := Readies(ps);
    assert all[|all| - 1] == ps[LastReady(ps)];
    assert forall j :: 0 <= j < |all| - 1 ==> Readies(rest)[j] == all[j];
  }

  /**
    Trimming keeps a prefix of the Ready pairs, at least `n` of them; it gets down to `n` exactly when, apart
    from the first `n` and the one after them, no Ready pair is in use.
  */
  lemma {:induction false} TrimmedReadies(ps: seq<HotPair>, n: nat)
    ensures Readies(Trimmed(ps, n)) <= Readies(ps)
    ensures |Readies(ps)| >= n ==> |Readies(Trimmed(ps, n))| >= n
    ensures |Readies(Trimmed(ps, n))| <= n <==> Loose(ps, n)
    decreases |ps|
  {
    var i := LastReady(ps);
    if i < 0 {
      LastReadyIsLast(ps);
    } else if |Readies(ps)| > n {
      OneFewer(ps);
      if ps[i].refs > 0 {
        BusyTailIff(ps, n);
      } else {
        var rest := ps[..i] + ps[i + 1..];
        TrimmedReadies(rest, n);
        assert Trimmed(ps, n) == Trimmed(rest, n);
        assert Readies(rest) <= Readies(ps);
        IdleTailIff(ps, n, rest);
      }
    }
  }

  lemma {:induction false} IdleIsLoose(ps: seq<HotPair>, n: int)
    requires Idle(ps)
    ensures Loose(ps, n)
  {
    ReadiesAreListed(ps);
    forall j | 0 <= n < j < |Readies(ps)| ensures Readies(ps)[j].refs <= 0 {
      assert Readies(ps)[j] in Readies(ps);
    }
  }

  /** Shrinking the list keeps Ready channels distinct. */
  lemma {:induction false} ShrinksDistinct(a: seq<HotPair>, b: seq<HotPair>)
    requires Shrinks(a, b) && DistinctChannels(Readies(a))
    ensures DistinctChannels(Readies(b))
    ensures forall p :: p in Readies(b) ==> p in Readies(a)
  {
    if a != [] {
      var rest := Readies(a[1..]);
      assert DistinctChannels(rest) by { DistinctTail(a); }
      if b != [] && Same(a[0], b[0]) && Shrinks(a[1..], b[1..]) {
        ShrinksDistinct(a[1..], b[1..]);
        if b[0].state == Ready {
          DistinctCons(a[0], rest, Readies(b[1..]));
        }
      } else {
        ShrinksDistinct(a[1..], b);
      }
    }
  }

  lemma {:induction false} DistinctTail(a: seq<HotPair>)
    requires a != [] && DistinctChannels(Readies(a))
    ensures DistinctChannels(Readies(a[1..]))
  {
    var all, rest := Readies(a), Readies(a[1..]);
    if a[0].state == Ready {
      forall i, j | 0 <= i < j < |rest| ensures !rest[i].SameChannels(rest[j]) {
        assert all[i + 1] == rest[i] && all[j + 1] == rest[j];
      }
    } else {
      assert all == rest;
    }
  }

  lemma {:induction false} DistinctCons(p: HotPair, rest: seq<HotPair>, some: seq<HotPair>)
    requires DistinctChannels([p] + rest) && DistinctChannels(some) && forall q :: q in some ==> q in rest
    ensures DistinctChannels([p] + some)
  {
    forall j | 1 <= j < |[p] + some| ensures !([p] + some)[0].SameChannels(([p] + some)[j]) {
      var q := some[j - 1];
      assert q in rest;
      var k :| 0 <= k < |rest| && rest[k] == q;
      assert ([p] + rest)[k + 1] == q && ([p] + rest)[0] == p;
    }
    assert forall j :: 1 <= j < |[p] + some| ==> ([p] + some)[j] == some[j - 1];
  }

  /** Deduplicating a list without duplicates changes nothing. */
  lemma {:induction false} DedupedSame(ps: seq<HotPair>, seen: set<Pair>)
    requires DistinctChannels(Readies(ps)) && forall p :: p in Readies(ps) ==> Pair(p.up, p.down) !in seen
    ensures Deduped(ps, seen) == ps
  {
    if ps != [] {
      var p := ps[0];
      DistinctTail(ps);
      if p.state == Ready {
        assert Readies(ps)[0] == p && Readies(ps)[1..] == Readies(ps[1..]);
        forall q | q in Readies(ps[1..]) ensures Pair(q.up, q.down) !in seen + {Pair(p.up, p.down)} {
          var k :| 0 <= k < |Readies(ps[1..])| && Readies(ps[1..])[k] == q;
          assert Readies(ps)[k + 1] == q && q in Readies(ps);
        }
        DedupedSame(ps[1..], seen + {Pair(p.up, p.down)});
      } else {
        DedupedSame(ps[1..], seen);
      }
    }
  }

  // ---------------------------------------------------------------- where pairs come from

  /** Every pair of `b` is a pair of `a`, possibly sent draining: no new pair, no changed reference count. */
  ghost predicate From(a: seq<HotPair>, b: seq<HotPair>) {
    forall i :: 0 <= i < |b| ==> Listed(a, b[i].key) && Same(a[IndexOf(a, b[i].key)], b[i])
  }

  lemma {:induction false} FromTrans(a: seq<HotPair>, b: seq<HotPair>, c: seq<HotPair>)
    requires From(a, b) && From(b, c)
    ensures From(a, c)
  {
    forall i | 0 <= i < |c| ensures Listed(a, c[i].key) && Same(a[IndexOf(a, c[i].key)], c[i]) {
      var k := IndexOf(b, c[i].key);
      assert Listed(a, b[k].key) && Same(a[IndexOf(a, b[k].key)], b[k]);
    }
  }

  lemma {:induction false} FromMembers(a: seq<HotPair>, b: seq<HotPair>)
    requires UniqueKeys(a) && forall q :: q in b ==> q in a
    ensures From(a, b)
  {
    forall i | 0 <= i < |b| ensures Listed(a, b[i].key) && Same(a[IndexOf(a, b[i].key)], b[i]) {
      assert b[i] in b;
      FoundIs(a, b[i]);
    }
  }

  lemma {:induction false} FoundIs(ps: seq<HotPair>, p: HotPair)
    requires UniqueKeys(ps) && p in ps
    ensures Listed(ps, p.key) && ps[IndexOf(ps, p.key)] == p
  {
    var i :| 0 <= i < |ps| && ps[i] == p;
    IndexOfIs(ps, i);
  }

  lemma {:induction false} ShrinksFrom(a: seq<HotPair>, b: seq<HotPair>)
    requires UniqueKeys(a) && Shrinks(a, b)
    ensures From(a, b)
  {
    forall i | 0 <= i < |b| ensures Listed(a, b[i].key) && Same(a[IndexOf(a, b[i].key)], b[i]) {
      ShrinksMembers(a, b);
      assert b[i] in b;
      var p :| p in a && Same(p, b[i]);
      FoundIs(a, p);
    }
  }

  lemma {:induction false} FromKeeps(a: seq<HotPair>, b: seq<HotPair>, key: string)
    requires From(a, b)
    ensures Idle(a) ==> Idle(b)
    ensures !Listed(a, key) ==> !Listed(b, key)
  {
    if Idle(a) {
      forall q | q in b ensures q.refs <= 0 {
        var i :| 0 <= i < |b| && b[i] == q;
        assert a[IndexOf(a, b[i].key)] in a;
      }
    }
    if Listed(b, key) {
      assert Listed(a, b[IndexOf(b, key)].key);
    }
  }

  // ---------------------------------------------------------------- placing the candidate

  /** A list after a locked section that ends with an election. */
  ghost predicate Sound(w: Warmer) {
    Elected(w) && NoneClosed(w.pairs)
  }

  lemma {:induction false} FirstMatchIs(ps: seq<HotPair>, key: string, race: Pair)
    requires UniqueKeys(ps)
    ensures var m := FirstMatch(ps, key, race);
            m.Some? ==> m.value != key && IsReady(ps, m.value)
                        && var p := ps[IndexOf(ps, m.value)]; Pair(p.up, p.down) == race
  {
    if ps != [] {
      FirstMatchIs(ps[1..], key, race);
      var m := FirstMatch(ps[1..], key, race);
      if m.Some? { assert ps[1..][IndexOf(ps[1..], m.value)] == ps[1 + IndexOf(ps[1..], m.value)]; }
    }
  }

  lemma {:induction false} WithoutKeepsReady(ps: seq<HotPair>, key: string, other: string)
    requires UniqueKeys(ps) && other != key && IsReady(ps, other)
    ensures IsReady(Without(ps, key), other)
  {
    var i, j := IndexOf(ps, key), IndexOf(ps, other);
    if i < |ps| {
      var r := Without(ps, key);
      var k := if j < i then j else j - 1;
      assert r[k] == ps[j];
      WithoutIs(ps, key);
      IndexOfIs(r, k);
    }
  }

  /** Removing another, idle pair leaves the head where it is. */
  lemma {:induction false} DiscardKeepsHead(w: Warmer, key: string, race: Pair)
    requires Weak(w) && NoneClosed(w.pairs) && HeadOn(w, race) && Readies(w.pairs)[0].key != key
    requires Listed(w.pairs, key) && w.pairs[IndexOf(w.pairs, key)].refs <= 0
    ensures Weak(Discard(w, key)) && NoneClosed(Discard(w, key).pairs) && HeadOn(Discard(w, key), race)
    ensures From(w.pairs, Discard(w, key).pairs)
  {
    var i := IndexOf(w.pairs, key);
    var ps := Without(w.pairs, key);
    DropShrinks(w.pairs, i);
    DiscardKeepsWeak(w, key);
    ShrinksFrom(w.pairs, ps);
    ShrinkKeepsOpen(w.pairs, ps);
    FirstReadyIsReady(w.pairs);
    WithoutKeepsReady(w.pairs, key, Readies(w.pairs)[0].key);
    ShrinkKeepsHead(w.pairs, ps);
    assert Discard(w, key).pairs == ps;
  }

  lemma {:induction false} PromoteHeads(w: Warmer, key: string)
    requires Weak(w) && NoneClosed(w.pairs) && IsReady(w.pairs, key)
    ensures Weak(Promote(w, key)) && NoneClosed(Promote(w, key).pairs)
    ensures Readies(Promote(w, key).pairs) != [] && Readies(Promote(w, key).pairs)[0] == w.pairs[IndexOf(w.pairs, key)]
    ensures From(w.pairs, Promote(w, key).pairs)
  {
    PromoteKeepsWeak(w, key);
    WithoutKeepsOpen(w.pairs, key);
    FromMembers(w.pairs, Promote(w, key).pairs);
  }

  lemma {:induction false} ReplaceHeads(w: Warmer, key: string, oldHead: Option<string>)
    requires Weak(w) && NoneClosed(w.pairs) && IsReady(w.pairs, key)
    ensures Weak(Replace(w, key, oldHead)) && NoneClosed(Replace(w, key, oldHead).pairs)
    ensures var rs := Readies(Replace(w, key, oldHead).pairs); rs != [] && rs[0] == w.pairs[IndexOf(w.pairs, key)]
    ensures From(w.pairs, Replace(w, key, oldHead).pairs)
  {
    ReplaceKeepsWeak(w, key, oldHead);
    ReplaceKeepsOpen(w, key, oldHead);
    var rest := Without(w.pairs, key);
    assert forall p :: p in rest ==> p in w.pairs;
    if oldHead.Some? {
      assert forall p :: p in Without(rest, oldHead.value) ==> p in rest;
    }
    FromMembers(w.pairs, Replace(w, key, oldHead).pairs);
    assert Replace(w, key, oldHead).pairs[0] == w.pairs[IndexOf(w.pairs, key)];
  }

  lemma {:induction false} PromoteKeepsOthers(w: Warmer, spare: string, p: HotPair)
    requires UniqueKeys(w.pairs) && p in w.pairs && p.key != spare
    ensures p in Promote(w, spare).pairs
  {
    var i :| 0 <= i < |w.pairs| && w.pairs[i] == p;
    var s := IndexOf(w.pairs, spare);
    if s < |w.pairs| {
      assert p in w.pairs[..s] || p in w.pairs[s + 1..];
    }
  }

  /** A spare on the candidate's channels takes the head, and the candidate goes. */
  lemma {:induction false} SpareHeads(w: Warmer, key: string, spare: string, race: Pair)
    requires Weak(w) && NoneClosed(w.pairs) && IsReady(w.pairs, spare) && spare != key
    requires var p := w.pairs[IndexOf(w.pairs, spare)]; Pair(p.up, p.down) == race
    requires Listed(w.pairs, key) && w.pairs[IndexOf(w.pairs, key)].refs <= 0
    ensures var t := Discard(Promote(w, spare), key); Weak(t) && NoneClosed(t.pairs) && HeadOn(t, race) && From(w.pairs, t.pairs)
  {
    var p := Promote(w, spare);
    PromoteHeads(w, spare);
    PromoteKeepsOthers(w, spare, w.pairs[IndexOf(w.pairs, key)]);
    FoundIs(p.pairs, w.pairs[IndexOf(w.pairs, key)]);
    DiscardKeepsHead(p, key, race);
    FromTrans(w.pairs, p.pairs, Discard(p, key).pairs);
  }

  /** However the candidate compares with the list, a pair on its channels ends up at the head. */
  lemma {:induction false} DecideHeads(w: Warmer, key: string, race: Pair)
    requires Sound(w) && IsReady(w.pairs, key) && w.pairs[IndexOf(w.pairs, key)] == HotPair(key, race.up, race.down, Ready, 0)
    ensures var t := Decide(w, key, race); Weak(t) && NoneClosed(t.pairs) && HeadOn(t, race) && From(w.pairs, t.pairs)
  {
    ElectedIsWeak(w);
    ReadyMeansFirst(w.pairs, key);
    HeadIsPrimary(w);
    FirstMatchIs(w.pairs, key, race);
    var spare := FirstMatch(w.pairs, key, race);
    if HeadMatches(w, key, race) {
      DiscardKeepsHead(w, key, race);
    } else if spare.Some? {
      SpareHeads(w, key, spare.value, race);
    } else if w.primary == Some(key) {
      FromMembers(w.pairs, w.pairs);
    } else {
      ReplaceHeads(w, key, w.primary);
    }
  }

  lemma {:induction false} HeadIsPrimary(w: Warmer)
    requires Elected(w) && Readies(w.pairs) != []
    ensures w.primary == Some(Readies(w.pairs)[0].key) && IsReady(w.pairs, w.primary.value)
    ensures w.pairs[IndexOf(w.pairs, w.primary.value)] == Readies(w.pairs)[0]
  {
    FirstReadyIsReady(w.pairs);
    ReadiesAreListed(w.pairs);
    assert Readies(w.pairs)[0] in w.pairs;
    var f :| 0 <= f < |w.pairs| && w.pairs[f] == Readies(w.pairs)[0];
    IndexOfIs(w.pairs, f);
  }

  // ---------------------------------------------------------------- the later stages

  lemma {:induction false} DeduplicateStage(w: Warmer)
    requires Weak(w) && NoneClosed(w.pairs)
    ensures var t := Deduplicate(w);
            && Sound(t) && From(w.pairs, t.pairs) && DistinctChannels(Readies(t.pairs)) && |Readies(t.pairs)| <= |Readies(w.pairs)|
    ensures forall race :: HeadOn(w, race) ==> HeadOn(Deduplicate(w), race)
  {
    var ps := Deduped(w.pairs, {});
    DedupedShrinks(w.pairs, {});
    ShrinkElects(w, ps);
    ShrinkKeepsOpen(w.pairs, ps);
    ShrinksFrom(w.pairs, ps);
    ShrinksCount(w.pairs, ps);
    DedupedDistinct(w.pairs, {});
    if Readies(w.pairs) != [] {
      DedupedKeepsHead(w.pairs, {});
      ShrinkKeepsHead(w.pairs, ps);
    }
  }

  /** Losing a channel that the head does not use leaves the head alone. */
  lemma {:induction false} InvalidateStage(w: Warmer, ch: Channel, race: Pair)
    requires Sound(w)
    ensures Sound(Invalidate(w, ch)) && From(w.pairs, Invalidate(w, ch).pairs)
    ensures DistinctChannels(Readies(w.pairs)) ==> DistinctChannels(Readies(Invalidate(w, ch).pairs))
    ensures HeadOn(w, race) && ch != race.up && ch != race.down ==> HeadOn(Invalidate(w, ch), race)
  {
    var ps := Drained(w.pairs, ch);
    ElectedIsWeak(w);
    DrainedShrinks(w.pairs, ch);
    ShrinkElects(w, ps);
    ShrinkKeepsOpen(w.pairs, ps);
    ShrinksFrom(w.pairs, ps);
    if DistinctChannels(Readies(w.pairs)) {
      ShrinksDistinct(w.pairs, ps);
    }
    if HeadOn(w, race) && ch != race.up && ch != race.down {
      HeadIsPrimary(w);
      DrainedKeepsReady(w.pairs, ch, w.primary.value);
      ShrinkKeepsHead(w.pairs, ps);
    }
  }

  lemma {:induction false} HealthStage(w: Warmer, spares: seq<HotPair>, alive: set<Channel>)
    requires Sound(w)
    ensures var t := HealthCheck(w, spares, alive); Sound(t) && From(w.pairs, t.pairs)
    ensures DistinctChannels(Readies(w.pairs)) ==> DistinctChannels(Readies(HealthCheck(w, spares, alive).pairs))
    ensures forall race :: HeadOn(w, race) && race.up in alive && race.down in alive ==> HeadOn(HealthCheck(w, spares, alive), race)
    decreases |spares|
  {
    if spares == [] {
      FromMembers(w.pairs, w.pairs);
    } else {
      var p := spares[0];
      var head := if Readies(w.pairs) == [] then Pair(1, 1) else Pair(Readies(w.pairs)[0].up, Readies(w.pairs)[0].down);
      InvalidateStage(w, p.up, head);
      InvalidateStage(w, p.down, head);
      FromMembers(w.pairs, w.pairs);
      var w' := if p.up !in alive then Invalidate(w, p.up) else if p.down !in alive then Invalidate(w, p.down) else w;
      HealthStage(w', spares[1..], alive);
      FromTrans(w.pairs, w'.pairs, HealthCheck(w', spares[1..], alive).pairs);
    }
  }

  lemma {:induction false} TrimStage(w: Warmer, n: int)
    requires Sound(w)
    ensures var t := Trim(w, n);
            && Sound(t) && From(w.pairs, t.pairs)
            && Readies(t.pairs) <= Readies(w.pairs)
            && (n > 0 ==> (|Readies(t.pairs)| <= n <==> Loose(w.pairs, n)))
            && (forall race :: HeadOn(w, race) ==> HeadOn(t, race))
  {
    if n <= 0 {
      FromMembers(w.pairs, w.pairs);
    } else {
      var ps := Trimmed(w.pairs, n);
      ElectedIsWeak(w);
      TrimmedShrinks(w.pairs, n);
      ShrinkElects(w, ps);
      ShrinkKeepsOpen(w.pairs, ps);
      ShrinksFrom(w.pairs, ps);
      TrimmedReadies(w.pairs, n);
      assert |Readies(w.pairs)| <= n ==> ps == w.pairs;
    }
  }

  lemma {:induction false} TopUpStage(w: Warmer, n: int, builds: seq<Raced>)
    requires Sound(w) && FreshKeys(w.pairs, None, builds)
    ensures var t := TopUp(w, n, builds);
            && Sound(t)
            && (|Readies(w.pairs)| <= n ==> |Readies(t.pairs)| <= n)
            && (|Readies(w.pairs)| > n ==> t == w)
            && (forall race :: HeadOn(w, race) ==> HeadOn(t, race))
    decreases |builds|
  {
    if |Readies(w.pairs)| < n && builds != [] {
      var b := builds[0];
      var w' := Join(w, b.key, b.race);
      JoinElects(w, b.key, b.race);
      forall i | 0 <= i < |builds[1..]| ensures !Listed(w'.pairs, builds[1..][i].key) {
        assert builds[1..][i] == builds[i + 1];
        AppendLists(w.pairs, HotPair(b.key, b.race.up, b.race.down, Ready, 0), builds[i + 1].key);
      }
      TopUpStage(w', n, builds[1..]);
    }
  }

  lemma {:induction false} AppendLists(ps: seq<HotPair>, p: HotPair, key: string)
    requires !Listed(ps, key) && p.key != key
    ensures !Listed(ps + [p], key)
  {
  }

  // ---------------------------------------------------------------- the whole refresh

  lemma {:induction false} PruneStage(w: Warmer, left: seq<HotPair>)
    requires Sound(w) && Shrinks(w.pairs, left)
    ensures Sound(Pruned(w, left)) && From(w.pairs, Pruned(w, left).pairs)
  {
    ElectedIsWeak(w);
    ShrinkElects(w, left);
    ShrinkKeepsOpen(w.pairs, left);
    ShrinksFrom(w.pairs, left);
    FromMembers(w.pairs, w.pairs);
  }

  /** Racing and placing the candidate puts its channels at the head; only the candidate is new, and it is idle. */
  lemma {:induction false} PlaceStage(w: Warmer, won: Raced)
    requires Sound(w) && !Listed(w.pairs, won.key)
    ensures var t := Decide(Join(w, won.key, won.race), won.key, won.race);
            && Weak(t) && NoneClosed(t.pairs) && HeadOn(t, won.race)
            && From(w.pairs + [HotPair(won.key, won.race.up, won.race.down, Ready, 0)], t.pairs)
  {
    JoinElects(w, won.key, won.race);
    var joined := Join(w, won.key, won.race);
    assert joined.pairs[|w.pairs|] == HotPair(won.key, won.race.up, won.race.down, Ready, 0);
    IndexOfIs(joined.pairs, |w.pairs|);
    DecideHeads(joined, won.key, won.race);
  }

  lemma {:induction false} CheckStage(w: Warmer, alive: set<Channel>)
    requires Weak(w) && NoneClosed(w.pairs)
    ensures Sound(Deduplicate(w)) && Sound(Checked(w, alive)) && From(w.pairs, Checked(w, alive).pairs)
    ensures DistinctChannels(Readies(Checked(w, alive).pairs))
    ensures forall race :: HeadOn(w, race) && race.up in alive && race.down in alive ==> HeadOn(Checked(w, alive), race)
  {
    var deduped := Deduplicate(w);
    DeduplicateStage(w);
    HealthStage(deduped, Spares(deduped), alive);
    FromTrans(w.pairs, deduped.pairs, Checked(w, alive).pairs);
  }

  /** Topping up and the last deduplication decide nothing more about being over the count. */
  lemma {:induction false} CountStage(trimmed: Warmer, n: int, builds: seq<Raced>)
    requires Sound(trimmed) && FreshKeys(trimmed.pairs, None, builds) && DistinctChannels(Readies(trimmed.pairs))
    ensures var t := Deduplicate(TopUp(trimmed, n, builds)); |Readies(t.pairs)| <= n <==> |Readies(trimmed.pairs)| <= n
  {
    var full := TopUp(trimmed, n, builds);
    TopUpStage(trimmed, n, builds);
    if |Readies(trimmed.pairs)| > n {
      DedupedSame(trimmed.pairs, {});
    } else {
      ElectedIsWeak(full);
      DeduplicateStage(full);
    }
  }

  /** From the placed candidate to the end: nothing closed is listed, the election is whole, channels are distinct. */
  lemma {:induction false} AlignStage(w: Warmer, n: int, alive: set<Channel>, builds: seq<Raced>)
    requires Weak(w) && NoneClosed(w.pairs) && FreshKeys(w.pairs, None, builds)
    ensures Sound(Deduplicate(w)) && WellFormed(Checked(w, alive)) && WellFormed(TopUp(Trim(Checked(w, alive), n), n, builds))
    ensures var t := Aligned(w, n, alive, builds);
            && Sound(t) && DistinctChannels(Readies(t.pairs))
            && (n > 0 ==> (|Readies(t.pairs)| <= n <==> Loose(Checked(w, alive).pairs, n)))
            && (n > 0 && Idle(w.pairs) ==> |Readies(t.pairs)| <= n)
            && (forall race :: HeadOn(w, race) && race.up in alive && race.down in alive ==> HeadOn(t, race))
  {
    var healthy := Checked(w, alive);
    CheckStage(w, alive);
    var trimmed := Trim(healthy, n);
    TrimStage(healthy, n);
    FromTrans(w.pairs, healthy.pairs, trimmed.pairs);
    FromKeeps(w.pairs, healthy.pairs, "");
    forall i | 0 <= i < |builds| ensures !Listed(trimmed.pairs, builds[i].key) {
      FromKeeps(w.pairs, trimmed.pairs, builds[i].key);
    }
    var full := TopUp(trimmed, n, builds);
    TopUpStage(trimmed, n, builds);
    ElectedIsWeak(full);
    DeduplicateStage(full);
    PrefixDistinct(Readies(healthy.pairs), Readies(trimmed.pairs));
    CountStage(trimmed, n, builds);
    if Idle(w.pairs) {
      IdleIsLoose(healthy.pairs, n);
    }
  }

  lemma {:induction false} PrefixDistinct(a: seq<HotPair>, b: seq<HotPair>)
    requires DistinctChannels(a) && b <= a
    ensures DistinctChannels(b)
  {
    assert forall i :: 0 <= i < |b| ==> b[i] == a[i];
  }

  /** Up to the placed candidate: its channels lead, only it is new, and it is idle. */
  lemma {:induction false} OpenStage(w: Warmer, left: seq<HotPair>, won: Option<Raced>, builds: seq<Raced>)
    requires Sound(w) && Shrinks(w.pairs, left) && FreshKeys(w.pairs, won, builds)
    ensures Sound(Pruned(w, left)) && (won.Some? ==> !Listed(Pruned(w, left).pairs, won.value.key))
    ensures var t := Placed(Pruned(w, left), won);
            && Weak(t) && NoneClosed(t.pairs) && FreshKeys(t.pairs, None, builds)
            && (Idle(w.pairs) ==> Idle(t.pairs)) && (won.Some? ==> HeadOn(t, won.value.race))
  {
    var pruned := Pruned(w, left);
    PruneStage(w, left);
    ElectedIsWeak(pruned);
    FromKeeps(w.pairs, pruned.pairs, "");
    forall i | 0 <= i < |builds| ensures !Listed(pruned.pairs, builds[i].key) {
      FromKeeps(w.pairs, pruned.pairs, builds[i].key);
    }
    if won.Some? {
      var placed := Placed(pruned, won);
      var winner := HotPair(won.value.key, won.value.race.up, won.value.race.down, Ready, 0);
      FromKeeps(w.pairs, pruned.pairs, won.value.key);
      PlaceStage(pruned, won.value);
      assert Idle(w.pairs) ==> Idle(pruned.pairs + [winner]);
      FromKeeps(pruned.pairs + [winner], placed.pairs, "");
      forall i | 0 <= i < |builds| ensures !Listed(placed.pairs, builds[i].key) {
        AppendLists(pruned.pairs, winner, builds[i].key);
        FromKeeps(pruned.pairs + [winner], placed.pairs, builds[i].key);
      }
    }
  }

  /**
    If the race elects (u, d) and both channels stay available, the refresh ends with a Ready primary on
    (u, d) and Ready pairs on pairwise distinct channels. At most `n` are Ready exactly when, in the list that
    trimming finds, no Ready pair beyond the first n + 1 is in use; so in particular when no pair is in use.
  */
  lemma {:induction false} RefreshElectsTheWinner(w: Warmer, n: int, left: seq<HotPair>, won: Raced, alive: set<Channel>, builds: seq<Raced>)
    requires Sound(w) && n > 0 && Shrinks(w.pairs, left)
    requires FreshKeys(w.pairs, Some(won), builds)
    requires won.race.up in alive && won.race.down in alive
    ensures var t := Refreshed(w, n, left, Some(won), alive, builds);
            && Elected(t)
            && t.primary.Some? && IsReady(t.pairs, t.primary.value)
            && (var p := t.pairs[IndexOf(t.pairs, t.primary.value)]; Pair(p.up, p.down) == won.race)
            && DistinctChannels(Readies(t.pairs))
            && (|Readies(t.pairs)| <= n <==> Loose(Checked(Placed(Pruned(w, left), Some(won)), alive).pairs, n))
            && (Idle(w.pairs) ==> |Readies(t.pairs)| <= n)
  {
    OpenStage(w, left, Some(won), builds);
    var placed := Placed(Pruned(w, left), Some(won));
    AlignStage(placed, n, alive, builds);
    HeadIsPrimary(Aligned(placed, n, alive, builds));
  }
}
