/** What each section of the pair warmer leaves behind: which pairs may still be handed out, and which are gone. */
module PairSections {
  import opened Link
  import opened PairList
  import opened PairRefresh

  // ---------------------------------------------------------------- a channel is lost

  /** The pairs that use the channel in neither direction, in list order. */
  function Elsewhere(ps: seq<HotPair>, ch: Channel): seq<HotPair> {
    if ps == [] then [] else (if ps[0].up != ch && ps[0].down != ch then [ps[0]] else []) + Elsewhere(ps[1..], ch)
  }

  lemma {:induction false} ElsewhereAppend(a: seq<HotPair>, b: seq<HotPair>, ch: Channel)
    ensures Elsewhere(a + b, ch) == Elsewhere(a, ch) + Elsewhere(b, ch)
  {
    if a == [] {
      assert a + b == b;
    } else {
      assert (a + b)[1..] == a[1..] + b;
      ElsewhereAppend(a[1..], b, ch);
    }
  }

  lemma {:induction false} ElsewhereIs(ps: seq<HotPair>, ch: Channel)
    ensures forall p :: p in Elsewhere(ps, ch) <==> p in ps && p.up != ch && p.down != ch
  {
    if ps != [] {
      ElsewhereIs(ps[1..], ch);
      assert ps == [ps[0]] + ps[1..];
    }
  }

  lemma {:induction false} DrainedLeaves(ps: seq<HotPair>, ch: Channel)
    ensures var qs := Drained(ps, ch);
            && (forall q :: q in qs && (q.up == ch || q.down == ch) ==> q.state != Ready && (q.state == Draining ==> q.refs > 0))
            && (forall p :: p in ps && (p.up == ch || p.down == ch) && p.state != Closed && p.refs > 0 ==> p.(state := Draining) in qs)
            && Elsewhere(qs, ch) == Elsewhere(ps, ch)
  {
    if ps != [] {
      DrainedLeaves(ps[1..], ch);
      var p, rest := ps[0], Drained(ps[1..], ch);
      var some := if p.state == Closed || !p.Touches(ch) then [p] else DrainOne(p);
      assert Drained(ps, ch) == some + rest && ps == [p] + ps[1..];
      ElsewhereAppend(some, rest, ch);
      assert some == [] || Elsewhere(some[1..], ch) == [];
    }
  }

  /**
    After a channel is lost no pair that uses it in either direction may be handed out; those in use are
    draining, the idle ones are gone. All other pairs are unchanged and in order, and the first Ready one of
    them serves.
  */
  lemma {:induction false} InvalidateLeaves(w: Warmer, ch: Channel)
    requires Weak(w)
    ensures var t := Invalidate(w, ch);
            && (forall q :: q in t.pairs && (q.up == ch || q.down == ch) ==> q.state != Ready && (q.state == Draining ==> q.refs > 0))
            && (forall p :: p in w.pairs && (p.up == ch || p.down == ch) && p.state != Closed && p.refs > 0 ==> p.(state := Draining) in t.pairs)
            && Elsewhere(t.pairs, ch) == Elsewhere(w.pairs, ch)
            && t.primary == FirstReady(t.pairs)
  {
    DrainedLeaves(w.pairs, ch);
    DrainedShrinks(w.pairs, ch);
    ShrinkKeepsWeak(w, Drained(w.pairs, ch));
    EnsureElects(Settle(Drained(w.pairs, ch), w.primary));
  }

  // ---------------------------------------------------------------- the health check

  lemma {:induction false} InvalidateKeeps(w: Warmer, ch: Channel, p: HotPair)
    requires Weak(w)
    ensures p in w.pairs && p.up != ch && p.down != ch ==> p in Invalidate(w, ch).pairs
    ensures p in Invalidate(w, ch).pairs && p.state == Ready ==> p in w.pairs
  {
    InvalidateLeaves(w, ch);
    ElsewhereIs(w.pairs, ch);
    ElsewhereIs(Invalidate(w, ch).pairs, ch);
  }

  /** Never a new Ready pair, and a Ready pair on open channels stays. */
  lemma {:induction false} HealthKeeps(w: Warmer, spares: seq<HotPair>, alive: set<Channel>, p: HotPair)
    requires Sound(w)
    ensures p in HealthCheck(w, spares, alive).pairs && p.state == Ready ==> p in w.pairs
    ensures p in w.pairs && p.up in alive && p.down in alive ==> p in HealthCheck(w, spares, alive).pairs
    decreases |spares|
  {
    if spares != [] {
      var q := spares[0];
      ElectedIsWeak(w);
      InvalidateKeeps(w, q.up, p);
      InvalidateKeeps(w, q.down, p);
      InvalidateStage(w, q.up, Pair(q.up, q.down));
      InvalidateStage(w, q.down, Pair(q.up, q.down));
      var w' := if q.up !in alive then Invalidate(w, q.up) else if q.down !in alive then Invalidate(w, q.down) else w;
      HealthKeeps(w', spares[1..], alive, p);
    }
  }

  lemma {:induction false} HealthCuts(w: Warmer, spares: seq<HotPair>, alive: set<Channel>, p: HotPair)
    requires Sound(w) && p in spares && (p.up !in alive || p.down !in alive) && p.state == Ready
    ensures p !in HealthCheck(w, spares, alive).pairs
    decreases |spares|
  {
    var q := spares[0];
    ElectedIsWeak(w);
    InvalidateStage(w, q.up, Pair(q.up, q.down));
    InvalidateStage(w, q.down, Pair(q.up, q.down));
    var w' := if q.up !in alive then Invalidate(w, q.up) else if q.down !in alive then Invalidate(w, q.down) else w;
    if p == q {
      InvalidateLeaves(w, if q.up !in alive then q.up else q.down);
      assert p !in w'.pairs;
      HealthKeeps(w', spares[1..], alive, p);
    } else {
      assert spares == [q] + spares[1..];
      HealthCuts(w', spares[1..], alive, p);
    }
  }

  lemma {:induction false} NotKeyedIs(ps: seq<HotPair>, key: Option<string>)
    ensures forall p :: p in NotKeyed(ps, key) <==> p in ps && key != Some(p.key)
  {
    if ps != [] {
      NotKeyedIs(ps[1..], key);
      assert ps == [ps[0]] + ps[1..];
    }
  }

  /**
    What the health check of the spares leaves Ready was Ready before; a Ready spare stays exactly if both of its
    channels are open, and the primary stays if both of its are.
  */
  lemma {:induction false} HealthCheckLeaves(w: Warmer, alive: set<Channel>, p: HotPair)
    requires Sound(w) && p.state == Ready
    ensures var t := HealthCheck(w, Spares(w), alive);
            && (p in t.pairs ==> p in w.pairs)
            && (p in w.pairs && p.up in alive && p.down in alive ==> p in t.pairs)
            && (p in t.pairs && w.primary != Some(p.key) ==> p.up in alive && p.down in alive)
  {
    HealthKeeps(w, Spares(w), alive, p);
    if p in HealthCheck(w, Spares(w), alive).pairs && w.primary != Some(p.key) {
      var i :| 0 <= i < |w.pairs| && w.pairs[i] == p;
      ReadiesAt(w.pairs, i);
      NotKeyedIs(Readies(w.pairs), w.primary);
      if p.up !in alive || p.down !in alive {
        HealthCuts(w, Spares(w), alive, p);
      }
    }
  }

  // ---------------------------------------------------------------- deduplication

  /** No pair before `i` may be handed out on the same channels. */
  predicate FirstOnChannels(ps: seq<HotPair>, i: nat)
    requires i < |ps|
  {
    forall j :: 0 <= j < i && ps[j].state == Ready ==> !(ps[j].up == ps[i].up && ps[j].down == ps[i].down)
  }

  lemma {:induction false} DedupedMembers(ps: seq<HotPair>, seen: set<Pair>)
    ensures forall q :: q in Deduped(ps, seen) ==> q in ps || (q.state == Draining && q.refs > 0 && q.(state := Ready) in ps)
    ensures forall p :: p in ps && p.state != Ready ==> p in Deduped(ps, seen)
  {
    if ps != [] {
      var p := ps[0];
      var next := if p.state == Ready then seen + {Pair(p.up, p.down)} else seen;
      DedupedMembers(ps[1..], seen);
      DedupedMembers(ps[1..], next);
      assert ps == [p] + ps[1..];
    }
  }

  lemma {:induction false} FirstOnChannelsTail(ps: seq<HotPair>, i: nat)
    requires 0 < i < |ps|
    ensures FirstOnChannels(ps, i) <==>
            FirstOnChannels(ps[1..], i - 1) && !(ps[0].state == Ready && ps[0].up == ps[i].up && ps[0].down == ps[i].down)
  {
    assert forall j :: 0 < j < i ==> ps[j] == ps[1..][j - 1];
  }

  /** What the first pair leaves of the rest. */
  lemma {:induction false} DedupedStep(ps: seq<HotPair>, seen: set<Pair>, p: HotPair) returns (next: set<Pair>)
    requires ps != [] && p.key != ps[0].key
    ensures next == if ps[0].state == Ready then seen + {Pair(ps[0].up, ps[0].down)} else seen
    ensures p in Deduped(ps, seen) <==> p in Deduped(ps[1..], next)
  {
    var q := ps[0];
    next := if q.state == Ready then seen + {Pair(q.up, q.down)} else seen;
    assert Pair(q.up, q.down) in seen ==> seen + {Pair(q.up, q.down)} == seen;
  }

  lemma {:induction false} DedupedKeepsIff(ps: seq<HotPair>, seen: set<Pair>, i: nat)
    requires UniqueKeys(ps) && i < |ps| && ps[i].state == Ready
    ensures ps[i] in Deduped(ps, seen) <==> Pair(ps[i].up, ps[i].down) !in seen && FirstOnChannels(ps, i)
  {
    if i > 0 {
      assert ps[i] == ps[1..][i - 1];
      var next := DedupedStep(ps, seen, ps[i]);
      DedupedKeepsIff(ps[1..], next, i - 1);
      FirstOnChannelsTail(ps, i);
    } else {
      DedupedMembers(ps[1..], seen);
      assert ps[0] !in ps[1..];
    }
  }

  /**
    Deduplicating leaves a Ready pair Ready exactly if it is the first on its channels, leaves pairs that are not
    Ready alone, and keeps a duplicate only as long as it is in use.
  */
  lemma {:induction false} DeduplicateLeaves(w: Warmer, i: nat)
    requires UniqueKeys(w.pairs) && i < |w.pairs|
    ensures var t := Deduplicate(w); var p := w.pairs[i];
            && (p.state == Ready ==> (p in t.pairs <==> FirstOnChannels(w.pairs, i)))
            && (p.state != Ready ==> p in t.pairs)
            && forall q :: q in t.pairs && q !in w.pairs ==> q.state == Draining && q.refs > 0 && q.(state := Ready) in w.pairs
  {
    DedupedMembers(w.pairs, {});
    if w.pairs[i].state == Ready { DedupedKeepsIff(w.pairs, {}, i); }
  }

  // ---------------------------------------------------------------- releasing

  /** A release takes one reference off its pair, and the pair off the list exactly if it was the last and the pair is draining. */
  lemma {:induction false} ReleaseLeaves(w: Warmer, key: string)
    requires UniqueKeys(w.pairs) && Listed(w.pairs, key)
    ensures var i := IndexOf(w.pairs, key); var p := w.pairs[i]; var t := Release(w, key);
            && (Listed(t.pairs, key) <==> p.refs > 1 || p.state != Draining)
            && (if Listed(t.pairs, key) then t == w.(pairs := w.pairs[i := p.(refs := p.refs - 1)])
                else t.pairs == w.pairs[..i] + w.pairs[i + 1..])
  {
    var i := IndexOf(w.pairs, key);
    var v := AddRef(w, key, -1);
    RefsDoNotVote(w.pairs, v.pairs);
    assert UniqueKeys(v.pairs) && v.pairs[i].key == key;
    CutAt(v.pairs, i);
    assert v.pairs[..i] + v.pairs[i + 1..] == w.pairs[..i] + w.pairs[i + 1..];
  }

  // ---------------------------------------------------------------- trimming and topping up

  lemma {:induction false} TailDrains(ps: seq<HotPair>, i: nat)
    requires i < |ps| && ps[i].state == Ready && ps[i].refs > 0
    ensures var qs := ps[i := ps[i].(state := Draining)];
            && (forall p :: p in ps && p.state != Ready ==> p in qs)
            && (forall q :: q in qs ==> q in ps || (q.state == Draining && q.refs > 0 && q.(state := Ready) in ps))
  {
    var qs := ps[i := ps[i].(state := Draining)];
    forall p | p in ps && p.state != Ready ensures p in qs {
      var k :| 0 <= k < |ps| && ps[k] == p;
      assert qs[k] == p;
    }
    assert qs[i].(state := Ready) == ps[i];
  }

  lemma {:induction false} TailGoes(ps: seq<HotPair>, i: nat)
    requires i < |ps| && ps[i].state == Ready
    ensures var rest := ps[..i] + ps[i + 1..];
            (forall p :: p in ps && p.state != Ready ==> p in rest) && (forall q :: q in rest ==> q in ps)
  {
    assert ps == ps[..i] + [ps[i]] + ps[i + 1..];
  }

  lemma {:induction false} TrimmedMembers(ps: seq<HotPair>, n: nat)
    ensures forall p :: p in ps && p.state != Ready ==> p in Trimmed(ps, n)
    ensures forall q :: q in Trimmed(ps, n) ==> q in ps || (q.state == Draining && q.refs > 0 && q.(state := Ready) in ps)
    decreases |ps|
  {
    var i := LastReady(ps);
    if |Readies(ps)| > n && i >= 0 {
      if ps[i].refs > 0 {
        TailDrains(ps, i);
      } else {
        TailGoes(ps, i);
        TrimmedMembers(ps[..i] + ps[i + 1..], n);
      }
    }
  }

  function Built(builds: seq<Raced>): seq<HotPair> {
    if builds == [] then []
    else [HotPair(builds[0].key, builds[0].race.up, builds[0].race.down, Ready, 0)] + Built(builds[1..])
  }

  /** How many races topping up takes: as many as are missing, if so many are won. */
  function Missing(ready: nat, n: int, won: nat): nat {
    if n <= ready then 0 else if n - ready <= won then n - ready else won
  }

  /** Topping up adds exactly the missing pairs, idle and Ready, at the end of the list. */
  lemma {:induction false} TopUpAdds(w: Warmer, n: int, builds: seq<Raced>)
    ensures var t := TopUp(w, n, builds); var k := Missing(|Readies(w.pairs)|, n, |builds|);
            && t.pairs == w.pairs + Built(builds[..k])
            && |Readies(t.pairs)| == |Readies(w.pairs)| + k
    decreases |builds|
  {
    var k := Missing(|Readies(w.pairs)|, n, |builds|);
    if k > 0 {
      var b := builds[0];
      var w' := Join(w, b.key, b.race);
      var p := HotPair(b.key, b.race.up, b.race.down, Ready, 0);
      ReadiesAppend(w.pairs, [p]);
      assert [p][1..] == [];
      TopUpAdds(w', n, builds[1..]);
      assert builds[..k][1..] == builds[1..][..k - 1];
      assert w.pairs + ([p] + Built(builds[1..][..k - 1])) == (w.pairs + [p]) + Built(builds[1..][..k - 1]);
    } else {
      assert builds[..0] == [];
      assert w.pairs + [] == w.pairs;
    }
  }

  // ---------------------------------------------------------------- discarding and placing a candidate

  /** A discarded candidate is gone if it is idle and draining in its place if not; nobody else is touched. */
  lemma {:induction false} DiscardLeaves(w: Warmer, key: string)
    requires UniqueKeys(w.pairs) && Listed(w.pairs, key)
    ensures var t := Discard(w, key); var p := w.pairs[IndexOf(w.pairs, key)];
            && (p.refs <= 0 ==> !Listed(t.pairs, key))
            && (p.refs > 0 ==> t.pairs == w.pairs[IndexOf(w.pairs, key) := p.(state := Draining)] && t.primary == w.primary)
            && forall q :: q in w.pairs && q.key != key ==> q in t.pairs
  {
    var i := IndexOf(w.pairs, key);
    CutAt(w.pairs, i);
    WithoutMembers(w.pairs, key);
    var t := Discard(w, key);
    if w.pairs[i].refs > 0 {
      forall q | q in w.pairs && q.key != key ensures q in t.pairs {
        var k :| 0 <= k < |w.pairs| && w.pairs[k] == q;
        assert t.pairs[k] == q;
      }
    }
  }

  /** A pair other than the candidate serves the raced channels already. */
  predicate Known(ps: seq<HotPair>, key: string, race: Pair) {
    exists p :: p in ps && p.key != key && p.state == Ready && p.up == race.up && p.down == race.down
  }

  lemma {:induction false} FirstMatchIff(ps: seq<HotPair>, key: string, race: Pair)
    ensures FirstMatch(ps, key, race).Some? <==> Known(ps, key, race)
  {
    if ps != [] {
      FirstMatchIff(ps[1..], key, race);
      assert ps == [ps[0]] + ps[1..];
      if Known(ps[1..], key, race) {
        var p :| p in ps[1..] && p.key != key && p.state == Ready && p.up == race.up && p.down == race.down;
        assert p in ps;
      }
      if ps[0].key != key && ps[0].state == Ready && Pair(ps[0].up, ps[0].down) == race {
        assert ps[0] in ps;
      }
    }
  }

  /** It is the first of them in list order. */
  lemma {:induction false} FirstMatchIsFirst(ps: seq<HotPair>, key: string, race: Pair, j: nat)
    requires j < |ps| && ps[j].key != key && ps[j].state == Ready && ps[j].up == race.up && ps[j].down == race.down
    ensures var m := FirstMatch(ps, key, race); m.Some? && IndexOf(ps, m.value) <= j
  {
    if j > 0 && !(ps[0].key != key && ps[0].state == Ready && Pair(ps[0].up, ps[0].down) == race) {
      FirstMatchIsFirst(ps[1..], key, race, j - 1);
    }
  }

  lemma {:induction false} HeadMatchIsKnown(w: Warmer, key: string, race: Pair)
    requires HeadMatches(w, key, race)
    ensures Known(w.pairs, key, race)
  {
    var p := w.pairs[IndexOf(w.pairs, w.primary.value)];
    assert p in w.pairs && p.key != key;
  }

  /** Promoting brings one pair to the front; the others keep their order. */
  lemma {:induction false} PromoteLeaves(w: Warmer, key: string)
    requires UniqueKeys(w.pairs) && Listed(w.pairs, key)
    ensures var t := Promote(w, key);
            && t.pairs[0] == w.pairs[IndexOf(w.pairs, key)] && t.pairs[1..] == Without(w.pairs, key) && t.primary == Some(key)
            && UniqueKeys(t.pairs) && (forall q :: q in w.pairs <==> q in t.pairs)
  {
    var i := IndexOf(w.pairs, key);
    CutAt(w.pairs, i);
    WithoutMembers(w.pairs, key);
    var rest := Without(w.pairs, key);
    assert IndexOf(rest, key) == |rest|;
  }

  /** The candidate is redundant: it goes, and everybody else stays. */
  lemma {:induction false} KnownLeaves(w: Warmer, key: string, race: Pair)
    requires Sound(w) && IsReady(w.pairs, key) && w.pairs[IndexOf(w.pairs, key)] == HotPair(key, race.up, race.down, Ready, 0)
    requires Known(w.pairs, key, race)
    ensures var t := Decide(w, key, race);
            && !Listed(t.pairs, key) && (forall q :: q in w.pairs && q.key != key ==> q in t.pairs)
            && t.primary == if HeadMatches(w, key, race) then w.primary else FirstMatch(w.pairs, key, race)
  {
    if HeadMatches(w, key, race) {
      DiscardLeaves(w, key);
      StillServes(w, key, w.primary.value);
    } else {
      FirstMatchIff(w.pairs, key, race);
      FirstMatchIs(w.pairs, key, race);
      var spare := FirstMatch(w.pairs, key, race).value;
      PromoteLeaves(w, spare);
      var p := Promote(w, spare);
      FoundIs(p.pairs, w.pairs[IndexOf(w.pairs, key)]);
      DiscardLeaves(p, key);
      IndexOfIs(p.pairs, 0);
      StillServes(p, key, spare);
    }
  }

  /** Taking an idle pair off the list leaves a primary that serves where it is. */
  lemma {:induction false} StillServes(w: Warmer, key: string, head: string)
    requires UniqueKeys(w.pairs) && Listed(w.pairs, key) && w.pairs[IndexOf(w.pairs, key)].refs <= 0
    requires w.primary == Some(head) && head != key && IsReady(w.pairs, head)
    ensures Discard(w, key).primary == Some(head)
  {
    WithoutKeepsReady(w.pairs, key, head);
  }

  /** The candidate takes the head, and a head that can serve becomes the second; everybody stays. */
  lemma {:induction false} FreshLeaves(w: Warmer, key: string, race: Pair)
    requires Sound(w) && IsReady(w.pairs, key) && w.pairs[IndexOf(w.pairs, key)] == HotPair(key, race.up, race.down, Ready, 0)
    requires !Known(w.pairs, key, race)
    ensures var t := Decide(w, key, race);
            && t.primary == Some(key) && (forall q :: q in w.pairs <==> q in t.pairs)
            && (w.primary.Some? && w.primary.value != key && IsReady(w.pairs, w.primary.value) ==>
                  |t.pairs| > 1 && t.pairs[0].key == key && t.pairs[1].key == w.primary.value)
  {
    if HeadMatches(w, key, race) {
      HeadMatchIsKnown(w, key, race);
    }
    FirstMatchIff(w.pairs, key, race);
    if w.primary != Some(key) {
      ReplaceMembers(w, key, w.primary);
      if w.primary.Some? && IsReady(w.pairs, w.primary.value) {
        WithoutKeepsReady(w.pairs, key, w.primary.value);
      }
    }
  }

  /**
    Placing a raced candidate: it is dropped exactly if another Ready pair is on its channels already; then the
    primary stays if it is such a pair, and the first such pair takes its place otherwise. A candidate that is
    not dropped takes the head, with a head that could serve as the second. No other pair is lost or changed.
  */
  lemma {:induction false} DecideLeaves(w: Warmer, key: string, race: Pair)
    requires Sound(w) && IsReady(w.pairs, key) && w.pairs[IndexOf(w.pairs, key)] == HotPair(key, race.up, race.down, Ready, 0)
    ensures var t := Decide(w, key, race);
            && (Listed(t.pairs, key) <==> !Known(w.pairs, key, race))
            && (!Listed(t.pairs, key) ==> t.primary == if HeadMatches(w, key, race) then w.primary else FirstMatch(w.pairs, key, race))
            && (Listed(t.pairs, key) ==> t.primary == Some(key))
            && (Listed(t.pairs, key) && w.primary.Some? && w.primary.value != key && IsReady(w.pairs, w.primary.value) ==>
                  |t.pairs| > 1 && t.pairs[0].key == key && t.pairs[1].key == w.primary.value)
            && forall q :: q in w.pairs && q.key != key ==> q in t.pairs
  {
    if Known(w.pairs, key, race) {
      KnownLeaves(w, key, race);
    } else {
      FreshLeaves(w, key, race);
      var t := Decide(w, key, race);
      var p := w.pairs[IndexOf(w.pairs, key)];
      assert p in t.pairs;
      var k :| 0 <= k < |t.pairs| && t.pairs[k] == p;
      ListedAt(t.pairs, k);
    }
  }

  // ---------------------------------------------------------------- the whole refresh

  /** No Ready pair and no idle draining pair of `b` that is not one of `a`. */
  ghost predicate NothingNew(a: seq<HotPair>, b: seq<HotPair>) {
    forall q :: q in b && (q.state == Ready || IdleDraining(q)) ==> q in a
  }

  lemma {:induction false} DeduplicateBrings(w: Warmer)
    ensures NothingNew(w.pairs, Deduplicate(w).pairs)
  {
    DedupedMembers(w.pairs, {});
  }

  lemma {:induction false} InvalidateBrings(w: Warmer, ch: Channel)
    requires Sound(w)
    ensures NothingNew(w.pairs, Invalidate(w, ch).pairs)
  {
    ElectedIsWeak(w);
    InvalidateLeaves(w, ch);
    ElsewhereIs(w.pairs, ch);
    ElsewhereIs(Invalidate(w, ch).pairs, ch);
  }

  lemma {:induction false} HealthBrings(w: Warmer, spares: seq<HotPair>, alive: set<Channel>)
    requires Sound(w)
    ensures NothingNew(w.pairs, HealthCheck(w, spares, alive).pairs)
    decreases |spares|
  {
    if spares != [] {
      var p := spares[0];
      InvalidateBrings(w, p.up);
      InvalidateBrings(w, p.down);
      InvalidateStage(w, p.up, Pair(p.up, p.down));
      InvalidateStage(w, p.down, Pair(p.up, p.down));
      var w' := if p.up !in alive then Invalidate(w, p.up) else if p.down !in alive then Invalidate(w, p.down) else w;
      HealthBrings(w', spares[1..], alive);
    }
  }

  lemma {:induction false} BuiltIs(builds: seq<Raced>)
    ensures forall q :: q in Built(builds) ==> q.state == Ready && q.refs == 0
  {
    if builds != [] { BuiltIs(builds[1..]); }
  }

  /** What aligning leaves: Ready pairs that were there, on open channels unless primary, and freshly built ones. */
  lemma {:induction false} AlignLeaves(w: Warmer, n: int, alive: set<Channel>, builds: seq<Raced>, q: HotPair)
    requires Weak(w) && NoneClosed(w.pairs) && q in Aligned(w, n, alive, builds).pairs
    ensures q.state == Ready ==>
              || (exists k :: 0 <= k <= |builds| && q in Built(builds[..k]))
              || (q in w.pairs && (Deduplicate(w).primary == Some(q.key) || (q.up in alive && q.down in alive)))
    ensures IdleDraining(q) ==> q in w.pairs
  {
    var deduped, checked := Deduplicate(w), Checked(w, alive);
    var trimmed := Trim(checked, n);
    var full := TopUp(trimmed, n, builds);
    CheckStage(w, alive);
    DeduplicateBrings(w);
    DeduplicateBrings(full);
    HealthBrings(deduped, Spares(deduped), alive);
    if n > 0 { TrimmedMembers(checked.pairs, n); }
    TopUpAdds(trimmed, n, builds);
    var k := Missing(|Readies(trimmed.pairs)|, n, |builds|);
    BuiltIs(builds[..k]);
    if (q.state == Ready || IdleDraining(q)) && q !in Built(builds[..k]) {
      assert q in trimmed.pairs && q in checked.pairs && q in deduped.pairs;
      if q.state == Ready { HealthCheckLeaves(deduped, alive, q); }
    }
  }

  lemma {:induction false} BuiltReadies(builds: seq<Raced>, k: nat)
    requires k <= |builds|
    ensures |Built(builds)| == |builds| && Built(builds[..k]) == Built(builds)[..k] && Readies(Built(builds)) == Built(builds)
  {
    if builds != [] {
      BuiltReadies(builds[1..], if k == 0 then 0 else k - 1);
      if k > 0 { assert builds[..k][1..] == builds[1..][..k - 1]; }
      assert Built(builds)[1..] == Built(builds[1..]);
    }
  }

  /** If no two of the pairs at hand and the races won use the same channels, every missing pair is made up for. */
  lemma {:induction false} AlignFills(w: Warmer, n: int, alive: set<Channel>, builds: seq<Raced>)
    requires DistinctChannels(Readies(Trim(Checked(w, alive), n).pairs) + Built(builds))
    ensures var ready := |Readies(Trim(Checked(w, alive), n).pairs)|;
            |Readies(Aligned(w, n, alive, builds).pairs)| == ready + Missing(ready, n, |builds|)
  {
    var trimmed := Trim(Checked(w, alive), n);
    var full := TopUp(trimmed, n, builds);
    var k := Missing(|Readies(trimmed.pairs)|, n, |builds|);
    TopUpAdds(trimmed, n, builds);
    BuiltReadies(builds, k);
    BuiltReadies(builds[..k], 0);
    ReadiesAppend(trimmed.pairs, Built(builds[..k]));
    var all := Readies(trimmed.pairs) + Built(builds);
    assert Readies(full.pairs) == all[..|Readies(full.pairs)|];
    DedupedSame(full.pairs, {});
  }

  lemma {:induction false} DiscardBrings(w: Warmer, key: string)
    ensures NothingNew(w.pairs, Discard(w, key).pairs)
  {
    var i := IndexOf(w.pairs, key);
    var t := Discard(w, key);
    forall q | q in t.pairs && (q.state == Ready || IdleDraining(q)) ensures q in w.pairs {
      var k :| 0 <= k < |t.pairs| && t.pairs[k] == q;
      if i < |w.pairs| && w.pairs[i].refs > 0 {
        assert k != i && w.pairs[k] == q;
      }
    }
  }

  lemma {:induction false} DecideBrings(w: Warmer, key: string, race: Pair)
    requires Sound(w) && Listed(w.pairs, key)
    ensures NothingNew(w.pairs, Decide(w, key, race).pairs)
  {
    var spare := FirstMatch(w.pairs, key, race);
    if HeadMatches(w, key, race) {
      DiscardBrings(w, key);
    } else if spare.Some? {
      FirstMatchIs(w.pairs, key, race);
      PromoteLeaves(w, spare.value);
      DiscardBrings(Promote(w, spare.value), key);
    } else if w.primary != Some(key) {
      ReplaceMembers(w, key, w.primary);
    }
  }

  /** The list that aligning starts from: what pruning left, and the candidate. */
  lemma {:induction false} PlaceBrings(w: Warmer, left: seq<HotPair>, won: Option<Raced>, q: HotPair)
    requires Sound(w) && Shrinks(w.pairs, left) && FreshKeys(w.pairs, won, [])
    requires q in Placed(Pruned(w, left), won).pairs && (q.state == Ready || IdleDraining(q))
    ensures q in left || (won.Some? && q == HotPair(won.value.key, won.value.race.up, won.value.race.down, Ready, 0))
  {
    PruneStage(w, left);
    var v := Pruned(w, left);
    if won.Some? {
      FromKeeps(w.pairs, v.pairs, won.value.key);
      JoinElects(v, won.value.key, won.value.race);
      ElectedIsWeak(Join(v, won.value.key, won.value.race));
      var joined := Join(v, won.value.key, won.value.race);
      assert joined.pairs[|v.pairs|].key == won.value.key;
      ListedAt(joined.pairs, |v.pairs|);
      DecideBrings(joined, won.value.key, won.value.race);
    }
  }

  /**
    What a refresh leaves. A Ready pair was there before pruning ended, won the race, or was built now; and unless
    it was built now or is the primary of the list that the health check began with, both its channels are open. An idle
    draining pair is one that pruning had left.
  */
  lemma {:induction false} RefreshLeaves(w: Warmer, n: int, left: seq<HotPair>, won: Option<Raced>, alive: set<Channel>, builds: seq<Raced>, q: HotPair)
    requires Sound(w) && Shrinks(w.pairs, left) && FreshKeys(w.pairs, won, builds)
    requires q in Refreshed(w, n, left, won, alive, builds).pairs
    ensures q.state == Ready ==>
              || (exists k :: 0 <= k <= |builds| && q in Built(builds[..k]))
              || ((q in left || (won.Some? && q == HotPair(won.value.key, won.value.race.up, won.value.race.down, Ready, 0)))
                  && (Deduplicate(Placed(Pruned(w, left), won)).primary == Some(q.key) || (q.up in alive && q.down in alive)))
    ensures IdleDraining(q) ==> q in left
  {
    var placed := Placed(Pruned(w, left), won);
    OpenStage(w, left, won, builds);
    AlignLeaves(placed, n, alive, builds, q);
    if q in placed.pairs && (q.state == Ready || IdleDraining(q)) {
      PlaceBrings(w, left, won, q);
    }
  }

  // ---------------------------------------------------------------- over every run of sections

  /** Every listed pair that is draining is in use. */
  ghost predicate InUseOnly(ps: seq<HotPair>) {
    forall p :: p in ps && p.state == Draining ==> p.refs > 0
  }

  /** Pruning takes pairs off the list and does nothing else. */
  ghost predicate OnlyPrunes(s: Refresh, x: Section) {
    x.Prune? ==> forall q :: q in x.left ==> q in s.w.pairs
  }

  lemma {:induction false} PrunePassOnlyPrunes(ps: seq<HotPair>, backing: seq<HotPair>, i: nat)
    requires |ps| <= |backing| && i <= |backing|
    ensures forall q :: q in PrunePass(ps, backing, i) ==> q in ps
    decreases |backing| - i
  {
    if i < |backing| {
      if backing[i].state == Draining && backing[i].refs <= 0 && Listed(ps, backing[i].key) {
        var left := Without(ps, backing[i].key);
        PrunePassOnlyPrunes(left, left + backing[|left|..], i + 1);
      } else {
        PrunePassOnlyPrunes(ps, backing, i + 1);
      }
    }
  }

  lemma {:induction false} WithoutKeepsInUse(ps: seq<HotPair>, key: string)
    requires InUseOnly(ps)
    ensures InUseOnly(Without(ps, key))
  {
  }

  lemma {:induction false} ReleaseKeepsInUse(w: Warmer, key: string)
    requires UniqueKeys(w.pairs) && InUseOnly(w.pairs)
    ensures InUseOnly(Release(w, key).pairs)
  {
    var v := AddRef(w, key, -1);
    var i := IndexOf(w.pairs, key);
    if i < |w.pairs| {
      RefsDoNotVote(w.pairs, v.pairs);
      assert IndexOf(v.pairs, key) == i;
      CutAt(v.pairs, i);
      var t := Release(w, key);
      forall p | p in t.pairs && p.state == Draining ensures p.refs > 0 {
        if p.key == key {
          KeyIsAt(v.pairs, i, t.pairs, p);
        } else {
          OthersKeepRefs(w.pairs, i, v.pairs, p);
        }
      }
    }
  }

  /** Where the key is listed once, a pair with it is that one, and it is not in a list without it. */
  lemma {:induction false} KeyIsAt(ps: seq<HotPair>, i: nat, qs: seq<HotPair>, p: HotPair)
    requires UniqueKeys(ps) && i < |ps| && p in qs && p.key == ps[i].key && (qs == ps || qs == Without(ps, ps[i].key))
    ensures p == ps[i] && qs == ps
  {
    CutAt(ps, i);
    var k :| 0 <= k < |qs| && qs[k] == p;
    ListedAt(qs, k);
  }

  lemma {:induction false} OthersKeepRefs(ps: seq<HotPair>, i: nat, qs: seq<HotPair>, p: HotPair)
    requires InUseOnly(ps) && i < |ps| == |qs| && p.key != ps[i].key && qs[i].key == ps[i].key
    requires forall k :: 0 <= k < |ps| && k != i ==> qs[k] == ps[k]
    requires p.state == Draining && (p in qs || p in Without(qs, ps[i].key))
    ensures p.refs > 0
  {
    var k :| 0 <= k < |qs| && qs[k] == p;
    assert ps[k] == p;
  }

  lemma {:induction false} DiscardKeepsInUse(w: Warmer, key: string)
    requires InUseOnly(w.pairs)
    ensures InUseOnly(Discard(w, key).pairs)
  {
    WithoutKeepsInUse(w.pairs, key);
    var i := IndexOf(w.pairs, key);
    if i < |w.pairs| && w.pairs[i].refs > 0 {
      var t := Discard(w, key);
      forall p | p in t.pairs && p.state == Draining ensures p.refs > 0 {
        var k :| 0 <= k < |t.pairs| && t.pairs[k] == p;
        assert k == i || w.pairs[k] == p;
      }
    }
  }

  lemma {:induction false} SectionKeepsInUse(s: Refresh, x: Section)
    requires PrimaryInv(s) && Enabled(s, x) && OnlyPrunes(s, x) && InUseOnly(s.w.pairs)
    ensures InUseOnly(Step(s, x).w.pairs)
  {
    var ps := s.w.pairs;
    match x
    case Acquire(key) =>
      var qs := AddRef(s.w, key, 1).pairs;
      forall p | p in qs && p.state == Draining ensures p.refs > 0 {
        var k :| 0 <= k < |qs| && qs[k] == p;
        assert ps[k] in ps;
      }
    case Drop(key) => ReleaseKeepsInUse(s.w, key);
    case ChannelLost(ch) =>
      InvalidateLeaves(s.w, ch);
      ElsewhereIs(ps, ch);
      ElsewhereIs(Invalidate(s.w, ch).pairs, ch);
    case Promoted(key) => WithoutKeepsInUse(ps, key);
    case Replaced(key, oldHead) => if Listed(ps, key) { ReplaceMembers(s.w, key, oldHead); }
    case Discarded(key, held) => DiscardKeepsInUse(s.w, key);
    case Deduplicated => DedupedMembers(ps, {});
    case TrimmedTo(n) => if n > 0 { TrimmedMembers(ps, n); }
    case _ =>
  }

  /** A run in which pruning only takes pairs off the list. */
  ghost predicate Pruning(s: Refresh, xs: seq<Section>)
    decreases |xs|
  {
    xs == [] || (OnlyPrunes(s, xs[0]) && Pruning(Step(s, xs[0]), xs[1..]))
  }

  lemma {:induction false} RunKeepsInUse(s: Refresh, xs: seq<Section>)
    requires PrimaryInv(s) && ValidRun(s, xs) && Pruning(s, xs) && InUseOnly(s.w.pairs)
    ensures InUseOnly(RunSections(s, xs).w.pairs)
    decreases |xs|
  {
    if xs != [] {
      SectionKeepsPrimary(s, xs[0]);
      SectionKeepsInUse(s, xs[0]);
      RunKeepsInUse(Step(s, xs[0]), xs[1..]);
    }
  }

  /**
    In every interleaving of locked sections each listed draining pair is in use: the last release, or the
    section that sent it draining, has taken every other one off the list. Pruning finds nothing to do.
  */
  lemma {:induction false} DrainingPairsAreInUse(xs: seq<Section>)
    requires var s := Refresh(Warmer([], None), false); ValidRun(s, xs) && Pruning(s, xs)
    ensures InUseOnly(RunSections(Refresh(Warmer([], None), false), xs).w.pairs)
  {
    RunKeepsInUse(Refresh(Warmer([], None), false), xs);
  }
}
