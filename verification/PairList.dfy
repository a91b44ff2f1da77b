/**
  The hot-pair list as a value: what each locked section of the pair warmer does to it, and what all of
  them keep. A pair is known by its prebind key, which is fresh for every pair.
*/
module PairList {
  import opened Link

  datatype PairState = Ready | Draining | Closed

  datatype HotPair = HotPair(key: string, up: Channel, down: Channel, state: PairState, refs: int)
  {
    predicate Touches(ch: Channel) {
      up == ch || down == ch
    }

    predicate SameChannels(other: HotPair) {
      up == other.up && down == other.down
    }
  }

  datatype Warmer = Warmer(pairs: seq<HotPair>, primary: Option<string>)

  // ---------------------------------------------------------------- reading the list

  /** The pairs that may be handed out, in list order. */
  function Readies(ps: seq<HotPair>): seq<HotPair> {
    if ps == [] then []
    else (if ps[0].state == Ready then [ps[0]] else []) + Readies(ps[1..])
  }

  function FirstReady(ps: seq<HotPair>): Option<string> {
    if Readies(ps) == [] then None else Some(Readies(ps)[0].key)
  }

  /** Where the pair with this key stands, or the length of the list. */
  function IndexOf(ps: seq<HotPair>, key: string): (i: nat)
    ensures i <= |ps|
    ensures i < |ps| ==> ps[i].key == key
    ensures forall k :: 0 <= k < i ==> ps[k].key != key
  {
    if ps == [] || ps[0].key == key then 0 else 1 + IndexOf(ps[1..], key)
  }

  predicate Listed(ps: seq<HotPair>, key: string) {
    IndexOf(ps, key) < |ps|
  }

  predicate IsReady(ps: seq<HotPair>, key: string) {
    Listed(ps, key) && ps[IndexOf(ps, key)].state == Ready
  }

  ghost predicate UniqueKeys(ps: seq<HotPair>) {
    forall i, j :: 0 <= i < j < |ps| ==> ps[i].key != ps[j].key
  }

  ghost predicate WellFormed(w: Warmer) {
    UniqueKeys(w.pairs) && (w.primary.Some? ==> Listed(w.pairs, w.primary.value))
  }

  /** The primary, if it can serve, is the first pair that can. */
  ghost predicate Weak(w: Warmer) {
    WellFormed(w) && (w.primary.Some? && IsReady(w.pairs, w.primary.value) ==> w.primary == FirstReady(w.pairs))
  }

  /** The primary is the first Ready pair; with no Ready pair it is nil or some listed pair on its way out. */
  ghost predicate Elected(w: Warmer) {
    WellFormed(w) && (FirstReady(w.pairs).Some? ==> w.primary == FirstReady(w.pairs))
  }

  // ---------------------------------------------------------------- the locked sections

  /** Re-elects the first Ready pair unless the primary still serves. */
  function Ensure(w: Warmer): Warmer {
    if w.primary.Some? && IsReady(w.pairs, w.primary.value) then w
    else w.(primary := FirstReady(w.pairs))
  }

  /** Forgets a primary that is no longer listed. */
  function Settle(ps: seq<HotPair>, primary: Option<string>): Warmer {
    Warmer(ps, if primary.Some? && Listed(ps, primary.value) then primary else None)
  }

  function Without(ps: seq<HotPair>, key: string): seq<HotPair> {
    var i := IndexOf(ps, key);
    if i < |ps| then ps[..i] + ps[i + 1..] else ps
  }

  function Remove(w: Warmer, key: string): Warmer {
    Settle(Without(w.pairs, key), w.primary)
  }

  function AddRef(w: Warmer, key: string, d: int): Warmer {
    var i := IndexOf(w.pairs, key);
    if i < |w.pairs| then w.(pairs := w.pairs[i := w.pairs[i].(refs := w.pairs[i].refs + d)]) else w
  }

  /** Drops one reference; the last one of a draining pair removes it. */
  function Release(w: Warmer, key: string): Warmer {
    var w' := AddRef(w, key, -1);
    var i := IndexOf(w'.pairs, key);
    if i < |w'.pairs| && w'.pairs[i].refs <= 0 && w'.pairs[i].state == Draining then Ensure(Remove(w', key)) else w'
  }

  /** Draining, and gone at once when nobody holds it. */
  function DrainOne(p: HotPair): seq<HotPair> {
    if p.refs <= 0 then [] else [p.(state := Draining)]
  }

  function Drained(ps: seq<HotPair>, ch: Channel): seq<HotPair> {
    if ps == [] then []
    else (if ps[0].state == Closed || !ps[0].Touches(ch) then [ps[0]] else DrainOne(ps[0])) + Drained(ps[1..], ch)
  }

  function Invalidate(w: Warmer, ch: Channel): Warmer {
    Ensure(Settle(Drained(w.pairs, ch), w.primary))
  }

  /** A freshly raced pair joins the end and serves if nobody else does. */
  function Join(w: Warmer, key: string, race: Pair): Warmer {
    var ps := w.pairs + [HotPair(key, race.up, race.down, Ready, 0)];
    Warmer(ps, if w.primary.Some? && IsReady(w.pairs, w.primary.value) then w.primary else Some(key))
  }

  /** A redundant candidate goes at once unless it is in use. */
  function Discard(w: Warmer, key: string): Warmer {
    var i := IndexOf(w.pairs, key);
    if i < |w.pairs| && w.pairs[i].refs > 0 then w.(pairs := w.pairs[i := w.pairs[i].(state := Draining)])
    else Ensure(Remove(w, key))
  }

  /** A candidate that has left the list meanwhile and is still `held` only becomes draining: nobody is elected. */
  function DiscardCandidate(w: Warmer, key: string, held: bool): Warmer {
    if held && !Listed(w.pairs, key) then w else Discard(w, key)
  }

  function Promote(w: Warmer, key: string): Warmer {
    var i := IndexOf(w.pairs, key);
    if i < |w.pairs| then Warmer([w.pairs[i]] + Without(w.pairs, key), Some(key)) else w
  }

  /** The candidate takes the head; a healthy old head becomes the second. */
  function Replace(w: Warmer, key: string, oldHead: Option<string>): Warmer {
    var i := IndexOf(w.pairs, key);
    if i == |w.pairs| then w
    else
      var rest := Without(w.pairs, key);
      if oldHead.Some? && oldHead.value != key && IsReady(rest, oldHead.value) then
        Warmer([w.pairs[i], rest[IndexOf(rest, oldHead.value)]] + Without(rest, oldHead.value), Some(key))
      else Warmer([w.pairs[i]] + rest, Some(key))
  }

  /** Of Ready pairs on the same channels only the first stays. */
  function Deduped(ps: seq<HotPair>, seen: set<Pair>): seq<HotPair> {
    if ps == [] then []
    else
      var p := ps[0];
      if p.state != Ready then [p] + Deduped(ps[1..], seen)
      else if Pair(p.up, p.down) in seen then DrainOne(p) + Deduped(ps[1..], seen)
      else [p] + Deduped(ps[1..], seen + {Pair(p.up, p.down)})
  }

  function Deduplicate(w: Warmer): Warmer {
    Ensure(Settle(Deduped(w.pairs, {}), w.primary))
  }

  /** The position of the last Ready pair, or -1. */
  function LastReady(ps: seq<HotPair>): (i: int)
    ensures -1 <= i < |ps|
    ensures i >= 0 ==> ps[i].state == Ready
    ensures forall k :: i < k < |ps| ==> ps[k].state != Ready
  {
    if ps == [] then -1
    else if ps[|ps| - 1].state == Ready then |ps| - 1
    else LastReady(ps[..|ps| - 1])
  }

  /** Drains from the tail down to `n` Ready pairs, stopping at a tail that is in use. */
  function Trimmed(ps: seq<HotPair>, n: nat): seq<HotPair>
    decreases |ps|
  {
    var i := LastReady(ps);
    if |Readies(ps)| <= n || i < 0 then ps
    else if ps[i].refs > 0 then ps[i := ps[i].(state := Draining)]
    else Trimmed(ps[..i] + ps[i + 1..], n)
  }

  /**
    One pruning pass. It ranges over the slice as it was at the start, while each removal shifts the shared
    backing array: `ps` is the list, `backing` the array behind it, of which `ps` is always a prefix.
  */
  function PrunePass(ps: seq<HotPair>, backing: seq<HotPair>, i: nat): seq<HotPair>
    requires |ps| <= |backing| && i <= |backing|
    decreases |backing| - i
  {
    if i == |backing| then ps
    else if backing[i].state == Draining && backing[i].refs <= 0 && Listed(ps, backing[i].key) then
      var left := Without(ps, backing[i].key);
      PrunePass(left, left + backing[|left|..], i + 1)
    else PrunePass(ps, backing, i + 1)
  }

  function Trim(w: Warmer, n: int): Warmer {
    if n <= 0 then w else Ensure(Settle(Trimmed(w.pairs, n), w.primary))
  }

  // ---------------------------------------------------------------- what a section may do to the list

  /** The same pair, possibly sent draining. */
  predicate Same(p: HotPair, q: HotPair) {
    q == p || (q == p.(state := Draining) && p.state != Closed)
  }

  /** `b` is `a` with some idle pairs gone and some pairs sent draining: nothing in use is removed. */
  ghost predicate Shrinks(a: seq<HotPair>, b: seq<HotPair>) {
    if a == [] then b == []
    else
      || (b != [] && Same(a[0], b[0]) && Shrinks(a[1..], b[1..]))
      || (a[0].refs <= 0 && Shrinks(a[1..], b))
  }

  lemma {:induction false} ShrinksRefl(a: seq<HotPair>)
    ensures Shrinks(a, a)
  {
    if a != [] { ShrinksRefl(a[1..]); }
  }

  lemma {:induction false} ShrinksTrans(a: seq<HotPair>, b: seq<HotPair>, c: seq<HotPair>)
    requires Shrinks(a, b) && Shrinks(b, c)
    ensures Shrinks(a, c)
    decreases |a| + |b|
  {
    if a == [] {
    } else if b != [] && Same(a[0], b[0]) && Shrinks(a[1..], b[1..]) {
      if c != [] && Same(b[0], c[0]) && Shrinks(b[1..], c[1..]) {
        ShrinksTrans(a[1..], b[1..], c[1..]);
      } else {
        ShrinksTrans(a[1..], b[1..], c);
      }
    } else {
      ShrinksTrans(a[1..], b, c);
    }
  }

  /** Every surviving pair was there before; every pair in use survives. */
  lemma {:induction false} ShrinksMembers(a: seq<HotPair>, b: seq<HotPair>)
    requires Shrinks(a, b)
    ensures forall q :: q in b ==> exists p :: p in a && Same(p, q)
    ensures forall p :: p in a && p.refs > 0 ==> exists q :: q in b && Same(p, q)
  {
    if a == [] {
    } else if b != [] && Same(a[0], b[0]) && Shrinks(a[1..], b[1..]) {
      ShrinksMembers(a[1..], b[1..]);
      assert a == [a[0]] + a[1..] && b == [b[0]] + b[1..];
      forall q | q in b ensures exists p :: p in a && Same(p, q) {
        if q == b[0] {
          assert a[0] in a && Same(a[0], q);
        } else {
          var p :| p in a[1..] && Same(p, q);
          assert p in a;
        }
      }
    } else {
      ShrinksMembers(a[1..], b);
      assert a == [a[0]] + a[1..];
    }
  }

  lemma {:induction false} ShrinksUnique(a: seq<HotPair>, b: seq<HotPair>)
    requires Shrinks(a, b) && UniqueKeys(a)
    ensures UniqueKeys(b)
  {
    if a == [] {
    } else if b != [] && Same(a[0], b[0]) && Shrinks(a[1..], b[1..]) {
      ShrinksUnique(a[1..], b[1..]);
      ShrinksMembers(a[1..], b[1..]);
      forall j | 1 <= j < |b| ensures b[0].key != b[j].key {
        assert b[j] in b[1..];
        var p :| p in a[1..] && Same(p, b[j]);
      }
    } else {
      ShrinksUnique(a[1..], b);
    }
  }

  lemma {:induction false} IndexOfIs(ps: seq<HotPair>, i: nat)
    requires UniqueKeys(ps) && i < |ps|
    ensures IndexOf(ps, ps[i].key) == i
  {
    var k := IndexOf(ps, ps[i].key);
    assert k <= i;
  }

  /** A first Ready pair that is still Ready is still the first. */
  lemma {:induction false} ShrinksFirst(a: seq<HotPair>, b: seq<HotPair>, key: string)
    requires Shrinks(a, b) && UniqueKeys(a) && FirstReady(a) == Some(key) && IsReady(b, key)
    ensures FirstReady(b) == Some(key)
  {
    assert a != [];
    if b != [] && Same(a[0], b[0]) && Shrinks(a[1..], b[1..]) {
      if a[0].state != Ready {
        ShrinksFirst(a[1..], b[1..], key);
      }
    } else {
      ShrinksMembers(a[1..], b);
      var q := b[IndexOf(b, key)];
      assert q in b;
      var p :| p in a[1..] && Same(p, q);
      if a[0].state != Ready {
        ShrinksFirst(a[1..], b, key);
      }
    }
  }

  lemma {:induction false} ReadyMeansFirst(ps: seq<HotPair>, key: string)
    requires IsReady(ps, key)
    ensures Readies(ps) != []
  {
    ReadiesAt(ps, IndexOf(ps, key));
  }

  lemma {:induction false} ReadiesAt(ps: seq<HotPair>, i: nat)
    requires i < |ps| && ps[i].state == Ready
    ensures ps[i] in Readies(ps)
  {
    if i > 0 { ReadiesAt(ps[1..], i - 1); }
  }

  lemma {:induction false} ReadiesAreListed(ps: seq<HotPair>)
    ensures forall p :: p in Readies(ps) ==> p in ps && p.state == Ready
  {
    if ps != [] { ReadiesAreListed(ps[1..]); }
  }

  lemma {:induction false} FirstReadyIsReady(ps: seq<HotPair>)
    requires UniqueKeys(ps)
    ensures FirstReady(ps).Some? ==> IsReady(ps, FirstReady(ps).value)
  {
    ReadiesAreListed(ps);
    if Readies(ps) != [] {
      assert Readies(ps)[0] in ps;
      var i :| 0 <= i < |ps| && ps[i] == Readies(ps)[0];
      IndexOfIs(ps, i);
    }
  }

  /** Electing makes the invariant whole, whatever the primary was before. */
  lemma {:induction false} EnsureElects(w: Warmer)
    requires Weak(w)
    ensures Elected(Ensure(w)) && Ensure(w).pairs == w.pairs && Ensure(w).primary == FirstReady(w.pairs)
  {
    FirstReadyIsReady(w.pairs);
  }

  lemma {:induction false} ElectedIsWeak(w: Warmer)
    requires Elected(w)
    ensures Weak(w)
  {
    if w.primary.Some? && IsReady(w.pairs, w.primary.value) {
      ReadyMeansFirst(w.pairs, w.primary.value);
    }
  }

  /** Any shrinking of the list keeps the weak invariant, once a vanished primary is forgotten. */
  lemma {:induction false} ShrinkKeepsWeak(w: Warmer, ps: seq<HotPair>)
    requires Weak(w) && Shrinks(w.pairs, ps)
    ensures Weak(Settle(ps, w.primary))
    ensures Elected(Ensure(Settle(ps, w.primary)))
  {
    ShrinksUnique(w.pairs, ps);
    if w.primary.Some? && IsReady(ps, w.primary.value) {
      var key := w.primary.value;
      ShrinksMembers(w.pairs, ps);
      var q := ps[IndexOf(ps, key)];
      assert q in ps;
      var p :| p in w.pairs && Same(p, q);
      var i :| 0 <= i < |w.pairs| && w.pairs[i] == p;
      IndexOfIs(w.pairs, i);
      ShrinksFirst(w.pairs, ps, key);
    }
    EnsureElects(Settle(ps, w.primary));
  }

  // ---------------------------------------------------------------- each section shrinks or reorders

  lemma {:induction false} DrainedShrinks(ps: seq<HotPair>, ch: Channel)
    ensures Shrinks(ps, Drained(ps, ch))
  {
    if ps != [] {
      DrainedShrinks(ps[1..], ch);
      var rest := Drained(ps[1..], ch);
      assert Drained(ps, ch) == rest || (Drained(ps, ch) != [] && Drained(ps, ch)[1..] == rest);
    }
  }

  lemma {:induction false} DedupedShrinks(ps: seq<HotPair>, seen: set<Pair>)
    ensures Shrinks(ps, Deduped(ps, seen))
  {
    if ps != [] {
      DedupedShrinks(ps[1..], seen);
      DedupedShrinks(ps[1..], seen + {Pair(ps[0].up, ps[0].down)});
      var d := Deduped(ps, seen);
      assert d == Deduped(ps[1..], seen)
          || (d != [] && (d[1..] == Deduped(ps[1..], seen) || d[1..] == Deduped(ps[1..], seen + {Pair(ps[0].up, ps[0].down)})));
    }
  }

  lemma {:induction false} DropShrinks(ps: seq<HotPair>, i: nat)
    requires i < |ps|
    ensures ps[i].refs <= 0 ==> Shrinks(ps, ps[..i] + ps[i + 1..])
    ensures ps[i].state != Closed ==> Shrinks(ps, ps[i := ps[i].(state := Draining)])
  {
    ShrinksRefl(ps[1..]);
    if i == 0 {
      assert ps[..0] + ps[1..] == ps[1..];
      assert ps[0 := ps[0].(state := Draining)][1..] == ps[1..];
    } else {
      DropShrinks(ps[1..], i - 1);
      assert (ps[..i] + ps[i + 1..])[1..] == ps[1..][..i - 1] + ps[1..][i..];
      assert ps[i := ps[i].(state := Draining)][1..] == ps[1..][i - 1 := ps[i].(state := Draining)];
    }
  }

  lemma {:induction false} TrimmedShrinks(ps: seq<HotPair>, n: nat)
    ensures Shrinks(ps, Trimmed(ps, n))
    decreases |ps|
  {
    var i := LastReady(ps);
    if |Readies(ps)| <= n || i < 0 {
      ShrinksRefl(ps);
    } else {
      DropShrinks(ps, i);
      if ps[i].refs <= 0 {
        TrimmedShrinks(ps[..i] + ps[i + 1..], n);
        ShrinksTrans(ps, ps[..i] + ps[i + 1..], Trimmed(ps, n));
      }
    }
  }

  lemma {:induction false} StillListed(ps: seq<HotPair>, key: string, p: HotPair)
    requires UniqueKeys(ps) && (Listed(ps, p.key) ==> p in ps) && Listed(Without(ps, key), p.key)
    ensures p in Without(ps, key)
  {
    var left := Without(ps, key);
    var l := IndexOf(left, p.key);
    var at := IndexOf(ps, key);
    if at < |ps| {
      WithoutIs(ps, key);
      ListedAt(ps, if l < at then l else l + 1);
      assert p in ps[..at] || p in ps[at + 1..];
    }
  }

  /** An array entry is either the listed pair with its key or a stale copy of a pair no longer listed. */
  ghost predicate Backs(ps: seq<HotPair>, backing: seq<HotPair>) {
    && UniqueKeys(ps) && |ps| <= |backing|
    && forall k :: 0 <= k < |backing| && Listed(ps, backing[k].key) ==> backing[k] in ps
  }

  lemma {:induction false} RemovalKeepsBacks(ps: seq<HotPair>, backing: seq<HotPair>, key: string)
    requires Backs(ps, backing)
    ensures var left := Without(ps, key); Backs(left, left + backing[|left|..])
  {
    var left := Without(ps, key);
    var next := left + backing[|left|..];
    WithoutIs(ps, key);
    forall k | 0 <= k < |next| && Listed(left, next[k].key) ensures next[k] in left {
      if k >= |left| {
        StillListed(ps, key, backing[k]);
      }
    }
  }

  /** A pass removes idle draining pairs only. */
  lemma {:induction false} PrunePassShrinks(ps: seq<HotPair>, backing: seq<HotPair>, i: nat)
    requires i <= |backing| && Backs(ps, backing)
    ensures Shrinks(ps, PrunePass(ps, backing, i))
    decreases |backing| - i
  {
    if i == |backing| {
      ShrinksRefl(ps);
    } else if backing[i].state == Draining && backing[i].refs <= 0 && Listed(ps, backing[i].key) {
      var left := Without(ps, backing[i].key);
      var j :| 0 <= j < |ps| && ps[j] == backing[i];
      IndexOfIs(ps, j);
      DropShrinks(ps, j);
      RemovalKeepsBacks(ps, backing, backing[i].key);
      PrunePassShrinks(left, left + backing[|left|..], i + 1);
      ShrinksTrans(ps, left, PrunePass(ps, backing, i));
    } else {
      PrunePassShrinks(ps, backing, i + 1);
    }
  }

  predicate IdleDraining(p: HotPair) {
    p.state == Draining && p.refs <= 0
  }

  /**
    What a pass makes of the slots it has still to visit: the neighbour of a removed pair moves into the slot
    just visited and is stepped over, except the last one, which the stale end of the slice shows again.
  */
  function Swept(ps: seq<HotPair>): seq<HotPair> {
    if ps == [] then []
    else if !IdleDraining(ps[0]) then [ps[0]] + Swept(ps[1..])
    else if |ps| == 1 then []
    else if |ps| == 2 then if IdleDraining(ps[1]) then [] else [ps[1]]
    else [ps[1]] + Swept(ps[2..])
  }

  /** One more slot beyond the list: the stale pair is removed if it is listed and can be. */
  lemma {:induction false} StaleSlot(ps: seq<HotPair>, backing: seq<HotPair>, i: nat, z: HotPair) returns (left: seq<HotPair>, next: seq<HotPair>)
    requires UniqueKeys(ps) && |ps| <= |backing| && |ps| <= i < |backing|
    requires forall k :: i <= k < |backing| ==> backing[k] == z
    ensures left == if IdleDraining(z) then Without(ps, z.key) else ps
    ensures UniqueKeys(left) && |left| <= |ps| && (IdleDraining(z) ==> !Listed(left, z.key))
    ensures |next| == |backing| && forall k :: i + 1 <= k < |next| ==> next[k] == z
    ensures PrunePass(ps, backing, i) == PrunePass(left, next, i + 1)
  {
    assert backing[i] == z;
    WithoutIs(ps, z.key);
    if IdleDraining(z) && Listed(ps, z.key) {
      left := Without(ps, z.key);
      next := left + backing[|left|..];
    } else {
      left, next := ps, backing;
      NotListedIfIdle(ps, z);
    }
  }

  lemma {:induction false} NotListedIfIdle(ps: seq<HotPair>, z: HotPair)
    requires !(IdleDraining(z) && Listed(ps, z.key))
    ensures IdleDraining(z) ==> Without(ps, z.key) == ps
  {
    if IdleDraining(z) { NotListedWithout(ps, z.key); }
  }

  /** Beyond the list every remaining slot shows the same pair: it is removed if it can be, once. */
  lemma {:induction false} StaleSlots(ps: seq<HotPair>, backing: seq<HotPair>, i: nat, z: HotPair)
    requires UniqueKeys(ps) && |ps| <= |backing| && |ps| <= i <= |backing|
    requires forall k :: i <= k < |backing| ==> backing[k] == z
    ensures PrunePass(ps, backing, i) == if i < |backing| && IdleDraining(z) then Without(ps, z.key) else ps
    decreases |backing| - i
  {
    if i < |backing| {
      var left, next := StaleSlot(ps, backing, i, z);
      StaleSlots(left, next, i + 1, z);
      if IdleDraining(z) { NotListedWithout(left, z.key); }
    }
  }

  lemma {:induction false} NotListedWithout(ps: seq<HotPair>, key: string)
    requires !Listed(ps, key)
    ensures Without(ps, key) == ps
  {
  }

  lemma {:induction false} CutAt(ps: seq<HotPair>, i: nat)
    requires UniqueKeys(ps) && i < |ps|
    ensures Listed(ps, ps[i].key) && Without(ps, ps[i].key) == ps[..i] + ps[i + 1..]
    ensures UniqueKeys(Without(ps, ps[i].key)) && !Listed(Without(ps, ps[i].key), ps[i].key)
  {
    IndexOfIs(ps, i);
    WithoutIs(ps, ps[i].key);
  }

  /** From slot `i` on, a pass keeps what is before and sweeps what is left. */
  lemma {:induction false} PassSweeps(ps: seq<HotPair>, backing: seq<HotPair>, i: nat)
    requires UniqueKeys(ps) && i < |ps| <= |backing| && ps <= backing
    requires forall k :: |ps| <= k < |backing| ==> backing[k] == ps[|ps| - 1]
    ensures PrunePass(ps, backing, i) == ps[..i] + Swept(ps[i..])
    decreases |backing| - i
  {
    var z := ps[|ps| - 1];
    assert backing[i] == ps[i] && ps[i..][0] == ps[i];
    if !IdleDraining(ps[i]) {
      assert PrunePass(ps, backing, i) == PrunePass(ps, backing, i + 1);
      assert ps[i..][1..] == ps[i + 1..];
      if i + 1 < |ps| {
        PassSweeps(ps, backing, i + 1);
        assert ps[..i + 1] + Swept(ps[i + 1..]) == ps[..i] + ([ps[i]] + Swept(ps[i + 1..]));
      } else {
        StaleSlots(ps, backing, i + 1, z);
        assert ps == ps[..i] + ([ps[i]] + []);
      }
    } else {
      SweepCuts(ps, backing, i);
    }
  }

  /** One removal at slot `i`: what is behind moves forward, and the end of the slice shows the last pair once more. */
  lemma {:induction false} CutStep(ps: seq<HotPair>, backing: seq<HotPair>, i: nat) returns (left: seq<HotPair>, next: seq<HotPair>)
    requires UniqueKeys(ps) && i < |ps| <= |backing| && ps <= backing && IdleDraining(ps[i])
    requires forall k :: |ps| <= k < |backing| ==> backing[k] == ps[|ps| - 1]
    ensures left == ps[..i] + ps[i + 1..] && UniqueKeys(left) && !Listed(left, ps[i].key)
    ensures |next| == |backing| && left <= next && forall k :: |left| <= k < |next| ==> next[k] == ps[|ps| - 1]
    ensures PrunePass(ps, backing, i) == PrunePass(left, next, i + 1)
  {
    CutAt(ps, i);
    left := Without(ps, ps[i].key);
    next := left + backing[|left|..];
    assert backing[i] == ps[i];
  }

  lemma {:induction false} CutLast(ps: seq<HotPair>, backing: seq<HotPair>, i: nat)
    requires UniqueKeys(ps) && i < |ps| <= |backing| && ps <= backing && IdleDraining(ps[i]) && |ps| == i + 1
    requires forall k :: |ps| <= k < |backing| ==> backing[k] == ps[|ps| - 1]
    ensures PrunePass(ps, backing, i) == ps[..i]
  {
    var left, next := CutStep(ps, backing, i);
    StaleSlots(left, next, i + 1, ps[i]);
    NotListedWithout(left, ps[i].key);
    assert left == ps[..i];
  }

  lemma {:induction false} CutLastButOne(ps: seq<HotPair>, backing: seq<HotPair>, i: nat)
    requires UniqueKeys(ps) && i < |ps| <= |backing| && ps <= backing && IdleDraining(ps[i]) && |ps| == i + 2
    requires forall k :: |ps| <= k < |backing| ==> backing[k] == ps[|ps| - 1]
    ensures PrunePass(ps, backing, i) == ps[..i] + if IdleDraining(ps[i + 1]) then [] else [ps[i + 1]]
  {
    var z := ps[i + 1];
    var left, next := CutStep(ps, backing, i);
    StaleSlots(left, next, i + 1, z);
    assert left == ps[..i] + [z] && left[i] == z;
    if IdleDraining(z) {
      CutAt(left, i);
      assert left[..i] + left[i + 1..] == ps[..i] + [];
    }
  }

  lemma {:induction false} SweepCuts(ps: seq<HotPair>, backing: seq<HotPair>, i: nat)
    requires UniqueKeys(ps) && i < |ps| <= |backing| && ps <= backing && IdleDraining(ps[i])
    requires forall k :: |ps| <= k < |backing| ==> backing[k] == ps[|ps| - 1]
    ensures PrunePass(ps, backing, i) == ps[..i] + Swept(ps[i..])
    decreases |backing| - i, 0
  {
    if |ps| == i + 1 {
      CutLast(ps, backing, i);
      assert ps[i..] == [ps[i]] && ps[..i] + [] == ps[..i];
    } else if |ps| == i + 2 {
      CutLastButOne(ps, backing, i);
      assert ps[i..] == [ps[i], ps[i + 1]];
    } else {
      var left, next := CutStep(ps, backing, i);
      PassSweeps(left, next, i + 1);
      SkipsNeighbour(ps, left, i);
    }
  }

  lemma {:induction false} SkipsNeighbour(ps: seq<HotPair>, left: seq<HotPair>, i: nat)
    requires i + 2 < |ps| && IdleDraining(ps[i]) && left == ps[..i] + ps[i + 1..]
    ensures left[..i + 1] + Swept(left[i + 1..]) == ps[..i] + Swept(ps[i..])
  {
    var rest := Swept(ps[i + 2..]);
    assert left[..i + 1] == ps[..i] + [ps[i + 1]] && left[i + 1..] == ps[i + 2..];
    assert ps[i..][0] == ps[i] && ps[i..][1] == ps[i + 1] && ps[i..][2..] == ps[i + 2..];
    assert (ps[..i] + [ps[i + 1]]) + rest == ps[..i] + ([ps[i + 1]] + rest);
  }

  ghost predicate NoneIdle(ps: seq<HotPair>) {
    forall k :: 0 <= k < |ps| ==> !IdleDraining(ps[k])
  }

  /** Two idle draining pairs side by side, the second not the last of the list. */
  ghost predicate Neighbours(ps: seq<HotPair>) {
    exists k: nat :: k + 2 < |ps| && IdleDraining(ps[k]) && IdleDraining(ps[k + 1])
  }

  lemma {:induction false} NoneIdleCons(p: HotPair, rest: seq<HotPair>)
    ensures NoneIdle([p] + rest) <==> !IdleDraining(p) && NoneIdle(rest)
  {
    assert ([p] + rest)[0] == p && forall k :: 0 <= k < |rest| ==> ([p] + rest)[k + 1] == rest[k];
  }

  /** A first pair that is not idle is nobody's neighbour. */
  lemma {:induction false} NeighboursRest(ps: seq<HotPair>)
    requires ps != [] && !IdleDraining(ps[0])
    ensures Neighbours(ps) <==> Neighbours(ps[1..])
  {
    if Neighbours(ps) {
      var k: nat :| k + 2 < |ps| && IdleDraining(ps[k]) && IdleDraining(ps[k + 1]);
      assert ps[1..][k - 1] == ps[k] && ps[1..][k - 1 + 1] == ps[k + 1];
    }
    if Neighbours(ps[1..]) {
      var k: nat :| k + 2 < |ps[1..]| && IdleDraining(ps[1..][k]) && IdleDraining(ps[1..][k + 1]);
      assert ps[k + 1] == ps[1..][k] && ps[k + 1 + 1] == ps[1..][k + 1];
    }
  }

  lemma {:induction false} SweptIff(ps: seq<HotPair>)
    ensures NoneIdle(Swept(ps)) <==> !Neighbours(ps)
    decreases |ps|
  {
    if ps == [] {
    } else if !IdleDraining(ps[0]) {
      SweptIff(ps[1..]);
      NoneIdleCons(ps[0], Swept(ps[1..]));
      NeighboursRest(ps);
    } else if |ps| > 2 {
      SweptIff(ps[2..]);
      NoneIdleCons(ps[1], Swept(ps[2..]));
      if IdleDraining(ps[1]) {
        assert IdleDraining(ps[0]) && IdleDraining(ps[0 + 1]);
      } else {
        PastFirst(ps);
        NeighboursRest(ps[1..]);
        assert ps[1..][1..] == ps[2..];
      }
    }
  }

  lemma {:induction false} PastFirst(ps: seq<HotPair>)
    requires |ps| > 1 && !IdleDraining(ps[1])
    ensures Neighbours(ps) <==> Neighbours(ps[1..])
  {
    if Neighbours(ps) {
      var k: nat :| k + 2 < |ps| && IdleDraining(ps[k]) && IdleDraining(ps[k + 1]);
      assert ps[1..][k - 1] == ps[k] && ps[1..][k - 1 + 1] == ps[k + 1];
    }
    if Neighbours(ps[1..]) {
      var k: nat :| k + 2 < |ps[1..]| && IdleDraining(ps[1..][k]) && IdleDraining(ps[1..][k + 1]);
      assert ps[k + 1] == ps[1..][k] && ps[k + 1 + 1] == ps[1..][k + 1];
    }
  }

  /**
    A pass over any list leaves no idle draining pair exactly when no two of them stand side by side with
    another pair behind them.
  */
  lemma {:induction false} PrunePassCompleteIff(ps: seq<HotPair>)
    requires UniqueKeys(ps)
    ensures NoneIdle(PrunePass(ps, ps, 0)) <==> !Neighbours(ps)
  {
    if ps != [] {
      PassSweeps(ps, ps, 0);
      assert ps[..0] + Swept(ps[0..]) == Swept(ps[0..]) && ps[0..] == ps;
    }
    SweptIff(ps);
  }

  /** It can step over the neighbour of a removed pair: of three idle draining pairs the middle one is left. */
  lemma {:induction false} PrunePassSkips(a: HotPair, b: HotPair, c: HotPair)
    requires a.key != b.key && b.key != c.key && a.key != c.key
    requires a.state == b.state == c.state == Draining && a.refs <= 0 && b.refs <= 0 && c.refs <= 0
    ensures PrunePass([a, b, c], [a, b, c], 0) == [b]
  {
    assert Without([a, b, c], a.key) == [b, c];
    assert [b, c] + [a, b, c][2..] == [b, c, c];
    assert [b, c][1..] == [c] && [c][1..] == [];
    assert IndexOf([b, c], c.key) == 1;
    assert Without([b, c], c.key) == [b];
    assert [b] + [b, c, c][1..] == [b, c, c];
    assert !Listed([b], c.key);
    assert PrunePass([b], [b, c, c], 3) == [b];
    assert PrunePass([b], [b, c, c], 2) == [b];
    assert PrunePass([b, c], [b, c, c], 1) == [b];
  }

  /** Taking one pair out keeps the others apart. */
  lemma {:induction false} WithoutIs(ps: seq<HotPair>, key: string)
    requires UniqueKeys(ps)
    ensures UniqueKeys(Without(ps, key)) && !Listed(Without(ps, key), key)
  {
    var i := IndexOf(ps, key);
    var r := Without(ps, key);
    if i < |ps| {
      assert forall k :: 0 <= k < |r| ==> r[k] == ps[if k < i then k else k + 1];
    }
  }

  lemma {:induction false} WithoutListsNoMore(ps: seq<HotPair>, key: string, other: string)
    requires !Listed(ps, other)
    ensures !Listed(Without(ps, key), other)
  {
    assert forall k :: 0 <= k < |ps| ==> ps[k].key != other;
  }

  lemma {:induction false} NotListedCons(p: HotPair, rest: seq<HotPair>, key: string)
    requires p.key != key && !Listed(rest, key)
    ensures !Listed([p] + rest, key)
  {
    assert ([p] + rest)[1..] == rest;
  }

  lemma {:induction false} ListedAt(ps: seq<HotPair>, i: nat)
    requires i < |ps|
    ensures Listed(ps, ps[i].key)
  {
    assert IndexOf(ps, ps[i].key) <= i;
  }

  /** Whatever is moved to the front becomes primary, and if it is Ready it is the first Ready. */
  lemma {:induction false} FrontIsWeak(p: HotPair, rest: seq<HotPair>)
    requires UniqueKeys(rest) && !Listed(rest, p.key)
    ensures Weak(Warmer([p] + rest, Some(p.key)))
  {
    var ps := [p] + rest;
    forall j | 1 <= j < |ps| ensures ps[0].key != ps[j].key {
      ListedAt(rest, j - 1);
    }
    assert forall i, j :: 1 <= i < j < |ps| ==> ps[i].key == rest[i - 1].key && ps[j].key == rest[j - 1].key;
    assert ps[0] == p;
  }

  lemma {:induction false} PromoteKeepsWeak(w: Warmer, key: string)
    requires Weak(w)
    ensures Weak(Promote(w, key))
  {
    WithoutIs(w.pairs, key);
    if Listed(w.pairs, key) {
      FrontIsWeak(w.pairs[IndexOf(w.pairs, key)], Without(w.pairs, key));
    }
  }

  /** With the weak invariant, an election is whole exactly when nobody can serve or the primary can. */
  lemma {:induction false} ElectedIff(w: Warmer)
    requires Weak(w)
    ensures Elected(w) <==> Readies(w.pairs) == [] || (w.primary.Some? && IsReady(w.pairs, w.primary.value))
  {
    FirstReadyIsReady(w.pairs);
  }

  lemma {:induction false} ReadiesIff(ps: seq<HotPair>)
    ensures Readies(ps) != [] <==> exists p :: p in ps && p.state == Ready
  {
    ReadiesAreListed(ps);
    if Readies(ps) != [] {
      assert Readies(ps)[0] in ps;
    }
    if exists p :: p in ps && p.state == Ready {
      var p :| p in ps && p.state == Ready;
      var i :| 0 <= i < |ps| && ps[i] == p;
      ReadiesAt(ps, i);
    }
  }

  lemma {:induction false} WithoutMembers(ps: seq<HotPair>, key: string)
    requires Listed(ps, key)
    ensures forall p :: p in ps <==> p in [ps[IndexOf(ps, key)]] + Without(ps, key)
  {
    var i := IndexOf(ps, key);
    assert ps == ps[..i] + [ps[i]] + ps[i + 1..];
  }

  /** A pair brought to the front and made primary settles the election exactly when it can serve, or nobody can. */
  lemma {:induction false} FrontElectsIff(w: Warmer, t: Warmer, key: string)
    requires Weak(t) && Listed(w.pairs, key) && t.primary == Some(key)
    requires t.pairs != [] && t.pairs[0] == w.pairs[IndexOf(w.pairs, key)] && forall p :: p in w.pairs <==> p in t.pairs
    ensures Elected(t) <==> IsReady(w.pairs, key) || Readies(w.pairs) == []
  {
    ElectedIff(t);
    ReadiesIff(w.pairs);
    ReadiesIff(t.pairs);
    IndexOfIs(t.pairs, 0);
  }

  lemma {:induction false} PromoteFronts(w: Warmer, key: string)
    requires Weak(w) && Listed(w.pairs, key)
    ensures Elected(Promote(w, key)) <==> IsReady(w.pairs, key) || Readies(w.pairs) == []
  {
    PromoteKeepsWeak(w, key);
    WithoutMembers(w.pairs, key);
    FrontElectsIff(w, Promote(w, key), key);
  }

  /** Promoting elects exactly when the promoted pair can serve, or nobody can. */
  lemma {:induction false} PromoteElectsIff(w: Warmer, key: string)
    requires Elected(w)
    ensures Elected(Promote(w, key)) <==> !Listed(w.pairs, key) || IsReady(w.pairs, key) || Readies(w.pairs) == []
  {
    ElectedIsWeak(w);
    if Listed(w.pairs, key) {
      PromoteFronts(w, key);
    }
  }

  lemma {:induction false} TwoFrontsAreWeak(p: HotPair, q: HotPair, rest: seq<HotPair>)
    requires UniqueKeys(rest) && !Listed(rest, p.key) && !Listed(rest, q.key) && p.key != q.key
    ensures Weak(Warmer([p, q] + rest, Some(p.key)))
  {
    FrontIsWeak(q, rest);
    NotListedCons(q, rest, p.key);
    FrontIsWeak(p, [q] + rest);
    assert [p, q] + rest == [p] + ([q] + rest);
  }

  lemma {:induction false} ReplaceKeepsWeak(w: Warmer, key: string, oldHead: Option<string>)
    requires Weak(w)
    ensures Weak(Replace(w, key, oldHead))
  {
    var i := IndexOf(w.pairs, key);
    if i < |w.pairs| {
      var rest := Without(w.pairs, key);
      WithoutIs(w.pairs, key);
      if oldHead.Some? && oldHead.value != key && IsReady(rest, oldHead.value) {
        WithoutIs(rest, oldHead.value);
        WithoutListsNoMore(rest, oldHead.value, key);
        TwoFrontsAreWeak(w.pairs[i], rest[IndexOf(rest, oldHead.value)], Without(rest, oldHead.value));
      } else {
        FrontIsWeak(w.pairs[i], rest);
      }
    }
  }

  lemma {:induction false} ReplaceMembers(w: Warmer, k: string, oldHead: Option<string>)
    requires Listed(w.pairs, k)
    ensures forall p :: p in w.pairs <==> p in Replace(w, k, oldHead).pairs
  {
    WithoutMembers(w.pairs, k);
    var rest := Without(w.pairs, k);
    if oldHead.Some? && oldHead.value != k && IsReady(rest, oldHead.value) {
      WithoutMembers(rest, oldHead.value);
    }
  }

  lemma {:induction false} ReplaceFronts(w: Warmer, key: string, oldHead: Option<string>)
    requires Weak(w) && Listed(w.pairs, key)
    ensures Elected(Replace(w, key, oldHead)) <==> IsReady(w.pairs, key) || Readies(w.pairs) == []
  {
    ReplaceKeepsWeak(w, key, oldHead);
    ReplaceMembers(w, key, oldHead);
    FrontElectsIff(w, Replace(w, key, oldHead), key);
  }

  /** Replacing the head elects exactly when the candidate can serve, or nobody can. */
  lemma {:induction false} ReplaceElectsIff(w: Warmer, key: string, oldHead: Option<string>)
    requires Elected(w)
    ensures Elected(Replace(w, key, oldHead)) <==> !Listed(w.pairs, key) || IsReady(w.pairs, key) || Readies(w.pairs) == []
  {
    ElectedIsWeak(w);
    if Listed(w.pairs, key) {
      ReplaceFronts(w, key, oldHead);
    }
  }

  lemma {:induction false} ReadiesAppend(a: seq<HotPair>, b: seq<HotPair>)
    ensures Readies(a + b) == Readies(a) + Readies(b)
  {
    if a == [] {
      assert a + b == b;
    } else {
      ReadiesAppend(a[1..], b);
      assert (a + b)[1..] == a[1..] + b;
      var first := if a[0].state == Ready then [a[0]] else [];
      assert Readies(a + b) == first + Readies(a[1..] + b);
      assert Readies(a) == first + Readies(a[1..]);
    }
  }

  lemma {:induction false} JoinElects(w: Warmer, key: string, race: Pair)
    requires Elected(w) && !Listed(w.pairs, key)
    ensures Elected(Join(w, key, race))
    ensures Readies(Join(w, key, race).pairs) == Readies(w.pairs) + [HotPair(key, race.up, race.down, Ready, 0)]
  {
    var p := HotPair(key, race.up, race.down, Ready, 0);
    var t := Join(w, key, race);
    ReadiesAppend(w.pairs, [p]);
    assert Readies([p]) == [p] by { assert [p][1..] == []; }
    forall i | 0 <= i < |w.pairs| ensures w.pairs[i].key != key {
      ListedAt(w.pairs, i);
    }
    assert t.pairs[|w.pairs|] == p;
    ElectedIsWeak(w);
    if w.primary.Some? && IsReady(w.pairs, w.primary.value) {
      var i := IndexOf(w.pairs, w.primary.value);
      assert t.pairs[i] == w.pairs[i];
      ListedAt(t.pairs, i);
    } else {
      ListedAt(t.pairs, |w.pairs|);
      FirstReadyIsReady(w.pairs);
    }
  }

  /** Elections look at keys and states only, never at reference counts. */
  lemma {:induction false} RefsDoNotVote(a: seq<HotPair>, b: seq<HotPair>)
    requires |a| == |b| && forall i :: 0 <= i < |a| ==> a[i].key == b[i].key && a[i].state == b[i].state
    ensures FirstReady(a) == FirstReady(b) && |Readies(a)| == |Readies(b)|
    ensures forall key :: IndexOf(a, key) == IndexOf(b, key)
  {
    SameKeys(a, b);
    if a != [] { RefsDoNotVote(a[1..], b[1..]); }
  }

  lemma {:induction false} AddRefKeeps(w: Warmer, key: string, d: int)
    ensures Weak(w) ==> Weak(AddRef(w, key, d))
    ensures Elected(w) ==> Elected(AddRef(w, key, d))
    ensures forall k :: IsReady(w.pairs, k) <==> IsReady(AddRef(w, key, d).pairs, k)
  {
    RefsDoNotVote(w.pairs, AddRef(w, key, d).pairs);
  }

  lemma {:induction false} ReleaseKeeps(w: Warmer, key: string)
    ensures Weak(w) ==> Weak(Release(w, key))
    ensures Elected(w) ==> Elected(Release(w, key))
  {
    AddRefKeeps(w, key, -1);
    if Weak(w) {
      var w' := AddRef(w, key, -1);
      var i := IndexOf(w'.pairs, key);
      if i < |w'.pairs| && w'.pairs[i].refs <= 0 {
        DropShrinks(w'.pairs, i);
        ShrinkKeepsWeak(w', Without(w'.pairs, key));
        ElectedIsWeak(Ensure(Remove(w', key)));
      }
    }
    if Elected(w) { ElectedIsWeak(w); }
  }

  lemma {:induction false} DiscardKeepsWeak(w: Warmer, key: string)
    requires Weak(w) && (Listed(w.pairs, key) ==> w.pairs[IndexOf(w.pairs, key)].state != Closed)
    ensures Weak(Discard(w, key))
  {
    var i := IndexOf(w.pairs, key);
    if i < |w.pairs| {
      DropShrinks(w.pairs, i);
      var ps := if w.pairs[i].refs > 0 then w.pairs[i := w.pairs[i].(state := Draining)] else Without(w.pairs, key);
      ShrinkKeepsWeak(w, ps);
      if w.pairs[i].refs > 0 {
        if w.primary.Some? {
          var j := IndexOf(w.pairs, w.primary.value);
          assert ps[j].key == w.primary.value;
          ListedAt(ps, j);
        }
      } else {
        ElectedIsWeak(Ensure(Remove(w, key)));
      }
    } else {
      EnsureElects(w);
      ElectedIsWeak(Ensure(w));
    }
  }

  predicate OtherReady(ps: seq<HotPair>, key: string) {
    exists j :: 0 <= j < |ps| && ps[j].state == Ready && ps[j].key != key
  }

  predicate InUse(ps: seq<HotPair>, key: string) {
    Listed(ps, key) && ps[IndexOf(ps, key)].refs > 0
  }

  /** Sending one pair draining leaves the others as they are. */
  lemma {:induction false} DrainedInPlace(ps: seq<HotPair>, key: string, qs: seq<HotPair>)
    requires UniqueKeys(ps) && Listed(ps, key)
    requires qs == (var i := IndexOf(ps, key); ps[i := ps[i].(state := Draining)])
    ensures forall k :: IsReady(qs, k) <==> IsReady(ps, k) && k != key
    ensures Readies(qs) != [] <==> OtherReady(ps, key)
  {
    var i := IndexOf(ps, key);
    SameKeys(ps, qs);
    if OtherReady(ps, key) {
      var j :| 0 <= j < |ps| && ps[j].state == Ready && ps[j].key != key;
      assert qs[j] == ps[j];
      ReadiesAt(qs, j);
    }
    if Readies(qs) != [] {
      var j := SomeReadyIndex(qs);
      assert j != i && ps[j].key != key;
    }
  }

  lemma {:induction false} SameKeys(a: seq<HotPair>, b: seq<HotPair>)
    requires |a| == |b| && forall n :: 0 <= n < |a| ==> a[n].key == b[n].key
    ensures forall key :: IndexOf(a, key) == IndexOf(b, key)
  {
    forall key ensures IndexOf(a, key) == IndexOf(b, key) {
      var i, j := IndexOf(a, key), IndexOf(b, key);
      assert i == j;
    }
  }

  /** Discarding a pair in use settles or unsettles the election. */
  lemma {:induction false} DiscardInUse(w: Warmer, key: string)
    requires Weak(w) && NoneClosed(w.pairs) && InUse(w.pairs, key)
    ensures Elected(Discard(w, key)) <==>
            !OtherReady(w.pairs, key) || (w.primary.Some? && w.primary.value != key && IsReady(w.pairs, w.primary.value))
  {
    DiscardKeepsWeak(w, key);
    ElectedIff(Discard(w, key));
    DrainedInPlace(w.pairs, key, Discard(w, key).pairs);
  }

  lemma {:induction false} ReadiesAround(ps: seq<HotPair>, i: nat)
    requires i < |ps| && ps[i].state == Ready
    ensures |Readies(ps)| == |Readies(ps[..i])| + 1 + |Readies(ps[i + 1..])|
  {
    var b := ps[i + 1..];
    assert ps == ps[..i] + ([ps[i]] + b);
    ReadiesAppend(ps[..i], [ps[i]] + b);
    assert ([ps[i]] + b)[1..] == b;
  }

  lemma {:induction false} SomeReadyIndex(ps: seq<HotPair>) returns (j: nat)
    requires Readies(ps) != []
    ensures j < |ps| && ps[j].state == Ready
  {
    ReadiesAreListed(ps);
    assert Readies(ps)[0] in ps;
    j :| 0 <= j < |ps| && ps[j] == Readies(ps)[0];
  }

  lemma {:induction false} ManyReadiesIff(ps: seq<HotPair>, key: string)
    requires UniqueKeys(ps) && IsReady(ps, key)
    ensures OtherReady(ps, key) <==> |Readies(ps)| > 1
  {
    var i := IndexOf(ps, key);
    ReadiesAround(ps, i);
    if OtherReady(ps, key) {
      var j :| 0 <= j < |ps| && ps[j].state == Ready && ps[j].key != key;
      if j < i {
        ReadiesAt(ps[..i], j);
      } else {
        ReadiesAt(ps[i + 1..], j - i - 1);
      }
    }
    if Readies(ps[..i]) != [] {
      var j := SomeReadyIndex(ps[..i]);
      assert ps[j].key != key;
    } else if Readies(ps[i + 1..]) != [] {
      var j := SomeReadyIndex(ps[i + 1..]);
      assert ps[i + 1 + j].state == Ready && ps[i].key != ps[i + 1 + j].key;
    }
  }

  /** Discarding breaks the election exactly when it sends a serving primary draining while another pair could serve. */
  lemma {:induction false} DiscardElectsIff(w: Warmer, key: string, held: bool)
    requires Elected(w) && NoneClosed(w.pairs)
    ensures Elected(DiscardCandidate(w, key, held)) <==>
            !(w.primary == Some(key) && IsReady(w.pairs, key) && InUse(w.pairs, key) && |Readies(w.pairs)| > 1)
  {
    ElectedIsWeak(w);
    ElectedIff(w);
    if InUse(w.pairs, key) {
      DiscardInUse(w, key);
      if IsReady(w.pairs, key) {
        ManyReadiesIff(w.pairs, key);
      }
      if OtherReady(w.pairs, key) {
        var j :| 0 <= j < |w.pairs| && w.pairs[j].state == Ready && w.pairs[j].key != key;
        ReadiesAt(w.pairs, j);
      }
    } else {
      DiscardKeepsWeak(w, key);
      DiscardIdle(w, key);
    }
  }

  lemma {:induction false} DiscardIdle(w: Warmer, key: string)
    requires Weak(w) && !InUse(w.pairs, key)
    ensures Elected(Discard(w, key))
  {
    var i := IndexOf(w.pairs, key);
    if i < |w.pairs| {
      DropShrinks(w.pairs, i);
      ShrinkElects(w, Without(w.pairs, key));
    } else {
      EnsureElects(w);
    }
  }

  // ---------------------------------------------------------------- every interleaving of locked sections

  /**
    One locked section of some goroutine. Racing, promoting, replacing, discarding, deduplicating and
    trimming belong to the single refresh goroutine; the others may come in between at any point.
  */
  datatype Section =
    | Acquire(key: string)
    | Drop(key: string)
    | ChannelLost(ch: Channel)
    | Reelect
    | Prune(left: seq<HotPair>)
    | Raced(key: string, race: Pair)
    | Promoted(key: string)
    | Replaced(key: string, oldHead: Option<string>)
    | Discarded(key: string, held: bool)
    | Deduplicated
    | TrimmedTo(n: int)

  /** `deciding`: placing a candidate has left a primary that cannot serve, and nobody has been elected since. */
  datatype Refresh = Refresh(w: Warmer, deciding: bool)

  ghost predicate NoneClosed(ps: seq<HotPair>) {
    forall i :: 0 <= i < |ps| ==> ps[i].state != Closed
  }

  ghost predicate Enabled(s: Refresh, x: Section) {
    match x
    case Acquire(key) => IsReady(s.w.pairs, key)
    case Prune(left) => Shrinks(s.w.pairs, left)
    case Raced(key, _) => !s.deciding && !Listed(s.w.pairs, key)
    case _ => true
  }

  /** This release takes the pair off the list. */
  predicate LastRelease(w: Warmer, key: string) {
    Listed(w.pairs, key) && (var p := w.pairs[IndexOf(w.pairs, key)]; p.refs - 1 <= 0 && p.state == Draining)
  }

  /** The pair brought to the front cannot serve although others can. */
  predicate BadFront(w: Warmer, key: string) {
    !IsReady(w.pairs, key) && Readies(w.pairs) != []
  }

  /** Every section that ends with an election settles it; placing a candidate may unsettle it. */
  function Step(s: Refresh, x: Section): Refresh {
    match x
    case Acquire(key) => s.(w := AddRef(s.w, key, 1))
    case Drop(key) => Refresh(Release(s.w, key), s.deciding && !LastRelease(s.w, key))
    case ChannelLost(ch) => Refresh(Invalidate(s.w, ch), false)
    case Reelect => Refresh(Ensure(s.w), false)
    case Prune(left) => if left == s.w.pairs then s else Refresh(Ensure(Settle(left, s.w.primary)), false)
    case Raced(key, race) => s.(w := Join(s.w, key, race))
    case Promoted(key) => if Listed(s.w.pairs, key) then Refresh(Promote(s.w, key), BadFront(s.w, key)) else s
    case Replaced(key, oldHead) =>
      if Listed(s.w.pairs, key) then Refresh(Replace(s.w, key, oldHead), BadFront(s.w, key)) else s
    case Discarded(key, held) =>
      if held && !Listed(s.w.pairs, key) then s
      else Refresh(Discard(s.w, key),
                   InUse(s.w.pairs, key) && OtherReady(s.w.pairs, key) && (s.deciding || s.w.primary == Some(key)))
    case Deduplicated => Refresh(Deduplicate(s.w), false)
    case TrimmedTo(n) => if n <= 0 then s else Refresh(Trim(s.w, n), false)
  }

  /** Elected exactly outside the deciding window; inside it, still never a Ready primary that is not the first. */
  ghost predicate PrimaryInv(s: Refresh) {
    Weak(s.w) && NoneClosed(s.w.pairs) && (Elected(s.w) <==> !s.deciding)
  }

  lemma {:induction false} ShrinkKeepsOpen(a: seq<HotPair>, b: seq<HotPair>)
    requires Shrinks(a, b) && NoneClosed(a)
    ensures NoneClosed(b)
  {
    ShrinksMembers(a, b);
    forall i | 0 <= i < |b| ensures b[i].state != Closed {
      assert b[i] in b;
      var p :| p in a && Same(p, b[i]);
    }
  }

  lemma {:induction false} WithoutKeepsOpen(ps: seq<HotPair>, key: string)
    requires NoneClosed(ps)
    ensures NoneClosed(Without(ps, key))
  {
  }

  lemma {:induction false} ReplaceKeepsOpen(w: Warmer, key: string, oldHead: Option<string>)
    requires NoneClosed(w.pairs)
    ensures NoneClosed(Replace(w, key, oldHead).pairs)
  {
    WithoutKeepsOpen(w.pairs, key);
    if oldHead.Some? { WithoutKeepsOpen(Without(w.pairs, key), oldHead.value); }
  }

  /** A closed pair is never left in the list. */
  lemma {:induction false} SectionKeepsOpen(s: Refresh, x: Section)
    requires NoneClosed(s.w.pairs) && Enabled(s, x)
    ensures NoneClosed(Step(s, x).w.pairs)
  {
    match x
    case Acquire(key) =>
    case Drop(key) => WithoutKeepsOpen(AddRef(s.w, key, -1).pairs, key);
    case ChannelLost(ch) =>
      DrainedShrinks(s.w.pairs, ch);
      ShrinkKeepsOpen(s.w.pairs, Drained(s.w.pairs, ch));
    case Reelect =>
    case Prune(left) => ShrinkKeepsOpen(s.w.pairs, left);
    case Raced(key, race) =>
    case Promoted(key) => WithoutKeepsOpen(s.w.pairs, key);
    case Replaced(key, oldHead) => ReplaceKeepsOpen(s.w, key, oldHead);
    case Discarded(key, held) => WithoutKeepsOpen(s.w.pairs, key);
    case Deduplicated =>
      DedupedShrinks(s.w.pairs, {});
      ShrinkKeepsOpen(s.w.pairs, Deduped(s.w.pairs, {}));
    case TrimmedTo(n) =>
      if n > 0 {
        TrimmedShrinks(s.w.pairs, n);
        ShrinkKeepsOpen(s.w.pairs, Trimmed(s.w.pairs, n));
      }
  }

  lemma {:induction false} ShrinkElects(w: Warmer, ps: seq<HotPair>)
    requires Weak(w) && Shrinks(w.pairs, ps)
    ensures Elected(Ensure(Settle(ps, w.primary))) && Weak(Ensure(Settle(ps, w.primary)))
  {
    ShrinkKeepsWeak(w, ps);
    ElectedIsWeak(Ensure(Settle(ps, w.primary)));
  }

  lemma {:induction false} AddRefElects(w: Warmer, key: string, d: int)
    requires Weak(w)
    ensures Elected(AddRef(w, key, d)) <==> Elected(w)
  {
    AddRefKeeps(w, key, d);
    ElectedIff(w);
    ElectedIff(AddRef(w, key, d));
    RefsDoNotVote(w.pairs, AddRef(w, key, d).pairs);
  }

  lemma {:induction false} ReleaseElects(w: Warmer, key: string)
    requires Weak(w)
    ensures Elected(Release(w, key)) <==> Elected(w) || LastRelease(w, key)
  {
    var v := AddRef(w, key, -1);
    AddRefElects(w, key, -1);
    AddRefKeeps(w, key, -1);
    RefsDoNotVote(w.pairs, v.pairs);
    if LastRelease(w, key) {
      var i := IndexOf(v.pairs, key);
      DropShrinks(v.pairs, i);
      ShrinkElects(v, Without(v.pairs, key));
    }
  }

  lemma {:induction false} DiscardedKeeps(s: Refresh, key: string, held: bool)
    requires PrimaryInv(s)
    ensures Step(s, Discarded(key, held)).w == DiscardCandidate(s.w, key, held)
    ensures Elected(Step(s, Discarded(key, held)).w) <==> !Step(s, Discarded(key, held)).deciding
  {
    if held && !Listed(s.w.pairs, key) {
      assert Step(s, Discarded(key, held)) == s;
    } else if InUse(s.w.pairs, key) {
      DiscardInUse(s.w, key);
      ElectedIff(s.w);
      if OtherReady(s.w.pairs, key) {
        var j :| 0 <= j < |s.w.pairs| && s.w.pairs[j].state == Ready && s.w.pairs[j].key != key;
        ReadiesAt(s.w.pairs, j);
      }
    } else {
      DiscardIdle(s.w, key);
    }
  }

  lemma {:induction false} SectionKeepsPrimary(s: Refresh, x: Section)
    requires PrimaryInv(s) && Enabled(s, x)
    ensures PrimaryInv(Step(s, x))
  {
    SectionKeepsOpen(s, x);
    match x
    case Acquire(key) =>
      AddRefKeeps(s.w, key, 1);
      AddRefElects(s.w, key, 1);
    case Drop(key) =>
      ReleaseKeeps(s.w, key);
      ReleaseElects(s.w, key);
    case ChannelLost(ch) =>
      DrainedShrinks(s.w.pairs, ch);
      ShrinkElects(s.w, Drained(s.w.pairs, ch));
    case Reelect =>
      EnsureElects(s.w);
      ElectedIsWeak(Ensure(s.w));
    case Prune(left) => ShrinkElects(s.w, left);
    case Raced(key, race) =>
      JoinElects(s.w, key, race);
      ElectedIsWeak(Join(s.w, key, race));
    case Promoted(key) =>
      PromoteKeepsWeak(s.w, key);
      if Listed(s.w.pairs, key) { PromoteFronts(s.w, key); }
    case Replaced(key, oldHead) =>
      ReplaceKeepsWeak(s.w, key, oldHead);
      if Listed(s.w.pairs, key) { ReplaceFronts(s.w, key, oldHead); }
    case Discarded(key, held) =>
      DiscardKeepsWeak(s.w, key);
      DiscardedKeeps(s, key, held);
    case Deduplicated =>
      DedupedShrinks(s.w.pairs, {});
      ShrinkElects(s.w, Deduped(s.w.pairs, {}));
    case TrimmedTo(n) =>
      if n > 0 {
        TrimmedShrinks(s.w.pairs, n);
        ShrinkElects(s.w, Trimmed(s.w.pairs, n));
      }
  }

  ghost predicate ValidRun(s: Refresh, xs: seq<Section>)
    decreases |xs|
  {
    xs == [] || (Enabled(s, xs[0]) && ValidRun(Step(s, xs[0]), xs[1..]))
  }

  function RunSections(s: Refresh, xs: seq<Section>): Refresh
    decreases |xs|
  {
    if xs == [] then s else RunSections(Step(s, xs[0]), xs[1..])
  }

  lemma {:induction false} RunKeepsPrimary(s: Refresh, xs: seq<Section>)
    requires PrimaryInv(s) && ValidRun(s, xs)
    ensures PrimaryInv(RunSections(s, xs))
    decreases |xs|
  {
    if xs != [] {
      SectionKeepsPrimary(s, xs[0]);
      RunKeepsPrimary(Step(s, xs[0]), xs[1..]);
    }
  }

  /**
    From an empty list and in every interleaving: the primary is the first Ready pair, or no pair is Ready,
    exactly unless a section that placed a candidate has just put a pair that cannot serve in front of others
    that can, or has sent a serving primary draining while others could serve. Even then a Ready primary is
    the first Ready pair.
  */
  lemma {:induction false} PrimaryIsElected(xs: seq<Section>)
    requires ValidRun(Refresh(Warmer([], None), false), xs)
    ensures var s := RunSections(Refresh(Warmer([], None), false), xs); Weak(s.w) && (Elected(s.w) <==> !s.deciding)
  {
    RunKeepsPrimary(Refresh(Warmer([], None), false), xs);
  }
}
