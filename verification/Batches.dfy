/**
  What joining adjacent data packets does to the meaning of a queue, for any type of message, connection ID
  and byte.
*/
module Batches {
  import opened Link
  import opened Pieces

  /** A TCP data frame: connection, meta and payload. */
  datatype Segment<I, B> = Segment(id: I, meta: seq<B>, payload: seq<B>)

  /** A message together with the data it holds, if it holds any. */
  datatype Item<R, I, B> = Item(raw: R, tcp: Option<Segment<I, B>>)

  /** What the other end can tell: every byte of every connection in order, and every other message as it is. */
  datatype Event<R, I, B> = Raw(message: R) | Meta(id: I, meta: seq<B>) | Octet(id: I, b: B)

  /** The first `n` bytes of a payload, one event each. */
  function Octets<R, I, B>(id: I, p: seq<B>, n: nat): seq<Event<R, I, B>>
    requires n <= |p|
  {
    if n == 0 then [] else Octets<R, I, B>(id, p, n - 1) + [Octet(id, p[n - 1])]
  }

  function Stream<R, I, B>(id: I, p: seq<B>): seq<Event<R, I, B>> {
    Octets(id, p, |p|)
  }

  function MetaOf<R, I, B(==)>(s: Segment<I, B>): seq<Event<R, I, B>> {
    if s.meta == [] then [] else [Meta(s.id, s.meta)]
  }

  function Events<R, I, B(==)>(x: Item<R, I, B>): seq<Event<R, I, B>> {
    match x.tcp
    case Some(s) => MetaOf(s) + Stream(s.id, s.payload)
    case None => [Raw(x.raw)]
  }

  /** What each message says. */
  function Voice<R, I, B(==)>(items: seq<Item<R, I, B>>): (voice: seq<seq<Event<R, I, B>>>)
    ensures |voice| == |items| && forall k :: 0 <= k < |items| ==> voice[k] == Events(items[k])
  {
    seq(|items|, k requires 0 <= k < |items| => Events(items[k]))
  }

  function Meaning<R, I, B(==)>(items: seq<Item<R, I, B>>): seq<Event<R, I, B>> {
    All(Voice(items))
  }

  // ---------------------------------------------------------------- batches

  function PayloadOf<R, I, B>(x: Item<R, I, B>): seq<B> {
    match x.tcp
    case Some(s) => s.payload
    case None => []
  }

  function Payloads<R, I, B>(items: seq<Item<R, I, B>>, lo: nat, hi: nat): seq<B>
    requires lo <= hi <= |items|
  {
    if lo == hi then [] else Payloads(items, lo, hi - 1) + PayloadOf(items[hi - 1])
  }

  /** How many payload bytes that is. */
  function Size<R, I, B>(items: seq<Item<R, I, B>>, lo: nat, hi: nat): nat
    requires lo <= hi <= |items|
  {
    if lo == hi then 0 else Size(items, lo, hi - 1) + |PayloadOf(items[hi - 1])|
  }

  /** `x` may be joined to a batch of connection `id`. */
  predicate Follows<R, I(==), B(==)>(id: I, x: Item<R, I, B>) {
    x.tcp.Some? && x.tcp.value.id == id && x.tcp.value.meta == []
  }

  /** One message, or data of one connection within the limit, where only the first may carry meta. */
  ghost predicate Batch<R, I, B>(items: seq<Item<R, I, B>>, lo: nat, hi: nat, maxAgg: int) {
    && lo < hi <= |items|
    && (hi == lo + 1 ||
        (&& items[lo].tcp.Some?
         && (forall k :: lo < k < hi ==> Follows(items[lo].tcp.value.id, items[k]))
         && Size(items, lo, hi) <= maxAgg))
  }

  /** Why a batch ends before item `hi`. */
  ghost predicate Splits<R, I, B>(items: seq<Item<R, I, B>>, lo: nat, hi: nat, maxAgg: int)
    requires lo < hi < |items|
  {
    match items[lo].tcp
    case Some(s) => !Follows(s.id, items[hi]) || Size(items, lo, hi) + |PayloadOf(items[hi])| > maxAgg
    case None => true
  }

  /** The data that the one message of a batch holds. */
  function Joined<R, I, B>(items: seq<Item<R, I, B>>, lo: nat, hi: nat): Option<Segment<I, B>>
    requires lo < hi <= |items|
  {
    match items[lo].tcp
    case Some(s) => Some(s.(payload := Payloads(items, lo, hi)))
    case None => None
  }

  /** Items `lo` up to `hi` became `x`; the batch ends where it must, or where the next one had not arrived. */
  ghost predicate Written<R, I, B>(items: seq<Item<R, I, B>>, maxAgg: int, gap: nat -> bool, lo: nat, hi: nat, x: Item<R, I, B>) {
    && Batch(items, lo, hi, maxAgg)
    && x.tcp == Joined(items, lo, hi) && (x.tcp.None? ==> x.raw == items[lo].raw)
    && (hi < |items| ==> gap(hi) || Splits(items, lo, hi, maxAgg))
  }

  /** `got` is one message for each batch of the queue up to the last cut. */
  ghost predicate Batched<R, I, B>(items: seq<Item<R, I, B>>, maxAgg: int, gap: nat -> bool, cuts: seq<nat>, got: seq<Item<R, I, B>>) {
    && |cuts| == |got| + 1 && cuts[0] == 0
    && (forall k :: 0 <= k < |got| ==> Written(items, maxAgg, gap, cuts[k], cuts[k + 1], got[k]))
  }

  // ---------------------------------------------------------------- joining preserves meaning

  lemma {:induction false} OctetsSame<R, I, B>(id: I, a: seq<B>, b: seq<B>, n: nat)
    requires n <= |a|
    ensures Octets<R, I, B>(id, a + b, n) == Octets(id, a, n)
  {
    if n > 0 { OctetsSame<R, I, B>(id, a, b, n - 1); }
  }

  lemma {:induction false} OctetsJoin<R, I, B>(id: I, a: seq<B>, b: seq<B>, n: nat)
    requires n <= |b|
    ensures Octets<R, I, B>(id, a + b, |a| + n) == Stream(id, a) + Octets(id, b, n)
  {
    if n == 0 {
      OctetsSame<R, I, B>(id, a, b, |a|);
    } else {
      OctetsJoin<R, I, B>(id, a, b, n - 1);
      assert (a + b)[|a| + n - 1] == b[n - 1];
      Regroup(Stream<R, I, B>(id, a), Octets(id, b, n - 1), [Octet(id, b[n - 1])]);
    }
  }

  lemma {:induction false} StreamAppend<R, I, B>(id: I, a: seq<B>, b: seq<B>)
    ensures Stream<R, I, B>(id, a + b) == Stream(id, a) + Stream(id, b)
  {
    OctetsJoin<R, I, B>(id, a, b, |b|);
  }

  lemma {:induction false} FollowersMean<R, I, B>(items: seq<Item<R, I, B>>, voice: seq<seq<Event<R, I, B>>>, id: I, lo: nat, hi: nat)
    requires lo <= hi <= |items| == |voice| && forall k :: lo <= k < hi ==> voice[k] == Stream(id, PayloadOf(items[k]))
    ensures Flat(voice, lo, hi) == Stream(id, Payloads(items, lo, hi))
    decreases hi
  {
    if lo < hi {
      FollowersMean(items, voice, id, lo, hi - 1);
      StreamAppend<R, I, B>(id, Payloads(items, lo, hi - 1), PayloadOf(items[hi - 1]));
    }
  }

  lemma {:induction false} FollowerSays<R, I, B>(id: I, x: Item<R, I, B>)
    requires Follows(id, x)
    ensures Events(x) == Stream(id, PayloadOf(x))
  {
  }

  lemma {:induction false} PayloadsJoin<R, I, B>(items: seq<Item<R, I, B>>, lo: nat, hi: nat)
    requires lo < hi <= |items|
    ensures Payloads(items, lo, hi) == PayloadOf(items[lo]) + Payloads(items, lo + 1, hi)
    decreases hi
  {
    if lo + 1 < hi {
      PayloadsJoin(items, lo, hi - 1);
    }
  }

  lemma {:induction false} PayloadsSize<R, I, B>(items: seq<Item<R, I, B>>, lo: nat, hi: nat)
    requires lo <= hi <= |items|
    ensures |Payloads(items, lo, hi)| == Size(items, lo, hi)
    decreases hi
  {
    if lo < hi {
      PayloadsSize(items, lo, hi - 1);
    }
  }

  lemma {:induction false} LongerSays<R, I, B>(x: Item<R, I, B>, y: Item<R, I, B>, s: Segment<I, B>, rest: seq<B>)
    requires x.tcp == Some(s) && y.tcp == Some(s.(payload := s.payload + rest))
    ensures Events(y) == Events(x) + Stream(s.id, rest)
  {
    StreamAppend<R, I, B>(s.id, s.payload, rest);
    Regroup(MetaOf<R, I, B>(s), Stream(s.id, s.payload), Stream(s.id, rest));
  }

  /** The one message of a batch says what its jobs say one by one. */
  lemma {:induction false} WrittenSays<R, I, B>(items: seq<Item<R, I, B>>, maxAgg: int, gap: nat -> bool, lo: nat, hi: nat, x: Item<R, I, B>)
    requires Written(items, maxAgg, gap, lo, hi, x)
    ensures Joins(Voice(items), lo, hi, Events(x))
  {
    var voice := Voice(items);
    if x.tcp.Some? {
      var s := items[lo].tcp.value;
      forall k | lo + 1 <= k < hi ensures voice[k] == Stream(s.id, PayloadOf(items[k])) {
        FollowerSays(s.id, items[k]);
      }
      FollowersMean(items, voice, s.id, lo + 1, hi);
      FlatFirst(voice, lo, hi);
      PayloadsJoin(items, lo, hi);
      LongerSays(items[lo], x, s, Payloads(items, lo + 1, hi));
    } else {
      FlatOne(voice, lo);
    }
  }

  /**
    However the queue was cut into batches, the messages say what the queue says: all of it, in order, when
    the last batch ends with the queue, and a prefix of it otherwise.
  */
  lemma {:induction false} BatchesMean<R, I, B>(items: seq<Item<R, I, B>>, maxAgg: int, gap: nat -> bool, cuts: seq<nat>, got: seq<Item<R, I, B>>)
    requires Batched(items, maxAgg, gap, cuts, got)
    ensures Meaning(got) <= Meaning(items)
    ensures cuts[|got|] == |items| ==> Meaning(got) == Meaning(items)
  {
    var voice, said := Voice(items), Voice(got);
    forall k | 0 <= k < |said| ensures Joins(voice, cuts[k], cuts[k + 1], said[k]) {
      WrittenSays(items, maxAgg, gap, cuts[k], cuts[k + 1], got[k]);
    }
    PiecesJoin(voice, cuts, said, |said|);
    FlatJoin(voice, 0, cuts[|got|], |voice|);
  }

  /**
    Batches are as long as they can be: where one ends, the next message had not arrived, or is not data of the
    same connection without meta, or would take the payload over the limit.
  */
  lemma {:induction false} BatchesAreMaximal<R, I, B>(items: seq<Item<R, I, B>>, maxAgg: int, gap: nat -> bool, cuts: seq<nat>, got: seq<Item<R, I, B>>, k: nat)
    requires Batched(items, maxAgg, gap, cuts, got) && k < |got| && cuts[k + 1] < |items|
    requires got[k].tcp.Some? && items[cuts[k + 1]].tcp.Some?
    ensures var s, next := got[k].tcp.value, items[cuts[k + 1]].tcp.value;
            next.id == s.id && next.meta == [] && |s.payload| + |next.payload| <= maxAgg ==> gap(cuts[k + 1])
  {
    assert Written(items, maxAgg, gap, cuts[k], cuts[k + 1], got[k]);
    PayloadsSize(items, cuts[k], cuts[k + 1]);
  }
}
