/** Joining a range of pieces into one sequence. */
module Pieces {
  function Flat<T>(ss: seq<seq<T>>, lo: nat, hi: nat): seq<T>
    requires lo <= hi <= |ss|
  {
    if lo == hi then [] else Flat(ss, lo, hi - 1) + ss[hi - 1]
  }

  function All<T>(ss: seq<seq<T>>): seq<T> {
    Flat(ss, 0, |ss|)
  }

  lemma {:induction false} Regroup<T>(a: seq<T>, b: seq<T>, c: seq<T>)
    ensures (a + b) + c == a + (b + c)
  {
  }

  lemma {:induction false} FourParts<T>(s: seq<T>, h: nat, i: nat, j: nat, k: nat)
    requires h <= i <= j <= k <= |s|
    ensures s[..k] == s[..h] + s[h..i] + s[i..j] + s[j..k]
  {
  }

  lemma {:induction false} FlatJoin<T>(ss: seq<seq<T>>, lo: nat, mid: nat, hi: nat)
    requires lo <= mid <= hi <= |ss|
    ensures Flat(ss, lo, hi) == Flat(ss, lo, mid) + Flat(ss, mid, hi)
    decreases hi
  {
    if mid < hi {
      FlatJoin(ss, lo, mid, hi - 1);
      Regroup(Flat(ss, lo, mid), Flat(ss, mid, hi - 1), ss[hi - 1]);
    }
  }

  lemma {:induction false} FlatOne<T>(ss: seq<seq<T>>, lo: nat)
    requires lo < |ss|
    ensures Flat(ss, lo, lo + 1) == ss[lo]
  {
    assert Flat(ss, lo, lo) == [];
    assert Flat(ss, lo, lo + 1) == [] + ss[lo];
  }

  lemma {:induction false} FlatFirst<T>(ss: seq<seq<T>>, lo: nat, hi: nat)
    requires lo < hi <= |ss|
    ensures Flat(ss, lo, hi) == ss[lo] + Flat(ss, lo + 1, hi)
  {
    FlatJoin(ss, lo, lo + 1, hi);
    FlatOne(ss, lo);
  }

  /** A range of pieces joined is the piece `s`. */
  ghost predicate Joins<T>(ss: seq<seq<T>>, lo: nat, hi: nat, s: seq<T>) {
    lo <= hi <= |ss| && s == Flat(ss, lo, hi)
  }

  /** Cut anywhere and joined piece by piece, everything up to the last cut is there, in order. */
  lemma {:induction false} PiecesJoin<T>(ss: seq<seq<T>>, cuts: seq<nat>, pieces: seq<seq<T>>, n: nat)
    requires |cuts| == |pieces| + 1 && cuts[0] == 0 && n <= |pieces|
    requires forall k :: 0 <= k < |pieces| ==> Joins(ss, cuts[k], cuts[k + 1], pieces[k])
    ensures cuts[n] <= |ss| && Flat(pieces, 0, n) == Flat(ss, 0, cuts[n])
  {
    if n > 0 {
      PiecesJoin(ss, cuts, pieces, n - 1);
      assert Joins(ss, cuts[n - 1], cuts[n - 1 + 1], pieces[n - 1]);
      FlatJoin(ss, 0, cuts[n - 1], cuts[n]);
    }
  }
}
