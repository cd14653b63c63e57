/** The count dictionaries of the statistics views (`byType`, `byAgent`, `byReason`): a JavaScript
    object used as `Record<string, number>`, bumped with `r[k] = (r[k] || 0) + 1`. Its keys keep
    insertion order, so it is a sequence of (key, count) entries with distinct keys. */
module Tally {

  type Tally = seq<(string, nat)>

  /** The keys, in insertion order (`Object.keys`). */
  function Keys(t: Tally): (ks: seq<string>)
    ensures |ks| == |t|
    ensures forall i :: 0 <= i < |t| ==> ks[i] == t[i].0
  {
    if t == [] then [] else [t[0].0] + Keys(t[1..])
  }

  ghost predicate DistinctKeys(t: Tally) {
    forall i, j :: 0 <= i < j < |t| ==> t[i].0 != t[j].0
  }

  /** `r[k] || 0`. */
  function Get(t: Tally, k: string): nat {
    if t == [] then 0 else if t[0].0 == k then t[0].1 else Get(t[1..], k)
  }

  /** The sum of all counts. */
  function Total(t: Tally): nat {
    if t == [] then 0 else t[0].1 + Total(t[1..])
  }

  /** `r[k] = (r[k] || 0) + 1`. */
  function Bump(t: Tally, k: string): Tally {
    if t == [] then [(k, 1)]
    else if t[0].0 == k then [(k, t[0].1 + 1)] + t[1..]
    else [t[0]] + Bump(t[1..], k)
  }

  /** Bumping counts `k` once more and leaves every other count alone; an existing key keeps its
      place and a new key goes last. */
  lemma {:induction false} BumpSpec(t: Tally, k: string)
    ensures Keys(Bump(t, k)) == if k in Keys(t) then Keys(t) else Keys(t) + [k]
    ensures Total(Bump(t, k)) == Total(t) + 1
    ensures Get(Bump(t, k), k) == Get(t, k) + 1
    ensures forall k' :: k' != k ==> Get(Bump(t, k), k') == Get(t, k')
  {
    var r := Bump(t, k);
    if t == [] {
    } else if t[0].0 == k {
      assert r[1..] == t[1..];
    } else {
      BumpSpec(t[1..], k);
      assert r[1..] == Bump(t[1..], k);
      assert Keys(t) == [t[0].0] + Keys(t[1..]);
      assert Keys(r) == [t[0].0] + Keys(Bump(t[1..], k));
    }
  }

  lemma BumpKeepsDistinct(t: Tally, k: string)
    requires DistinctKeys(t)
    ensures DistinctKeys(Bump(t, k))
  {
    BumpSpec(t, k);
    var r := Bump(t, k);
    var ks, ks' := Keys(t), Keys(r);
    assert forall i :: 0 <= i < |r| ==> ks'[i] == r[i].0;
    if k !in ks {
      assert forall i :: 0 <= i < |t| ==> r[i].0 == t[i].0;
      assert r[|t|].0 == k;
    } else {
      assert forall i :: 0 <= i < |t| ==> r[i].0 == t[i].0;
    }
  }

  /** How many times `k` occurs in `xs`. */
  function Occurrences(xs: seq<string>, k: string): nat {
    if xs == [] then 0 else (if xs[0] == k then 1 else 0) + Occurrences(xs[1..], k)
  }

  lemma {:induction false} OccurrencesAppend(xs: seq<string>, x: string, k: string)
    ensures Occurrences(xs + [x], k) == Occurrences(xs, k) + (if x == k then 1 else 0)
  {
    if xs != [] {
      assert (xs + [x])[1..] == xs[1..] + [x];
      OccurrencesAppend(xs[1..], x, k);
    }
  }

  /** The dictionary that bumping every key of `xs` in turn, starting from `{}`, ends with. */
  function TallyOf(xs: seq<string>): Tally {
    if xs == [] then [] else Bump(TallyOf(xs[..|xs| - 1]), xs[|xs| - 1])
  }

  /** Bumping the next item of `xs` extends the dictionary of the items before it. */
  lemma TallyOfStep(xs: seq<string>, i: nat)
    requires i < |xs|
    ensures TallyOf(xs[..i + 1]) == Bump(TallyOf(xs[..i]), xs[i])
  {
    assert xs[..i + 1][..i] == xs[..i];
  }

  /** The counts of the finished dictionary add up to the number of items. */
  lemma {:induction false} TallyOfTotal(xs: seq<string>)
    ensures Total(TallyOf(xs)) == |xs|
  {
    if xs != [] {
      TallyOfTotal(xs[..|xs| - 1]);
      BumpSpec(TallyOf(xs[..|xs| - 1]), xs[|xs| - 1]);
    }
  }

  /** Each count of the finished dictionary is the number of occurrences of its key. */
  lemma {:induction false} TallyOfGet(xs: seq<string>, k: string)
    ensures Get(TallyOf(xs), k) == Occurrences(xs, k)
  {
    if xs != [] {
      var init, x := xs[..|xs| - 1], xs[|xs| - 1];
      TallyOfGet(init, k);
      BumpSpec(TallyOf(init), x);
      assert xs == init + [x];
      OccurrencesAppend(init, x, k);
    }
  }

  /** The keys of the finished dictionary are the distinct items, none twice. */
  lemma {:induction false} TallyOfKeys(xs: seq<string>)
    ensures forall k :: k in Keys(TallyOf(xs)) <==> k in xs
    ensures DistinctKeys(TallyOf(xs))
  {
    TallyOfKeysAre(xs);
    TallyOfDistinct(xs);
  }

  lemma {:induction false} TallyOfKeysAre(xs: seq<string>)
    ensures forall k :: k in Keys(TallyOf(xs)) <==> k in xs
  {
    if xs != [] {
      var init, x := xs[..|xs| - 1], xs[|xs| - 1];
      TallyOfKeysAre(init);
      BumpSpec(TallyOf(init), x);
      LastSplit(xs);
    }
  }

  /** Membership in a non-empty sequence: in the part before the last item, or the last item. */
  lemma LastSplit(xs: seq<string>)
    requires xs != []
    ensures forall k :: k in xs <==> k in xs[..|xs| - 1] || k == xs[|xs| - 1]
  {
    assert xs == xs[..|xs| - 1] + [xs[|xs| - 1]];
  }

  lemma {:induction false} TallyOfDistinct(xs: seq<string>)
    ensures DistinctKeys(TallyOf(xs))
  {
    if xs != [] {
      TallyOfDistinct(xs[..|xs| - 1]);
      BumpKeepsDistinct(TallyOf(xs[..|xs| - 1]), xs[|xs| - 1]);
    }
  }
}
