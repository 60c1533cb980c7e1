/** Counting occurrences, and the `acc[k] = (acc[k] || 0) + 1` idiom the services use
    to tally keys into an object. */
module Tally {
  import opened Common

  /** Occurrences of `c` in `xs`. */
  function Count<T(==)>(xs: seq<T>, c: T): (n: nat)
    ensures n <= |xs|
    ensures n == 0 <==> c !in xs
  {
    if xs == [] then 0
    else
      var m := Count(xs[..|xs| - 1], c);
      assert c in xs[..|xs| - 1] ==> c in xs;
      assert c in xs && xs[|xs| - 1] != c ==> c in xs[..|xs| - 1] by {
        if c in xs && xs[|xs| - 1] != c {
          var i :| 0 <= i < |xs| && xs[i] == c;
          assert xs[..|xs| - 1][i] == c;
        }
      }
      m + (if xs[|xs| - 1] == c then 1 else 0)
  }

  /** Sum of the counts of the given keys. */
  function SumCounts(keys: seq<string>, xs: seq<string>): nat {
    if keys == [] then 0 else SumCounts(keys[..|keys| - 1], xs) + Count(xs, keys[|keys| - 1])
  }

  lemma {:induction false} SumCountsSnoc(keys: seq<string>, xs: seq<string>, c: string)
    requires NoDuplicates(keys)
    ensures SumCounts(keys, xs + [c]) == SumCounts(keys, xs) + (if c in keys then 1 else 0)
  {
    var ys := xs + [c];
    assert ys[..|ys| - 1] == xs;
    if keys != [] {
      var n := |keys| - 1;
      var init := keys[..n];
      assert NoDuplicates(init);
      SumCountsSnoc(init, xs, c);
      assert c in keys <==> c in init || keys[n] == c;
      assert keys[n] == c ==> c !in init;
    }
  }

  /** Counting over any duplicate-free list of keys that covers every element gives the length. */
  lemma {:induction false} CountsCover(keys: seq<string>, xs: seq<string>)
    requires NoDuplicates(keys) && forall i :: 0 <= i < |xs| ==> xs[i] in keys
    ensures SumCounts(keys, xs) == |xs|
    decreases |xs|
  {
    if xs == [] {
      SumCountsEmpty(keys);
    } else {
      var n := |xs| - 1;
      assert xs[..n] + [xs[n]] == xs;
      CountsCover(keys, xs[..n]);
      SumCountsSnoc(keys, xs[..n], xs[n]);
    }
  }

  lemma {:induction false} SumCountsEmpty(keys: seq<string>)
    ensures SumCounts(keys, []) == 0
  {
    if keys != [] {
      SumCountsEmpty(keys[..|keys| - 1]);
    }
  }

  /** The per-indicator counts add up to the number of codes over all items, duplicates inside
      one item counted twice. */
  lemma {:induction false} CountsAddUp(xs: seq<string>)
    ensures SumCounts(Dedup(xs), xs) == |xs|
  {
    if xs != [] {
      var n := |xs| - 1;
      var init := xs[..n];
      var c := xs[n];
      assert init + [c] == xs;
      CountsAddUp(init);
      var keys := Dedup(init);
      SumCountsSnoc(keys, init, c);
      assert c in keys <==> c in init by {
        if c in init {
          var i :| 0 <= i < |init| && init[i] == c;
        }
      }
      if c !in keys {
        assert Dedup(xs) == keys + [c];
        assert (keys + [c])[..|keys|] == keys;
        assert Count(xs, c) == 1;
      }
    }
  }

  /** The state of `acc[k] = (acc[k] || 0) + 1` after the keys `xs`: the keys in first-seen
      order and a count per key. */
  ghost predicate Tallied(keys: seq<string>, counts: map<string, nat>, xs: seq<string>) {
    keys == Dedup(xs) &&
    (forall c :: c in counts <==> c in xs) &&
    (forall c :: c in counts ==> counts[c] == Count(xs, c))
  }

  lemma TalliedSnoc(keys: seq<string>, counts: map<string, nat>, xs: seq<string>, c: string)
    requires Tallied(keys, counts, xs)
    ensures Tallied(if c in counts then keys else keys + [c],
                    counts[c := (if c in counts then counts[c] else 0) + 1], xs + [c])
  {
    var ys := xs + [c];
    assert ys[..|ys| - 1] == xs;
    assert forall d :: d in ys <==> d in xs || d == c;
    forall d | d in ys
      ensures Count(ys, d) == Count(xs, d) + (if d == c then 1 else 0)
    {
    }
    assert c in Dedup(xs) <==> c in xs by {
      if c in xs {
        var i :| 0 <= i < |xs| && xs[i] == c;
      }
    }
  }

  /** One code more of the current item. */
  function Bump(keys: seq<string>, counts: map<string, nat>, code: string): (seq<string>, map<string, nat>) {
    (if code in counts then keys else keys + [code], counts[code := (if code in counts then counts[code] else 0) + 1])
  }

  lemma TallyStep(keys: seq<string>, counts: map<string, nat>, before: seq<string>, codes: seq<string>, j: nat)
    requires j < |codes| && Tallied(keys, counts, before + codes[..j])
    ensures Tallied(Bump(keys, counts, codes[j]).0, Bump(keys, counts, codes[j]).1, before + codes[..j + 1])
  {
    TalliedSnoc(keys, counts, before + codes[..j], codes[j]);
    assert before + codes[..j + 1] == before + codes[..j] + [codes[j]];
  }

}
