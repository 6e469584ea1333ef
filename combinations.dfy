/** The recursive `combinations` of src/poker_rules.rs: every way of keeping
    `k` elements of a sequence in their original order. */
module Combinatorics {

  /** `u` keeps some of the elements of `t`, in order. */
  predicate IsSubseq<T(==)>(u: seq<T>, t: seq<T>)
    decreases |t|
  {
    u == [] || (t != [] && ((u[0] == t[0] && IsSubseq(u[1..], t[1..])) || IsSubseq(u, t[1..])))
  }

  /** Pascal's rule for the binomial coefficient. */
  function Binomial(n: nat, k: nat): nat
  {
    if k == 0 then 1
    else if n == 0 then 0
    else Binomial(n - 1, k - 1) + Binomial(n - 1, k)
  }

  /** `combo.insert(0, x)` on every combination. */
  function PrependAll<T>(x: T, combos: seq<seq<T>>): (r: seq<seq<T>>)
    ensures |r| == |combos|
  {
    if combos == [] then [] else [[x] + combos[0]] + PrependAll(x, combos[1..])
  }

  /** The `i`-th result is the `i`-th combination with `x` in front. */
  lemma {:induction false} PrependAllAt<T>(x: T, combos: seq<seq<T>>, i: nat)
    requires i < |combos|
    ensures PrependAll(x, combos)[i] == [x] + combos[i]
    decreases |combos|
  {
    if i > 0 {
      PrependAllAt(x, combos[1..], i - 1);
    }
  }

  /** `combinations(cards, k)`, branch for branch: combinations that keep
      the first element come before those that drop it. */
  function Combinations<T>(cards: seq<T>, k: nat): seq<seq<T>>
    decreases |cards|
  {
    if k == 0 then [[]]
    else if cards == [] || k > |cards| then []
    else if k == |cards| then [cards]
    else PrependAll(cards[0], Combinations(cards[1..], k - 1)) + Combinations(cards[1..], k)
  }

  /** Every sequence in `combos` has `k` elements and is a subsequence of
      `t`. */
  predicate AllSubseqs<T(==)>(combos: seq<seq<T>>, k: nat, t: seq<T>)
  {
    forall i :: 0 <= i < |combos| ==> |combos[i]| == k && IsSubseq(combos[i], t)
  }

  /** Every combination has exactly `k` elements and is a subsequence. */
  lemma {:induction false} CombinationsSound<T>(cards: seq<T>, k: nat)
    ensures AllSubseqs(Combinations(cards, k), k, cards)
    decreases |cards|, 1
  {
    if k == 0 {
    } else if cards == [] || k > |cards| {
    } else if k == |cards| {
      SubseqRefl(cards);
    } else {
      KeepFirstSound(cards, k);
      DropFirstSound(cards, k);
    }
  }

  /** The combinations that keep the first card. */
  lemma {:induction false} KeepFirstSound<T>(cards: seq<T>, k: nat)
    requires 0 < k < |cards|
    ensures AllSubseqs(PrependAll(cards[0], Combinations(cards[1..], k - 1)), k, cards)
    decreases |cards|, 0
  {
    CombinationsSound(cards[1..], k - 1);
    PrependAllSound(cards, k, Combinations(cards[1..], k - 1));
  }

  /** The combinations that drop the first card. */
  lemma {:induction false} DropFirstSound<T>(cards: seq<T>, k: nat)
    requires 0 < k < |cards|
    ensures AllSubseqs(Combinations(cards[1..], k), k, cards)
    decreases |cards|, 0
  {
    CombinationsSound(cards[1..], k);
    var right := Combinations(cards[1..], k);
    forall i | 0 <= i < |right| ensures IsSubseq(right[i], cards) {
      SubseqSkip(cards, right[i]);
    }
  }

  /** Putting the first card in front of subsequences of the rest gives
      subsequences of the whole, one element longer. */
  lemma PrependAllSound<T>(cards: seq<T>, k: nat, combos: seq<seq<T>>)
    requires cards != [] && k > 0
    requires AllSubseqs(combos, k - 1, cards[1..])
    ensures AllSubseqs(PrependAll(cards[0], combos), k, cards)
  {
    var left := PrependAll(cards[0], combos);
    forall i | 0 <= i < |left| ensures |left[i]| == k && IsSubseq(left[i], cards) {
      PrependAllAt(cards[0], combos, i);
      SubseqKeep(cards, combos[i]);
    }
  }

  /** Every `k`-element subsequence appears among the combinations. */
  lemma {:induction false} CombinationsComplete<T>(cards: seq<T>, u: seq<T>)
    requires IsSubseq(u, cards)
    ensures u in Combinations(cards, |u|)
    decreases |cards|
  {
    SubseqLength(u, cards);
    var k := |u|;
    if k == 0 {
      assert u == [];
      assert Combinations(cards, k) == [[]];
    } else if k == |cards| {
      SubseqFull(u, cards);
      assert Combinations(cards, k) == [cards];
    } else if u[0] == cards[0] && IsSubseq(u[1..], cards[1..]) {
      CombinationsComplete(cards[1..], u[1..]);
      KeptFirstIn(cards, u);
    } else {
      CombinationsComplete(cards[1..], u);
      DroppedFirstIn(cards, u);
    }
  }

  /** A combination of the rest with the first card put back in front is a
      combination of the whole. */
  lemma KeptFirstIn<T>(cards: seq<T>, u: seq<T>)
    requires 0 < |u| < |cards| && u[0] == cards[0]
    requires u[1..] in Combinations(cards[1..], |u| - 1)
    ensures u in Combinations(cards, |u|)
  {
    var k := |u|;
    var left := PrependAll(cards[0], Combinations(cards[1..], k - 1));
    var right := Combinations(cards[1..], k);
    CombinationsSplit(cards, k);
    var rest := Combinations(cards[1..], k - 1);
    var i :| 0 <= i < |rest| && rest[i] == u[1..];
    assert u == [cards[0]] + u[1..];
    PrependAllAt(cards[0], rest, i);
    assert left[i] == u;
  }

  /** A combination of the rest is a combination of the whole. */
  lemma DroppedFirstIn<T>(cards: seq<T>, u: seq<T>)
    requires 0 < |u| < |cards|
    requires u in Combinations(cards[1..], |u|)
    ensures u in Combinations(cards, |u|)
  {
    CombinationsSplit(cards, |u|);
  }

  /** The recursive case of `Combinations`, as an equation. */
  lemma CombinationsSplit<T>(cards: seq<T>, k: nat)
    requires 0 < k < |cards|
    ensures Combinations(cards, k) ==
              PrependAll(cards[0], Combinations(cards[1..], k - 1)) + Combinations(cards[1..], k)
  {
  }

  /** There are `Binomial(|cards|, k)` combinations. */
  lemma {:induction false} CombinationsCount<T>(cards: seq<T>, k: nat)
    ensures |Combinations(cards, k)| == Binomial(|cards|, k)
    decreases |cards|
  {
    if k == 0 {
    } else if cards == [] {
    } else if k > |cards| {
      BinomialAbove(|cards|, k);
    } else if k == |cards| {
      BinomialDiagonal(k);
    } else {
      CombinationsCount(cards[1..], k - 1);
      CombinationsCount(cards[1..], k);
    }
  }

  /** Five cards out of seven can be chosen in 21 ways. */
  lemma SevenChooseFive<T>(cards: seq<T>)
    requires |cards| == 7
    ensures |Combinations(cards, 5)| == 21
  {
    CombinationsCount(cards, 5);
    SevenFive();
  }

  /** Pascal's triangle down to row seven, along the diagonals that
      `Binomial(7, 5)` needs. */
  lemma SevenFive()
    ensures Binomial(7, 5) == 21
  {
    BinomialDiagonal(2);
    BinomialDiagonal(3);
    BinomialDiagonal(4);
    BinomialDiagonal(5);
    assert Binomial(2, 1) == 2;
    assert Binomial(3, 2) == 3;
    assert Binomial(4, 3) == 4;
    assert Binomial(5, 4) == 5;
    assert Binomial(3, 1) == 3;
    assert Binomial(4, 2) == 6;
    assert Binomial(5, 3) == 10;
    assert Binomial(6, 4) == 15;
    assert Binomial(6, 5) == 6;
  }

  lemma {:induction false} BinomialAbove(n: nat, k: nat)
    requires k > n
    ensures Binomial(n, k) == 0
  {
    if n > 0 {
      BinomialAbove(n - 1, k - 1);
      BinomialAbove(n - 1, k);
    }
  }

  lemma {:induction false} BinomialDiagonal(n: nat)
    ensures Binomial(n, n) == 1
  {
    if n > 0 {
      BinomialDiagonal(n - 1);
      BinomialAbove(n - 1, n);
    }
  }

  lemma SubseqKeep<T>(t: seq<T>, v: seq<T>)
    requires t != [] && IsSubseq(v, t[1..])
    ensures IsSubseq([t[0]] + v, t)
  {
    assert ([t[0]] + v)[1..] == v;
  }

  lemma SubseqSkip<T>(t: seq<T>, u: seq<T>)
    requires t != [] && IsSubseq(u, t[1..])
    ensures IsSubseq(u, t)
  {
  }

  lemma {:induction false} SubseqRefl<T>(t: seq<T>)
    ensures IsSubseq(t, t)
    decreases |t|
  {
    if t != [] {
      SubseqRefl(t[1..]);
    }
  }

  lemma {:induction false} SubseqLength<T>(u: seq<T>, t: seq<T>)
    requires IsSubseq(u, t)
    ensures |u| <= |t|
    decreases |t|
  {
    if u != [] {
      if u[0] == t[0] && IsSubseq(u[1..], t[1..]) {
        SubseqLength(u[1..], t[1..]);
      } else {
        SubseqLength(u, t[1..]);
      }
    }
  }

  /** A subsequence as long as the whole is the whole. */
  lemma {:induction false} SubseqFull<T>(u: seq<T>, t: seq<T>)
    requires IsSubseq(u, t) && |u| == |t|
    ensures u == t
    decreases |t|
  {
    if u != [] {
      if u[0] == t[0] && IsSubseq(u[1..], t[1..]) {
        SubseqFull(u[1..], t[1..]);
        assert u == [u[0]] + u[1..] && t == [t[0]] + t[1..];
      } else {
        SubseqLength(u, t[1..]);
      }
    }
  }

  /** A subsequence holds no element more often than the whole. */
  lemma {:induction false} SubseqMultiset<T>(u: seq<T>, t: seq<T>)
    requires IsSubseq(u, t)
    ensures multiset(u) <= multiset(t)
    decreases |t|
  {
    if u != [] {
      assert t == [t[0]] + t[1..];
      if u[0] == t[0] && IsSubseq(u[1..], t[1..]) {
        SubseqMultiset(u[1..], t[1..]);
        assert u == [u[0]] + u[1..];
      } else {
        SubseqMultiset(u, t[1..]);
      }
    }
  }

  /** Conversely, any part of the multiset of `t` is the multiset of some
      subsequence of `t`; so the same multisets arise from every
      arrangement of `t`. */
  lemma {:induction false} SubMultisetSubseq<T>(m: multiset<T>, t: seq<T>) returns (u: seq<T>)
    requires m <= multiset(t)
    ensures IsSubseq(u, t) && multiset(u) == m
    decreases |t|
  {
    if t == [] {
      u := [];
    } else {
      assert t == [t[0]] + t[1..];
      assert multiset(t) == multiset{t[0]} + multiset(t[1..]);
      if t[0] in m {
        var rest := SubMultisetSubseq(m - multiset{t[0]}, t[1..]);
        u := [t[0]] + rest;
        assert u[1..] == rest;
        assert multiset(u) == multiset{t[0]} + multiset(rest);
      } else {
        assert m <= multiset(t[1..]) by {
          forall x ensures m[x] <= multiset(t[1..])[x] {
            if x == t[0] {
              assert m[x] == 0;
            }
          }
        }
        u := SubMultisetSubseq(m, t[1..]);
        if u != [] {
          assert u[0] in multiset(u);
        }
      }
    }
  }
}
