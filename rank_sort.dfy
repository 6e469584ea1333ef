/** Sorting rank values into descending order, as `evaluate_five_card_hand`
    does with `sort_by(|a, b| b.rank.cmp(&a.rank))` and as the kicker lists
    are sorted with `sort_by(|a, b| b.cmp(a))` (src/poker_rules.rs). */
module RankSort {

  /** Non-increasing from left to right. */
  predicate Descending(s: seq<nat>)
  {
    forall i, j :: 0 <= i < j < |s| ==> s[i] >= s[j]
  }

  /** Puts `x` in front of the first element it is not below. */
  function Insert(x: nat, s: seq<nat>): (r: seq<nat>)
    requires Descending(s)
    ensures Descending(r)
    ensures multiset(r) == multiset(s) + multiset{x}
    ensures |r| == |s| + 1
  {
    if s == [] || x >= s[0] then [x] + s
    else
      var rest := Insert(x, s[1..]);
      ConsDescending(s, x, rest);
      [s[0]] + rest
  }

  /** Putting the head of `s` back in front of a descending rearrangement
      of its tail plus some smaller `x` keeps the order. */
  lemma ConsDescending(s: seq<nat>, x: nat, rest: seq<nat>)
    requires Descending(s) && s != [] && x < s[0]
    requires Descending(rest) && multiset(rest) == multiset(s[1..]) + multiset{x}
    ensures Descending([s[0]] + rest)
    ensures multiset([s[0]] + rest) == multiset(s) + multiset{x}
  {
    assert s == [s[0]] + s[1..];
    HeadIsMax(s);
    forall j | 0 <= j < |rest| ensures rest[j] <= s[0] {
      assert rest[j] in multiset(rest);
      if rest[j] != x {
        assert rest[j] in multiset(s);
      }
    }
  }

  /** The head of a descending sequence bounds every element. */
  lemma HeadIsMax(s: seq<nat>)
    requires Descending(s) && s != []
    ensures forall y :: y in multiset(s) ==> y <= s[0]
  {
    forall y | y in multiset(s) ensures y <= s[0] {
      var i :| 0 <= i < |s| && s[i] == y;
    }
  }

  /** Insertion sort into descending order. */
  function SortDesc(s: seq<nat>): (r: seq<nat>)
    ensures Descending(r)
    ensures multiset(r) == multiset(s)
    ensures |r| == |s|
  {
    if s == [] then []
    else
      assert s == [s[0]] + s[1..];
      Insert(s[0], SortDesc(s[1..]))
  }

  /** A multiset has exactly one descending arrangement. */
  lemma {:induction false} DescendingUnique(a: seq<nat>, b: seq<nat>)
    requires Descending(a) && Descending(b)
    requires multiset(a) == multiset(b)
    ensures a == b
  {
    if a != [] {
      assert |b| == |multiset(b)| == |multiset(a)| == |a|;
      HeadIsMax(a);
      HeadIsMax(b);
      assert a[0] in multiset(a) && b[0] in multiset(b);
      assert a[0] == b[0];
      assert a == [a[0]] + a[1..] && b == [b[0]] + b[1..];
      assert multiset(a) == multiset{a[0]} + multiset(a[1..]);
      assert multiset(b) == multiset{b[0]} + multiset(b[1..]);
      forall y ensures multiset(a[1..])[y] == multiset(b[1..])[y] {
        assert multiset(a)[y] == multiset{a[0]}[y] + multiset(a[1..])[y];
        assert multiset(b)[y] == multiset{b[0]}[y] + multiset(b[1..])[y];
      }
      assert multiset(a[1..]) == multiset(b[1..]);
      DescendingUnique(a[1..], b[1..]);
    }
  }

  /** Sorting anything already descending gives it back, and sorting depends
      only on the multiset of its input. */
  lemma SortDescCanonical(s: seq<nat>, t: seq<nat>)
    requires multiset(s) == multiset(t)
    ensures SortDesc(s) == SortDesc(t)
    ensures Descending(t) ==> SortDesc(s) == t
  {
    DescendingUnique(SortDesc(s), SortDesc(t));
    if Descending(t) {
      DescendingUnique(SortDesc(s), t);
    }
  }
}
