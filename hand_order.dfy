/** Hand categories, the evaluation record and its total order
    (`HandRank`, `HandEvaluation`, `impl Ord for HandEvaluation` and
    `hand_rank_name` in src/poker_rules.rs). */
module HandOrder {

  /** The ten categories, weakest first. */
  datatype HandRank = HighCard | OnePair | TwoPair | ThreeOfAKind | Straight
                    | Flush | FullHouse | FourOfAKind | StraightFlush | RoyalFlush
  {
    /** The explicit discriminant the derived ordering compares. */
    function Discriminant(): (d: nat)
      ensures 1 <= d <= 10
      ensures d == 1 <==> this == HighCard
      ensures d == 10 <==> this == RoyalFlush
    {
      match this
      case HighCard => 1
      case OnePair => 2
      case TwoPair => 3
      case ThreeOfAKind => 4
      case Straight => 5
      case Flush => 6
      case FullHouse => 7
      case FourOfAKind => 8
      case StraightFlush => 9
      case RoyalFlush => 10
    }
  }

  /** The discriminant identifies the category. */
  lemma DiscriminantInjective(a: HandRank, b: HandRank)
    requires a.Discriminant() == b.Discriminant()
    ensures a == b
  {
  }

  /** A scored hand: category, deciding rank values and kickers. */
  datatype HandEvaluation = HandEvaluation(rank: HandRank, primary: nat, secondary: nat, kickers: seq<nat>)

  datatype Ordering = Less | Equal | Greater
  {
    function Reverse(): (o: Ordering)
      ensures (o == Less) == (this == Greater)
      ensures (o == Equal) == (this == Equal)
      ensures (o == Greater) == (this == Less)
    {
      match this
      case Less => Greater
      case Equal => Equal
      case Greater => Less
    }
  }

  /** `u8::cmp` (and the discriminant comparison) on unbounded numbers. */
  function CompareNat(a: nat, b: nat): (o: Ordering)
    ensures o == Less <==> a < b
    ensures o == Equal <==> a == b
    ensures o == Greater <==> a > b
  {
    if a < b then Less else if a == b then Equal else Greater
  }

  /** `Vec<u8>::cmp`: element by element, and a proper prefix is smaller. */
  function CompareSeq(a: seq<nat>, b: seq<nat>): (o: Ordering)
    decreases |a|
  {
    if a == [] then (if b == [] then Equal else Less)
    else if b == [] then Greater
    else if a[0] != b[0] then CompareNat(a[0], b[0])
    else CompareSeq(a[1..], b[1..])
  }

  /** `HandEvaluation::cmp`: category, then primary, then secondary, then
      kickers, each deciding only on a tie of everything before it. */
  function Compare(x: HandEvaluation, y: HandEvaluation): (o: Ordering)
  {
    if x.rank != y.rank then CompareNat(x.rank.Discriminant(), y.rank.Discriminant())
    else if x.primary != y.primary then CompareNat(x.primary, y.primary)
    else if x.secondary != y.secondary then CompareNat(x.secondary, y.secondary)
    else CompareSeq(x.kickers, y.kickers)
  }

  /** `x <= y` under the order. */
  predicate Le(x: HandEvaluation, y: HandEvaluation)
  {
    Compare(x, y) != Greater
  }

  lemma {:induction false} CompareSeqReverse(a: seq<nat>, b: seq<nat>)
    ensures CompareSeq(b, a) == CompareSeq(a, b).Reverse()
    ensures CompareSeq(a, b) == Equal <==> a == b
    decreases |a|
  {
    if a != [] && b != [] && a[0] == b[0] {
      CompareSeqReverse(a[1..], b[1..]);
      assert a == [a[0]] + a[1..] && b == [b[0]] + b[1..];
    }
  }

  lemma {:induction false} CompareSeqTransitive(a: seq<nat>, b: seq<nat>, c: seq<nat>)
    requires CompareSeq(a, b) == Less && CompareSeq(b, c) == Less
    ensures CompareSeq(a, c) == Less
    decreases |a|
  {
    if a != [] && b != [] && c != [] && a[0] == b[0] == c[0] {
      CompareSeqTransitive(a[1..], b[1..], c[1..]);
    }
  }

  /** Swapping the operands reverses the answer, and only identical
      evaluations compare equal. */
  lemma CompareAntisymmetric(x: HandEvaluation, y: HandEvaluation)
    ensures Compare(y, x) == Compare(x, y).Reverse()
    ensures Compare(x, y) == Equal <==> x == y
  {
    CompareSeqReverse(x.kickers, y.kickers);
    if x.rank != y.rank {
      if x.rank.Discriminant() == y.rank.Discriminant() {
        DiscriminantInjective(x.rank, y.rank);
      }
    }
  }

  lemma CompareTransitive(x: HandEvaluation, y: HandEvaluation, z: HandEvaluation)
    requires Compare(x, y) == Less && Compare(y, z) == Less
    ensures Compare(x, z) == Less
  {
    CompareAntisymmetric(x, y);
    CompareAntisymmetric(y, z);
    CompareAntisymmetric(x, z);
    if x.rank == y.rank == z.rank && x.primary == y.primary == z.primary
       && x.secondary == y.secondary == z.secondary {
      CompareSeqTransitive(x.kickers, y.kickers, z.kickers);
    }
  }

  /** `Le` is a total order: reflexive, antisymmetric, transitive, total. */
  lemma LeTotalOrder(x: HandEvaluation, y: HandEvaluation, z: HandEvaluation)
    ensures Le(x, x)
    ensures Le(x, y) && Le(y, x) ==> x == y
    ensures Le(x, y) && Le(y, z) ==> Le(x, z)
    ensures Le(x, y) || Le(y, x)
  {
    CompareAntisymmetric(x, x);
    CompareAntisymmetric(x, y);
    CompareAntisymmetric(y, z);
    CompareAntisymmetric(x, z);
    if Compare(x, y) == Less && Compare(y, z) == Less {
      CompareTransitive(x, y, z);
    }
  }

  /** A better category wins whatever the rank values and kickers. */
  lemma CategoryDecides(x: HandEvaluation, y: HandEvaluation)
    requires x.rank.Discriminant() > y.rank.Discriminant()
    ensures Compare(x, y) == Greater
  {
  }

  /** In a category tie, the primary value decides next. */
  lemma PrimaryDecides(x: HandEvaluation, y: HandEvaluation)
    requires x.rank == y.rank && x.primary > y.primary
    ensures Compare(x, y) == Greater
  {
  }

  /** A kicker list that is a proper prefix of another is smaller (Rust's
      lexicographic `Vec` order). */
  lemma {:induction false} CompareSeqPrefix(a: seq<nat>, b: seq<nat>)
    requires |a| < |b| && a == b[..|a|]
    ensures CompareSeq(a, b) == Less
    decreases |a|
  {
    if a != [] {
      assert a[1..] == b[1..][..|a| - 1];
      CompareSeqPrefix(a[1..], b[1..]);
    }
  }

  /** `hand_rank_name`. */
  function HandRankName(r: HandRank): (name: string)
    ensures |name| >= 5
  {
    match r
    case HighCard => "High Card"
    case OnePair => "One Pair"
    case TwoPair => "Two Pair"
    case ThreeOfAKind => "Three of a Kind"
    case Straight => "Straight"
    case Flush => "Flush"
    case FullHouse => "Full House"
    case FourOfAKind => "Four of a Kind"
    case StraightFlush => "Straight Flush"
    case RoyalFlush => "Royal Flush"
  }

  /** Different categories have different names. */
  lemma HandRankNameInjective(a: HandRank, b: HandRank)
    requires HandRankName(a) == HandRankName(b)
    ensures a == b
  {
  }
}
