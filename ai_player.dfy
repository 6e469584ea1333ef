/** The integer part of the advanced AI (src/ai_player.rs): hand-strength
    buckets, the beginner decision table and the intermediate decision
    with its floating-point equity tests taken as given answers. */
module AiPlayer {
  import opened Common
  import opened Cards
  import opened Actions
  import opened HandOrder
  import opened BestHand
  import Players

  /** `HandStrength`, weakest first. */
  datatype HandStrength = Weak | Medium | Strong | VeryStrong
  {
    /** The position in the derived order. */
    function Level(): (n: nat)
      ensures n <= 3
      ensures n == 0 <==> this == Weak
      ensures n == 3 <==> this == VeryStrong
    {
      match this
      case Weak => 0
      case Medium => 1
      case Strong => 2
      case VeryStrong => 3
    }
  }

  /** `evaluate_preflop_strength`: pairs of tens or better are strong, of
      sevens to nines medium; two unpaired cards of queen-ten or better are
      medium; everything else, including a hand that is not two cards, is
      weak. */
  function PreflopStrength(hole: seq<Card>): (h: HandStrength)
    ensures |hole| != 2 ==> h == Weak
    ensures h != VeryStrong
    ensures |hole| == 2 && hole[0].rank == hole[1].rank ==>
              (h == Strong <==> hole[0].rank.Value() >= 10) &&
              (h == Medium <==> 7 <= hole[0].rank.Value() < 10)
    ensures |hole| == 2 && hole[0].rank != hole[1].rank ==>
              (h == Medium <==> Max(hole[0].rank.Value(), hole[1].rank.Value()) >= 12 &&
                                Min(hole[0].rank.Value(), hole[1].rank.Value()) >= 10) &&
              h != Strong
  {
    if |hole| != 2 then Weak
    else
      var r1 := hole[0].rank.Value();
      var r2 := hole[1].rank.Value();
      if r1 == r2 then
        (if r1 >= 10 then Strong else if r1 >= 7 then Medium else Weak)
      else
        var high := if r1 >= r2 then r1 else r2;
        var low := if r1 >= r2 then r2 else r1;
        if high >= 12 && low >= 10 then Medium
        else if high >= 10 then Weak
        else Weak
  }

  /** The bucket of a scored hand once the flop is out. */
  function StrengthOfEvaluation(e: HandEvaluation): (h: HandStrength)
    ensures h == VeryStrong <==> e.rank.Discriminant() >= FullHouse.Discriminant()
    ensures h == Strong <==> e.rank in {ThreeOfAKind, Straight, Flush}
    ensures h == Medium <==> e.rank == TwoPair || (e.rank == OnePair && e.primary >= 10)
  {
    match e.rank
    case HighCard => if e.primary >= 12 then Weak else Weak
    case OnePair => if e.primary >= 10 then Medium else Weak
    case TwoPair => Medium
    case ThreeOfAKind => Strong
    case Straight => Strong
    case Flush => Strong
    case FullHouse => VeryStrong
    case FourOfAKind => VeryStrong
    case StraightFlush => VeryStrong
    case RoyalFlush => VeryStrong
  }

  /** The bucket never goes down as the evaluation goes up. */
  lemma StrengthMonotone(x: HandEvaluation, y: HandEvaluation)
    requires Le(x, y)
    ensures StrengthOfEvaluation(x).Level() <= StrengthOfEvaluation(y).Level()
  {
    if x.rank == OnePair && y.rank == OnePair && x.primary >= 10 {
      CompareAntisymmetric(x, y);
      assert y.primary >= x.primary;
    }
  }

  /** `evaluate_hand_strength`: before the flop only the hole cards count;
      afterwards the best hand's category does. */
  function EvaluateHandStrength(hole: seq<Card>, community: seq<Card>): (h: HandStrength)
    ensures |community| < 3 ==> h == PreflopStrength(hole)
    ensures |community| >= 3 ==> h == StrengthOfEvaluation(EvaluateHand(hole, community))
  {
    if |community| < 3 then PreflopStrength(hole)
    else StrengthOfEvaluation(EvaluateHand(hole, community))
  }

  /** `beginner_decision`, on the numbers it reads. */
  function BeginnerDecision(chips: nat, playerBet: nat, roundBet: nat, minRaise: nat,
                            h: HandStrength): (a: PlayerAction)
    ensures SatSub(roundBet, playerBet) > chips ==> a == Fold
    ensures SatSub(roundBet, playerBet) <= chips && playerBet >= roundBet ==> a == Check
    ensures a.Raise? ==> h == VeryStrong && 0 < a.amount == Min(minRaise, chips / 4)
    ensures a == Call ==> 0 < SatSub(roundBet, playerBet) <= chips
    ensures 0 < SatSub(roundBet, playerBet) <= chips ==>
              match h
              case VeryStrong => a == (if Min(minRaise, chips / 4) > 0 then Raise(Min(minRaise, chips / 4)) else Call)
              case Strong => a == (if SatSub(roundBet, playerBet) <= chips / 6 then Call else Fold)
              case Medium => a == (if SatSub(roundBet, playerBet) <= chips / 10 then Call else Fold)
              case Weak => a == (if SatSub(roundBet, playerBet) <= minRaise / 2 then Call else Fold)
  {
    var owed := SatSub(roundBet, playerBet);
    if owed > chips then Fold
    else if owed == 0 then Check
    else
      match h
      case VeryStrong =>
        var raise := if minRaise <= chips / 4 then minRaise else chips / 4;
        if raise > 0 then Raise(raise) else Call
      case Strong => if owed <= chips / 6 then Call else Fold
      case Medium => if owed <= chips / 10 then Call else Fold
      case Weak => if owed <= minRaise / 2 then Call else Fold
  }

  /** A beginner raise never exceeds a quarter of the stack, and a strong
      hand calls wherever a medium one does. */
  lemma BeginnerBounds(chips: nat, playerBet: nat, roundBet: nat, minRaise: nat, h: HandStrength)
    ensures var a := BeginnerDecision(chips, playerBet, roundBet, minRaise, h);
            a.Raise? ==> 4 * a.amount <= chips
    ensures BeginnerDecision(chips, playerBet, roundBet, minRaise, Medium) == Call ==>
              BeginnerDecision(chips, playerBet, roundBet, minRaise, Strong) == Call
  {
  }

  /** The answers of the floating-point tests of `intermediate_decision`:
      whether the estimated equity beats the pot odds by the margin each
      bucket demands, and whether an aggressive personality sits in late
      position. */
  datatype EquityTests = EquityTests(strongEnough: bool, aggressiveLate: bool,
                                     mediumEnough: bool, weakEnough: bool)

  /** `intermediate_decision`, with the equity comparisons given. */
  function IntermediateDecision(chips: nat, playerBet: nat, roundBet: nat, minRaise: nat, pot: nat,
                                h: HandStrength, tests: EquityTests): (a: PlayerAction)
    ensures SatSub(roundBet, playerBet) > chips ==> a == Fold
    ensures SatSub(roundBet, playerBet) <= chips && playerBet >= roundBet ==>
              a == (if h.Level() >= Strong.Level() && Min(2 * minRaise, chips / 4) > 0
                    then Raise(Min(2 * minRaise, chips / 4)) else Check)
    ensures 0 < SatSub(roundBet, playerBet) <= chips && h == VeryStrong ==>
              a == (if Min(pot / 2, chips / 3) >= minRaise then Raise(Min(pot / 2, chips / 3)) else Call)
    ensures a.Raise? ==> 3 * a.amount <= chips
    ensures a == Call ==> 0 < SatSub(roundBet, playerBet) <= chips
    ensures h == Weak && a == Call ==> SatSub(roundBet, playerBet) <= minRaise
  {
    var owed := SatSub(roundBet, playerBet);
    if owed > chips then Fold
    else if owed == 0 then
      match h
      case VeryStrong | Strong =>
        var bet := if 2 * minRaise <= chips / 4 then 2 * minRaise else chips / 4;
        if bet > 0 then Raise(bet) else Check
      case _ => Check
    else
      match h
      case VeryStrong =>
        var raise := if pot / 2 <= chips / 3 then pot / 2 else chips / 3;
        if raise >= minRaise then Raise(raise) else Call
      case Strong =>
        if tests.strongEnough then
          if tests.aggressiveLate then (if minRaise <= chips / 4 then Raise(minRaise) else Call)
          else Call
        else Fold
      case Medium => if tests.mediumEnough then Call else Fold
      case Weak => if tests.weakEnough && owed <= minRaise then Call else Fold
  }

  /** The decision of `make_advanced_ai_decision` before the random
      personality adjustment: the table of the seat's difficulty applied
      to the strength of its cards. */
  function BaseAdvancedDecision(difficulty: Players.AIDifficulty, hole: seq<Card>, community: seq<Card>,
                                chips: nat, playerBet: nat, roundBet: nat, minRaise: nat, pot: nat,
                                tests: EquityTests): (a: PlayerAction)
    ensures SatSub(roundBet, playerBet) > chips ==> a == Fold
    ensures a.Raise? ==> 3 * a.amount <= chips
  {
    var h := EvaluateHandStrength(hole, community);
    match difficulty
    case Beginner => BeginnerDecision(chips, playerBet, roundBet, minRaise, h)
    case Intermediate => IntermediateDecision(chips, playerBet, roundBet, minRaise, pot, h, tests)
  }
}
