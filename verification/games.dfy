/**
 * The five wagering games, resolved from given draws. Each payout function
 * gives the amount credited back after the stake has been deducted: 0 on a
 * loss, the stake on a push, a boosted multiple of the stake on a win.
 */
module Games {
  import opened Wrappers
  import opened Text
  import opened Accounts

  // ---------------------------------------------------------------- coinflip

  datatype Side = Pile | Face

  /** Coinflip: the player's and the bot's sides match, and the doubled stake is boosted. */
  function CoinflipPayout(a: Account, now: int, mise: int, player: Side, bot: Side): (g: int)
    ensures player == bot ==> g == 2 * mise * BoostMultiplier(a, now)
    ensures player != bot ==> g == 0
    ensures mise > 0 ==> (g > mise <==> player == bot)
    ensures mise >= 0 ==> 0 <= g <= 6 * mise
  {
    if player == bot then ApplyBoost(mise * 2, a, now) else 0
  }

  // ---------------------------------------------------------------- dice

  /** The dice win: 1.8 times the stake, truncated to whole coins. */
  function DiceWin(mise: int): (w: int)
    ensures mise >= 0 ==> 5 * w <= 9 * mise < 5 * w + 5
    ensures mise >= 0 ==> mise <= w <= 2 * mise
    ensures mise >= 2 ==> w > mise
  {
    (9 * mise) / 5
  }

  /** Dice duel: higher roll wins 1.8 times the stake (boosted), a tie refunds the stake. */
  function DicePayout(a: Account, now: int, mise: int, player: int, bot: int): (g: int)
    ensures player > bot ==> g == DiceWin(mise) * BoostMultiplier(a, now)
    ensures player == bot ==> g == mise
    ensures player < bot ==> g == 0
    ensures mise >= 2 ==> (g > mise <==> player > bot)
    ensures mise >= 0 ==> 0 <= g <= 6 * mise
  {
    if player > bot then ApplyBoost(DiceWin(mise), a, now)
    else if player == bot then mise
    else 0
  }

  /** A one-coin dice win without boost pays back exactly the stake and is tallied as a loss. */
  lemma DiceOneCoinWinIsNoProfit(a: Account, now: int, player: int, bot: int)
    requires player > bot && !HasBoost(a, now)
    ensures DicePayout(a, now, 1, player, bot) == 1
    ensures Tally(a, 1, DicePayout(a, now, 1, player, bot)).totalLosses == a.totalLosses + 1
  {
  }

  // ---------------------------------------------------------------- roulette

  datatype Colour = Rouge | Noir | Vert

  function ColourName(c: Colour): string {
    match c
    case Rouge => "rouge"
    case Noir => "noir"
    case Vert => "vert"
  }

  /** The colour token, lower-cased; `None` when it is none of the three names. */
  function ParseColour(token: string): (c: Option<Colour>)
    ensures c.Some? <==> Lower(token) in {"rouge", "noir", "vert"}
    ensures c.Some? ==> ColourName(c.value) == Lower(token)
  {
    var t := Lower(token);
    if t == "rouge" then Some(Rouge)
    else if t == "noir" then Some(Noir)
    else if t == "vert" then Some(Vert)
    else None
  }

  /** Every colour name parses back to its colour, whatever the letter case. */
  lemma ParseColourName(c: Colour)
    ensures ParseColour(ColourName(c)) == Some(c)
  {
    var n := ColourName(c);
    LowerKeepsLowercase(n);
  }

  /** Parsing ignores letter case. */
  lemma ParseColourIgnoresCase(token: string)
    ensures ParseColour(Lower(token)) == ParseColour(token)
  {
    LowerIdempotent(token);
  }

  /** Slot `slot` of the 37-slot wheel: eighteen red, then eighteen black, then one green. */
  function WheelColour(slot: int): (c: Colour)
    requires 0 <= slot < 37
    ensures c == Vert <==> slot == 36
    ensures c == Rouge <==> slot < 18
  {
    if slot < 18 then Rouge else if slot < 36 then Noir else Vert
  }

  /** Roulette: an exact colour match pays 35 times (green) or 2 times (red, black), boosted. */
  function RoulettePayout(a: Account, now: int, mise: int, bet: Colour, result: Colour): (g: int)
    ensures bet != result ==> g == 0
    ensures bet == result == Vert ==> g == 35 * mise * BoostMultiplier(a, now)
    ensures bet == result && bet != Vert ==> g == 2 * mise * BoostMultiplier(a, now)
    ensures mise > 0 ==> (g > mise <==> bet == result)
    ensures mise >= 0 ==> 0 <= g <= 105 * mise
  {
    if bet == result then
      if bet == Vert then ApplyBoost(mise * 35, a, now) else ApplyBoost(mise * 2, a, now)
    else 0
  }

  // ---------------------------------------------------------------- blackjack

  /** Every card value lies in 1..11, the range cards are drawn from. */
  predicate Cards(cards: seq<int>) {
    forall i :: 0 <= i < |cards| ==> 1 <= cards[i] <= 11
  }

  function Sum(cards: seq<int>): int {
    if cards == [] then 0 else cards[0] + Sum(cards[1..])
  }

  /** How many 10-point reductions bring a total of `total` down to 21 or below. */
  function ReductionsNeeded(total: int): int {
    if total <= 21 then 0 else (total - 12) / 10
  }

  /**
   * The hand value in closed form: each ace (a card of 11) may count 1
   * instead, and exactly as many aces do so as are needed to reach 21, or
   * all of them when that is not enough.
   */
  function HandTotal(cards: seq<int>): int {
    var s := Sum(cards);
    s - 10 * Min(multiset(cards)[11], ReductionsNeeded(s))
  }

  /** `get_hand_value`: sum the cards, then knock 10 off per ace while the total exceeds 21. */
  method HandValue(cards: seq<int>) returns (total: int)
    ensures total == HandTotal(cards)
  {
    total := Sum(cards);
    var aces := multiset(cards)[11];
    while total > 21 && aces > 0
      invariant 0 <= aces <= multiset(cards)[11]
      invariant total == Sum(cards) - 10 * (multiset(cards)[11] - aces)
      invariant multiset(cards)[11] - aces <= ReductionsNeeded(Sum(cards))
    {
      total := total - 10;
      aces := aces - 1;
    }
  }

  /** Each card adds at least 1 point, and each ace 10 more. */
  lemma {:induction false} SumAtLeast(cards: seq<int>)
    requires Cards(cards)
    ensures Sum(cards) >= |cards| + 10 * multiset(cards)[11]
  {
    if cards != [] {
      assert cards == [cards[0]] + cards[1..];
      SumAtLeast(cards[1..]);
    }
  }

  /**
   * A hand is worth at least one point per card and at most its raw sum;
   * above 21 every ace has already been counted as 1.
   */
  lemma HandTotalBounds(cards: seq<int>)
    requires Cards(cards)
    ensures |cards| <= HandTotal(cards) <= Sum(cards)
    ensures HandTotal(cards) > 21 ==> HandTotal(cards) == Sum(cards) - 10 * multiset(cards)[11]
  {
    SumAtLeast(cards);
  }

  /** Two aces and a ten reduce to 12; ten, ten and five stay at 25, a bust. */
  lemma HandExamples()
    ensures HandTotal([11, 11, 10]) == 12
    ensures HandTotal([10, 10, 5]) == 25
  {
    assert Sum([11, 11, 10]) == 32 by {
      assert [11, 11, 10][1..] == [11, 10];
      assert [11, 10][1..] == [10];
    }
    assert multiset([11, 11, 10])[11] == 2;
    assert Sum([10, 10, 5]) == 25 by {
      assert [10, 10, 5][1..] == [10, 5];
      assert [10, 5][1..] == [5];
    }
    assert multiset([10, 10, 5])[11] == 0;
  }

  /** Two opening cards never exceed 21, so the player-bust branch is never taken. */
  lemma OpeningHandNeverBusts(c1: int, c2: int)
    requires 1 <= c1 <= 11 && 1 <= c2 <= 11
    ensures HandTotal([c1, c2]) <= 21
  {
    assert Sum([c1, c2]) == c1 + c2 by {
      assert [c1, c2][1..] == [c2];
      assert [c2][1..] == [];
      assert Sum([c2]) == c2 + Sum([]);
    }
    if c1 + c2 == 22 {
      assert multiset([c1, c2])[11] == 2;
    }
  }

  /**
   * `cards` is the hand the dealer stands on: the two opening cards followed
   * by the first hits, stopping at the first total of 17 or more.
   */
  predicate IsDealerHand(opening: seq<int>, hits: seq<int>, cards: seq<int>) {
    && 2 <= |cards| <= |hits| + 2
    && cards == opening + hits[..|cards| - 2]
    && HandTotal(cards) >= 17
    && forall n :: 2 <= n < |cards| ==> HandTotal(cards[..n]) < 17
  }

  /** The dealer hit loop: draw while the hand is worth less than 17. */
  method DealerPlay(opening: seq<int>, hits: seq<int>) returns (cards: seq<int>, total: int)
    requires |opening| == 2 && Cards(opening)
    requires |hits| >= 15 && Cards(hits)
    ensures IsDealerHand(opening, hits, cards)
    ensures total == HandTotal(cards) && 17 <= total
    ensures |cards| <= 17
  {
    cards := opening;
    total := HandValue(cards);
    while total < 17
      invariant 2 <= |cards| <= 17
      invariant cards == opening + hits[..|cards| - 2]
      invariant Cards(cards)
      invariant total == HandTotal(cards)
      invariant forall n :: 2 <= n < |cards| ==> HandTotal(cards[..n]) < 17
      decreases 17 - |cards|
    {
      HandTotalBounds(cards);
      var drawn := hits[|cards| - 2];
      var next := cards + [drawn];
      assert 1 <= drawn <= 11;
      assert hits[..|next| - 2] == hits[..|cards| - 2] + [drawn];
      assert next[..|cards|] == cards;
      assert forall n :: 2 <= n < |cards| ==> next[..n] == cards[..n];
      cards := next;
      total := HandValue(cards);
    }
  }

  /** Blackjack resolution, in the order the source tests it. */
  function BlackjackPayout(a: Account, now: int, mise: int, player: int, dealer: int): (g: int)
    ensures player > 21 ==> g == 0
    ensures player <= 21 && (dealer > 21 || player > dealer) ==> g == 2 * mise * BoostMultiplier(a, now)
    ensures player <= 21 && dealer <= 21 && player == dealer ==> g == mise
    ensures player <= 21 && dealer <= 21 && player < dealer ==> g == 0
    ensures mise > 0 ==> (g > mise <==> player <= 21 && (dealer > 21 || player > dealer))
    ensures mise >= 0 ==> 0 <= g <= 6 * mise
  {
    if player > 21 then 0
    else if dealer > 21 then ApplyBoost(mise * 2, a, now)
    else if player > dealer then ApplyBoost(mise * 2, a, now)
    else if player == dealer then mise
    else 0
  }

  /** A push needs both hands between 17 and 21, since the dealer stands on 17 or more. */
  lemma BlackjackPushRange(a: Account, now: int, mise: int, p1: int, p2: int, dealer: int)
    requires 1 <= p1 <= 11 && 1 <= p2 <= 11 && dealer >= 17 && mise > 0
    requires BlackjackPayout(a, now, mise, HandTotal([p1, p2]), dealer) == mise
    ensures 17 <= HandTotal([p1, p2]) == dealer <= 21
  {
    OpeningHandNeverBusts(p1, p2);
  }

  // ---------------------------------------------------------------- slot

  datatype Symbol = Apple | Orange | Lemon | Grape | Cherry | Diamond | Star | Seven

  /** The slot multiplier ladder. */
  function SlotMultiplier(r1: Symbol, r2: Symbol, r3: Symbol): (m: int)
    ensures m in {0, 2, 5, 10, 15, 25, 50}
    ensures m >= 5 <==> r1 == r2 == r3
    ensures m == 2 <==> !(r1 == r2 == r3) && (r1 == r2 || r2 == r3 || r1 == r3)
    ensures m == 0 <==> r1 != r2 && r2 != r3 && r1 != r3
  {
    if r1 == r2 && r2 == r3 then
      if r1 == Seven then 50
      else if r1 == Star then 25
      else if r1 == Diamond then 15
      else if r1 == Cherry then 10
      else 5
    else if r1 == r2 || r2 == r3 || r1 == r3 then 2
    else 0
  }

  /** Three of a kind pays by symbol: 50 for 7, 25 for the star, 15 for the diamond, 10 for the cherry, 5 for the other fruit. */
  lemma ThreeOfAKind(s: Symbol)
    ensures SlotMultiplier(s, s, s) == (match s
      case Seven => 50
      case Star => 25
      case Diamond => 15
      case Cherry => 10
      case _ => 5)
  {
  }

  /** The multiplier does not depend on the order of the reels. */
  lemma SlotSymmetric(r1: Symbol, r2: Symbol, r3: Symbol)
    ensures SlotMultiplier(r1, r2, r3) == SlotMultiplier(r2, r1, r3)
    ensures SlotMultiplier(r1, r2, r3) == SlotMultiplier(r1, r3, r2)
    ensures SlotMultiplier(r1, r2, r3) == SlotMultiplier(r3, r2, r1)
  {
  }

  /** Slot: a non-zero multiplier pays the boosted multiple, otherwise the stake is lost. */
  function SlotPayout(a: Account, now: int, mise: int, r1: Symbol, r2: Symbol, r3: Symbol): (g: int)
    ensures mise > 0 ==> (g > mise <==> SlotMultiplier(r1, r2, r3) > 0)
    ensures mise >= 0 ==> 0 <= g <= 150 * mise
  {
    var m := SlotMultiplier(r1, r2, r3);
    if m > 0 then ApplyBoost(mise * m, a, now) else 0
  }

  /** The slot gain is the stake times the reels' multiplier times the boost multiplier. */
  lemma SlotPayoutIsProduct(a: Account, now: int, mise: int, r1: Symbol, r2: Symbol, r3: Symbol)
    ensures SlotPayout(a, now, mise, r1, r2, r3) == mise * SlotMultiplier(r1, r2, r3) * BoostMultiplier(a, now)
  {
  }
}
