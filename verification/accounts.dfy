/**
 * The per-user account record and the rules that read it: lazy defaults,
 * the timed boost, the steal-list pruning, bet validation and the game
 * statistics.
 */
module Accounts {
  import opened Wrappers

  /**
   * A stored timestamp, as whole seconds since the epoch. `Absent` is the
   * empty string or `None` the record starts with; `Malformed` is a string
   * that does not parse as an ISO-8601 date-time.
   */
  datatype Stamp = Absent | Malformed | At(seconds: int)

  const StartingBalance: int := 500
  const DaySeconds: int := 86400

  /**
   * One user's record. `steals` holds one day number per steal attempt;
   * `items` is the list of owned catalog names.
   */
  datatype Account = Account(
    balance: int,
    lastDaily: Stamp,
    steals: seq<int>,
    items: seq<string>,
    boostEnd: Stamp,
    gamesPlayed: int,
    totalWinnings: int,
    totalLosses: int)

  /** The record `get_user_data` inserts for an unknown id. */
  function NewAccount(): Account {
    Account(StartingBalance, Absent, [], [], Absent, 0, 0, 0)
  }

  /** The record an id has once `get_user_data` has run for it. */
  function Lookup(users: map<int, Account>, id: int): Account {
    if id in users then users[id] else NewAccount()
  }

  /** The user table after `get_user_data(id)`. */
  function Open(users: map<int, Account>, id: int): (r: map<int, Account>)
    ensures r.Keys == users.Keys + {id}
    ensures r[id] == Lookup(users, id)
    ensures forall other :: other in users ==> r[other] == users[other]
  {
    users[id := Lookup(users, id)]
  }

  /** The UTC calendar day of an instant, as a day number. */
  function Day(now: int): int {
    now / DaySeconds
  }

  function Min(x: int, y: int): int {
    if x <= y then x else y
  }

  predicate NoDup<T(==)>(s: seq<T>) {
    forall i, j :: 0 <= i < j < |s| ==> s[i] != s[j]
  }

  // ---------------------------------------------------------------- boosts

  /** `has_boost`: a boost end is stored, parses, and lies strictly after now. */
  predicate HasBoost(a: Account, now: int)
    ensures a.boostEnd == Absent || a.boostEnd == Malformed ==> !HasBoost(a, now)
    ensures a.boostEnd.At? ==> (HasBoost(a, now) <==> now < a.boostEnd.seconds)
  {
    a.boostEnd.At? && now < a.boostEnd.seconds
  }

  /** `get_boost_multiplier`. */
  function BoostMultiplier(a: Account, now: int): (m: int)
    ensures 1 <= m <= 3
    ensures m > 1 ==> HasBoost(a, now)
    ensures m == 3 <==> HasBoost(a, now) && "boost_x3" in a.items
  {
    if !HasBoost(a, now) then 1
    else if "boost_x3" in a.items then 3
    else if "boost_x2" in a.items then 2
    else 1
  }

  /** `apply_boost`. */
  function ApplyBoost(amount: int, a: Account, now: int): (r: int)
    ensures amount >= 0 ==> amount <= r <= 3 * amount
    ensures !HasBoost(a, now) ==> r == amount
    ensures amount > 0 ==> (r > amount <==> BoostMultiplier(a, now) > 1)
  {
    var m := BoostMultiplier(a, now);
    assert m == 1 || m == 2 || m == 3;
    amount * m
  }

  /** The table of multipliers while a boost is running: the triple item outranks the double. */
  lemma BoostRanking(a: Account, now: int)
    requires HasBoost(a, now)
    ensures "boost_x3" in a.items ==> BoostMultiplier(a, now) == 3
    ensures "boost_x3" !in a.items && "boost_x2" in a.items ==> BoostMultiplier(a, now) == 2
    ensures "boost_x3" !in a.items && "boost_x2" !in a.items ==> BoostMultiplier(a, now) == 1
  {
  }

  /** A missing, unparsable or expired boost end leaves every amount as it is. */
  lemma NoBoostWithoutFutureEnd(a: Account, now: int, amount: int)
    requires a.boostEnd == Absent || a.boostEnd == Malformed || (a.boostEnd.At? && a.boostEnd.seconds <= now)
    ensures ApplyBoost(amount, a, now) == amount
  {
  }

  /** Boost state depends on items and the boost end only, never on the balance or counters. */
  lemma BoostIgnoresBalance(a: Account, b: Account, now: int)
    requires a.items == b.items && a.boostEnd == b.boostEnd
    ensures BoostMultiplier(a, now) == BoostMultiplier(b, now)
  {
  }

  // ---------------------------------------------------------------- steals

  /** `reset_steals_if_needed`: keep only the entries stamped with today. */
  function PruneSteals(steals: seq<int>, today: int): (kept: seq<int>)
    ensures |kept| == multiset(steals)[today]
    ensures forall i :: 0 <= i < |kept| ==> kept[i] == today
  {
    if steals == [] then []
    else
      assert steals == [steals[0]] + steals[1..];
      if steals[0] == today then [today] + PruneSteals(steals[1..], today)
      else PruneSteals(steals[1..], today)
  }

  /** Pruning twice is pruning once. */
  lemma {:induction false} PruneStealsIdempotent(steals: seq<int>, today: int)
    ensures PruneSteals(PruneSteals(steals, today), today) == PruneSteals(steals, today)
  {
    AllTodayPruned(PruneSteals(steals, today), today);
  }

  /** A list made only of today's entries survives pruning whole. */
  lemma {:induction false} AllTodayPruned(s: seq<int>, today: int)
    requires forall i :: 0 <= i < |s| ==> s[i] == today
    ensures PruneSteals(s, today) == s
  {
    if s != [] {
      AllTodayPruned(s[1..], today);
    }
  }

  /** Pruning keeps today's entries in their original order: it is a subsequence of the input. */
  lemma {:induction false} PruneStealsKeepsOrder(steals: seq<int>, today: int)
    ensures |PruneSteals(steals, today)| <= |steals|
    ensures PruneSteals(steals, today) + [today] == PruneSteals(steals + [today], today)
  {
    if steals != [] {
      PruneStealsKeepsOrder(steals[1..], today);
      assert (steals + [today])[1..] == steals[1..] + [today];
    } else {
      assert PruneSteals([today], today) == [today] + PruneSteals([], today);
    }
  }

  /** The daily steal quota: 3, or 4 with `extra_steal`. */
  function StealQuota(a: Account): (q: int)
    ensures q == 3 || q == 4
    ensures q == 4 <==> "extra_steal" in a.items
  {
    if "extra_steal" in a.items then 4 else 3
  }

  // ---------------------------------------------------------------- wagers

  datatype BetError = NotPositive | OverBalance

  /** `validate_bet`: `None` when the bet is accepted. */
  function ValidateBet(a: Account, mise: int): (e: Option<BetError>)
    ensures e == None <==> 0 < mise <= a.balance
    ensures e == Some(NotPositive) <==> mise <= 0
  {
    if mise <= 0 then Some(NotPositive)
    else if mise > a.balance then Some(OverBalance)
    else None
  }

  /** What the statistics counters say the player netted on one game. */
  function RecordedNet(before: Account, after: Account): int {
    (after.totalWinnings - after.totalLosses) - (before.totalWinnings - before.totalLosses)
  }

  /** `record_game_result` on a record. */
  function Tally(a: Account, mise: int, gain: int): (r: Account)
    ensures r.gamesPlayed == a.gamesPlayed + 1
    ensures r.(gamesPlayed := a.gamesPlayed, totalWinnings := a.totalWinnings, totalLosses := a.totalLosses) == a
    ensures mise > 0 ==> r.totalWinnings >= a.totalWinnings && r.totalLosses >= a.totalLosses
    ensures mise > 0 ==> (r.totalWinnings > a.totalWinnings) != (r.totalLosses > a.totalLosses)
    ensures (RecordedNet(a, r) == gain - mise) <==> (gain > mise || gain == 0)
    ensures gain > mise ==> r.totalWinnings == a.totalWinnings + (gain - mise) && r.totalLosses == a.totalLosses
    ensures gain <= mise ==> r.totalLosses == a.totalLosses + mise && r.totalWinnings == a.totalWinnings
  {
    if gain > mise then a.(gamesPlayed := a.gamesPlayed + 1, totalWinnings := a.totalWinnings + (gain - mise))
    else a.(gamesPlayed := a.gamesPlayed + 1, totalLosses := a.totalLosses + mise)
  }

  /** A push (the stake handed back) is counted as a loss of the whole stake. */
  lemma PushCountedAsLoss(a: Account, mise: int)
    requires mise > 0
    ensures Tally(a, mise, mise).totalLosses == a.totalLosses + mise
    ensures Tally(a, mise, mise).totalWinnings == a.totalWinnings
  {
  }

  /**
   * The record after a validated game: stake deducted, gain credited,
   * statistics recorded.
   */
  function Settle(a: Account, mise: int, gain: int): (r: Account)
    ensures r.balance == a.balance - mise + gain
    ensures ValidateBet(a, mise) == None && gain >= 0 ==> r.balance >= 0
    ensures r.items == a.items && r.boostEnd == a.boostEnd && r.steals == a.steals && r.lastDaily == a.lastDaily
    ensures r.gamesPlayed == a.gamesPlayed + 1
    ensures r.totalWinnings == a.totalWinnings + (if gain > mise then gain - mise else 0)
    ensures r.totalLosses == a.totalLosses + (if gain > mise then 0 else mise)
  {
    Tally(a.(balance := a.balance - mise + gain), mise, gain)
  }

  /** Deducting the stake, then crediting the gain and tallying, is settling. */
  lemma SettleInSteps(a: Account, mise: int, gain: int)
    ensures Tally(a.(balance := a.balance - mise).(balance := a.balance - mise + gain), mise, gain) == Settle(a, mise, gain)
  {
  }

  // ---------------------------------------------------------------- daily

  const DailyBase: int := 100

  /** No parseable claim less than 24 hours old: `daily` will pay. */
  predicate ClaimOpen(a: Account, now: int)
    ensures a.lastDaily == Absent || a.lastDaily == Malformed ==> ClaimOpen(a, now)
    ensures a.lastDaily.At? ==> (ClaimOpen(a, now) <==> now >= a.lastDaily.seconds + DaySeconds)
  {
    !(a.lastDaily.At? && now - a.lastDaily.seconds < DaySeconds)
  }

  /** The record after a successful `daily`. */
  function Claim(a: Account, now: int): (r: Account)
    ensures r.balance == a.balance + ApplyBoost(DailyBase, a, now)
    ensures DailyBase <= r.balance - a.balance <= 3 * DailyBase
    ensures r.lastDaily == At(now)
    ensures r.(balance := a.balance, lastDaily := a.lastDaily) == a
  {
    a.(balance := a.balance + ApplyBoost(DailyBase, a, now), lastDaily := At(now))
  }

  /** After a claim at `now`, every claim before `now + 24h` is refused. */
  lemma ClaimClosesDay(a: Account, now: int, later: int)
    requires now <= later < now + DaySeconds
    ensures !ClaimOpen(Claim(a, now), later)
    ensures ClaimOpen(Claim(a, now), now + DaySeconds)
  {
  }

  /** An unparsable last claim is treated as no claim at all. */
  lemma MalformedClaimIsNoClaim(a: Account, now: int)
    requires a.lastDaily == Malformed
    ensures ClaimOpen(a, now) && ClaimOpen(a.(lastDaily := Absent), now)
  {
  }

  // ---------------------------------------------------------------- admin

  /** The debit of `remove`: the balance less the amount, floored at zero. */
  function ClampedDebit(balance: int, amount: int): (r: int)
    ensures r >= 0
    ensures r == balance - amount || (r == 0 && balance - amount < 0)
    ensures amount >= 0 && balance >= 0 ==> r <= balance
  {
    if balance - amount > 0 then balance - amount else 0
  }
}
