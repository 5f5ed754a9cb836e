/**
 * The casino's user table and the command handlers that change it. Each
 * handler runs the same steps as the bot command it models: create the
 * accounts it touches, run its checks in order, then update the records in
 * place. Clock readings and random draws arrive as parameters.
 */
module Economy {
  import opened Wrappers
  import opened Text
  import opened Accounts
  import opened Games
  import opened Shop
  import opened Ranking

  datatype GameOutcome = InvalidColour | Refused(reason: BetError) | Played(gain: int)
  datatype DailyOutcome = TooSoon(remaining: int) | Claimed(gain: int)
  datatype StealError = InvalidTarget | QuotaReached(limit: int) | VictimTooPoor
  datatype StealOutcome = StealRefused(why: StealError) | Caught | Stolen(amount: int)
  datatype GiftError = ReceiverIsBot | ReceiverIsSender | AmountNotPositive | DonorTooPoor
  datatype GiftOutcome = GiftRefused(why: GiftError) | Given
  datatype PurchaseOutcome = PurchaseRefused(why: ShopError) | Purchased(item: string, price: int)
  datatype AdminOutcome = NotOwner | Adjusted(balance: int)
  datatype Totals = Totals(players: int, coins: int, games: int)

  /** The smallest balance `steal` will take from. */
  const MinVictimBalance: int := 50
  const MinSteal: int := 20
  const MaxSteal: int := 100

  /** Taking the stake from an entry and then crediting and tallying it leaves the settled entry. */
  lemma StakeThenCredit(u0: map<int, Account>, id: int, user: Account, mise: int, gain: int)
    ensures var staked := u0[id := user.(balance := user.balance - mise)];
      staked[id := Tally(staked[id].(balance := staked[id].balance + gain), mise, gain)] == u0[id := Settle(user, mise, gain)]
  {
    SettleInSteps(user, mise, gain);
  }

  /** Ids in the order `get_user_data` first created them. */
  function OpenOrder(order: seq<int>, users: map<int, Account>, id: int): seq<int> {
    if id in users then order else order + [id]
  }

  class Casino {
    var users: map<int, Account>
    var order: seq<int>

    /** `order` lists every key once; no account owns an item twice. */
    ghost predicate Valid()
      reads this
    {
      && NoDup(order)
      && Covers(order, users)
      && (forall id :: id in users ==> id in order)
      && (forall id :: id in users ==> NoDup(users[id].items))
    }

    /** The coins in circulation. */
    ghost function Coins(): int
      reads this
      requires Valid()
    {
      TotalBalance(order, users)
    }

    constructor ()
      ensures Valid() && users == map[] && order == []
    {
      users := map[];
      order := [];
    }

    /** `get_user_data`: insert a default record for an unknown id. */
    method GetUserData(id: int) returns (a: Account)
      requires Valid()
      modifies this
      ensures Valid()
      ensures users == Open(old(users), id)
      ensures order == OpenOrder(old(order), old(users), id)
      ensures a == users[id] == Lookup(old(users), id)
      ensures Coins() == old(Coins()) + (if id in old(users) then 0 else StartingBalance)
    {
      if id !in users {
        TotalBalanceAppend(order, users, id, NewAccount());
        users := users[id := NewAccount()];
        order := order + [id];
      } else {
        assert users == users[id := users[id]];
      }
      a := users[id];
    }

    /** `reset_steals_if_needed` on the record of `id`. */
    method ResetStealsIfNeeded(id: int, today: int)
      requires Valid() && id in users
      modifies this
      ensures Valid() && order == old(order)
      ensures users == old(users)[id := old(users)[id].(steals := PruneSteals(old(users)[id].steals, today))]
      ensures Coins() == old(Coins())
    {
      assert id in order;
      TotalBalanceUpdate(order, users, id, users[id].(steals := PruneSteals(users[id].steals, today)));
      users := users[id := users[id].(steals := PruneSteals(users[id].steals, today))];
    }

    /** `record_game_result` on the record of `id`. */
    method RecordGameResult(id: int, mise: int, gain: int)
      requires Valid() && id in users
      modifies this
      ensures Valid() && order == old(order)
      ensures users == old(users)[id := Tally(old(users)[id], mise, gain)]
      ensures Coins() == old(Coins())
    {
      var user := users[id];
      user := user.(gamesPlayed := user.gamesPlayed + 1);
      if gain > mise {
        user := user.(totalWinnings := user.totalWinnings + (gain - mise));
      } else {
        user := user.(totalLosses := user.totalLosses + mise);
      }
      assert id in order;
      TotalBalanceUpdate(order, users, id, user);
      users := users[id := user];
    }

    /** Set the balance of an existing record. */
    method SetBalance(id: int, balance: int)
      requires Valid() && id in users
      modifies this
      ensures Valid() && order == old(order)
      ensures users == old(users)[id := old(users)[id].(balance := balance)]
      ensures Coins() == old(Coins()) - old(users)[id].balance + balance
    {
      assert id in order;
      TotalBalanceUpdate(order, users, id, users[id].(balance := balance));
      users := users[id := users[id].(balance := balance)];
    }

    /**
     * The state a validated game leaves: the record of `id` exists, and it
     * is untouched when the bet is refused, or settled with `gain` otherwise.
     */
    ghost predicate Wagered(u0: map<int, Account>, id: int, mise: int, gain: int, r: GameOutcome)
      reads this
    {
      var a0 := Lookup(u0, id);
      match ValidateBet(a0, mise)
      case Some(e) => r == Refused(e) && users == Open(u0, id)
      case None => r == Played(gain) && users == u0[id := Settle(a0, mise, gain)]
    }

    /** The shared head of every game: create the account, validate the bet, deduct the stake. */
    method PlaceBet(id: int, mise: int) returns (user: Account, invalid: Option<BetError>)
      requires Valid()
      modifies this
      ensures Valid() && order == OpenOrder(old(order), old(users), id)
      ensures user == Lookup(old(users), id) && invalid == ValidateBet(user, mise)
      ensures invalid.Some? ==> users == Open(old(users), id)
      ensures invalid.None? ==> users == old(users)[id := user.(balance := user.balance - mise)]
      ensures Coins() == old(Coins()) + (if id in old(users) then 0 else StartingBalance) - (if invalid.None? then mise else 0)
    {
      user := GetUserData(id);
      invalid := ValidateBet(user, mise);
      if invalid.None? {
        SetBalance(id, user.balance - mise);
      }
    }

    /** The shared tail of every game: credit the gain, then record the result. */
    method Credit(id: int, mise: int, gain: int)
      requires Valid() && id in users
      modifies this
      ensures Valid() && order == old(order)
      ensures users == old(users)[id := Tally(old(users)[id].(balance := old(users)[id].balance + gain), mise, gain)]
      ensures Coins() == old(Coins()) + gain
    {
      if gain != 0 {
        SetBalance(id, users[id].balance + gain);
      } else {
        assert users == users[id := users[id].(balance := users[id].balance + gain)];
      }
      RecordGameResult(id, mise, gain);
    }

    /** `coinflip`: both sides are drawn; matching sides win. */
    method Coinflip(id: int, mise: int, player: Side, bot: Side, now: int) returns (r: GameOutcome)
      requires Valid()
      modifies this
      ensures Valid() && order == OpenOrder(old(order), old(users), id)
      ensures Wagered(old(users), id, mise, CoinflipPayout(Lookup(old(users), id), now, mise, player, bot), r)
      ensures Coins() == old(Coins()) + (if id in old(users) then 0 else StartingBalance) + (if r.Played? then r.gain - mise else 0)
    {
      var user, invalid := PlaceBet(id, mise);
      if invalid.Some? {
        return Refused(invalid.value);
      }
      BoostIgnoresBalance(users[id], user, now);
      var gain := 0;
      if player == bot {
        gain := ApplyBoost(mise * 2, users[id], now);
      }
      assert gain == CoinflipPayout(user, now, mise, player, bot);
      Credit(id, mise, gain);
      StakeThenCredit(old(users), id, user, mise, gain);
      r := Played(gain);
      assert Wagered(old(users), id, mise, gain, r);
    }

    /** `dice`: the higher roll wins 1.8 times the stake; a tie refunds it. */
    method Dice(id: int, mise: int, playerRoll: int, botRoll: int, now: int) returns (r: GameOutcome)
      requires 1 <= playerRoll <= 6 && 1 <= botRoll <= 6
      requires Valid()
      modifies this
      ensures Valid() && order == OpenOrder(old(order), old(users), id)
      ensures Wagered(old(users), id, mise, DicePayout(Lookup(old(users), id), now, mise, playerRoll, botRoll), r)
      ensures Coins() == old(Coins()) + (if id in old(users) then 0 else StartingBalance) + (if r.Played? then r.gain - mise else 0)
    {
      var user, invalid := PlaceBet(id, mise);
      if invalid.Some? {
        return Refused(invalid.value);
      }
      BoostIgnoresBalance(users[id], user, now);
      var gain := 0;
      if playerRoll > botRoll {
        gain := ApplyBoost(DiceWin(mise), users[id], now);
      } else if playerRoll == botRoll {
        gain := mise;
      }
      assert gain == DicePayout(user, now, mise, playerRoll, botRoll);
      Credit(id, mise, gain);
      StakeThenCredit(old(users), id, user, mise, gain);
      r := Played(gain);
      assert Wagered(old(users), id, mise, gain, r);
    }

    /**
     * `roulette`: an unknown colour is refused before the account is even
     * created; otherwise the wheel slot decides.
     */
    method Roulette(id: int, mise: int, colour: string, slot: int, now: int) returns (r: GameOutcome)
      requires 0 <= slot < 37
      requires Valid()
      modifies this
      ensures Valid()
      ensures ParseColour(colour) == None ==> r == InvalidColour && users == old(users) && order == old(order)
      ensures ParseColour(colour).Some? ==>
        && order == OpenOrder(old(order), old(users), id)
        && Wagered(old(users), id, mise, RoulettePayout(Lookup(old(users), id), now, mise, ParseColour(colour).value, WheelColour(slot)), r)
        && Coins() == old(Coins()) + (if id in old(users) then 0 else StartingBalance) + (if r.Played? then r.gain - mise else 0)
    {
      var bet := ParseColour(colour);
      if bet.None? {
        return InvalidColour;
      }
      r := Spin(id, mise, bet.value, slot, now);
    }

    /** The roulette game once the colour is known to be valid. */
    method Spin(id: int, mise: int, bet: Colour, slot: int, now: int) returns (r: GameOutcome)
      requires 0 <= slot < 37
      requires Valid()
      modifies this
      ensures Valid() && order == OpenOrder(old(order), old(users), id)
      ensures Wagered(old(users), id, mise, RoulettePayout(Lookup(old(users), id), now, mise, bet, WheelColour(slot)), r)
      ensures Coins() == old(Coins()) + (if id in old(users) then 0 else StartingBalance) + (if r.Played? then r.gain - mise else 0)
    {
      var user, invalid := PlaceBet(id, mise);
      if invalid.Some? {
        return Refused(invalid.value);
      }
      var result := WheelColour(slot);
      BoostIgnoresBalance(users[id], user, now);
      var gain := 0;
      if bet == result {
        if result == Vert {
          gain := ApplyBoost(mise * 35, users[id], now);
        } else {
          gain := ApplyBoost(mise * 2, users[id], now);
        }
      }
      assert gain == RoulettePayout(user, now, mise, bet, result);
      Credit(id, mise, gain);
      StakeThenCredit(old(users), id, user, mise, gain);
      r := Played(gain);
      assert Wagered(old(users), id, mise, gain, r);
    }

    /**
     * `blackjack`: two cards each, the dealer hits from `hits` until 17,
     * then the totals are compared. `dealerCards` is the dealer's final hand
     * and `playerTotal` the player's total.
     */
    method Blackjack(id: int, mise: int, p1: int, p2: int, d1: int, d2: int, hits: seq<int>, now: int)
      returns (r: GameOutcome, dealerCards: seq<int>, playerTotal: int)
      requires 1 <= p1 <= 11 && 1 <= p2 <= 11 && 1 <= d1 <= 11 && 1 <= d2 <= 11
      requires |hits| >= 15 && Cards(hits)
      requires Valid()
      modifies this
      ensures Valid() && order == OpenOrder(old(order), old(users), id)
      ensures r.Played? ==> playerTotal == HandTotal([p1, p2]) && IsDealerHand([d1, d2], hits, dealerCards)
      ensures Wagered(old(users), id, mise, BlackjackPayout(Lookup(old(users), id), now, mise, playerTotal, HandTotal(dealerCards)), r)
      ensures Coins() == old(Coins()) + (if id in old(users) then 0 else StartingBalance) + (if r.Played? then r.gain - mise else 0)
    {
      dealerCards, playerTotal := [], 0;
      var user, invalid := PlaceBet(id, mise);
      if invalid.Some? {
        return Refused(invalid.value), dealerCards, playerTotal;
      }
      ghost var staked := users[id];
      r, dealerCards, playerTotal := Deal(id, mise, p1, p2, d1, d2, hits, now);
      BoostIgnoresBalance(staked, user, now);
      assert r.gain == BlackjackPayout(user, now, mise, playerTotal, HandTotal(dealerCards));
      StakeThenCredit(old(users), id, user, mise, r.gain);
      assert Wagered(old(users), id, mise, r.gain, r);
    }

    /** The hands of `blackjack` once the stake is taken: total the player's, play the dealer's, compare. */
    method Deal(id: int, mise: int, p1: int, p2: int, d1: int, d2: int, hits: seq<int>, now: int)
      returns (r: GameOutcome, dealerCards: seq<int>, playerTotal: int)
      requires 1 <= p1 <= 11 && 1 <= p2 <= 11 && 1 <= d1 <= 11 && 1 <= d2 <= 11
      requires |hits| >= 15 && Cards(hits)
      requires Valid() && id in users
      modifies this
      ensures Valid() && order == old(order)
      ensures playerTotal == HandTotal([p1, p2]) && IsDealerHand([d1, d2], hits, dealerCards)
      ensures var gain := BlackjackPayout(old(users)[id], now, mise, playerTotal, HandTotal(dealerCards));
        && r == Played(gain)
        && users == old(users)[id := Tally(old(users)[id].(balance := old(users)[id].balance + gain), mise, gain)]
        && Coins() == old(Coins()) + gain
    {
      playerTotal := HandValue([p1, p2]);
      var dealerTotal;
      dealerCards, dealerTotal := DealerPlay([d1, d2], hits);
      r := Showdown(id, mise, playerTotal, dealerTotal, now);
    }

    /** The end of `blackjack`: compare the totals, credit the gain, record the result. */
    method Showdown(id: int, mise: int, playerTotal: int, dealerTotal: int, now: int) returns (r: GameOutcome)
      requires Valid() && id in users
      modifies this
      ensures Valid() && order == old(order)
      ensures var gain := BlackjackPayout(old(users)[id], now, mise, playerTotal, dealerTotal);
        && r == Played(gain)
        && users == old(users)[id := Tally(old(users)[id].(balance := old(users)[id].balance + gain), mise, gain)]
        && Coins() == old(Coins()) + gain
    {
      var gain := 0;
      if playerTotal > 21 {
        gain := 0;
      } else if dealerTotal > 21 {
        gain := ApplyBoost(mise * 2, users[id], now);
      } else if playerTotal > dealerTotal {
        gain := ApplyBoost(mise * 2, users[id], now);
      } else if playerTotal == dealerTotal {
        gain := mise;
      }
      Credit(id, mise, gain);
      r := Played(gain);
    }

    /** `slot`: three reels, paid by the multiplier ladder. */
    method Slot(id: int, mise: int, r1: Symbol, r2: Symbol, r3: Symbol, now: int) returns (r: GameOutcome)
      requires Valid()
      modifies this
      ensures Valid() && order == OpenOrder(old(order), old(users), id)
      ensures Wagered(old(users), id, mise, SlotPayout(Lookup(old(users), id), now, mise, r1, r2, r3), r)
      ensures Coins() == old(Coins()) + (if id in old(users) then 0 else StartingBalance) + (if r.Played? then r.gain - mise else 0)
    {
      var user, invalid := PlaceBet(id, mise);
      if invalid.Some? {
        return Refused(invalid.value);
      }
      BoostIgnoresBalance(users[id], user, now);
      var gain := SlotPayout(users[id], now, mise, r1, r2, r3);
      Credit(id, mise, gain);
      StakeThenCredit(old(users), id, user, mise, gain);
      r := Played(gain);
    }

    /** `daily`: 100 coins (boosted) unless a parseable claim is less than 24 hours old. */
    method Daily(id: int, now: int) returns (r: DailyOutcome)
      requires Valid()
      modifies this
      ensures Valid() && order == OpenOrder(old(order), old(users), id)
      ensures var a0 := Lookup(old(users), id);
        if ClaimOpen(a0, now) then
          r == Claimed(ApplyBoost(DailyBase, a0, now)) && users == old(users)[id := Claim(a0, now)]
        else
          r == TooSoon(DaySeconds - (now - a0.lastDaily.seconds)) && users == Open(old(users), id)
      ensures Coins() == old(Coins()) + (if id in old(users) then 0 else StartingBalance) + (if r.Claimed? then r.gain else 0)
    {
      var user := GetUserData(id);
      if user.lastDaily.At? {
        var elapsed := now - user.lastDaily.seconds;
        if elapsed < DaySeconds {
          return TooSoon(DaySeconds - elapsed);
        }
      }
      var gain := ApplyBoost(DailyBase, user, now);
      assert id in order;
      TotalBalanceUpdate(order, users, id, Claim(user, now));
      users := users[id := user.(balance := user.balance + gain, lastDaily := At(now))];
      assert users[id] == Claim(user, now);
      r := Claimed(gain);
    }

    /** `acheter`: normalise the name, check it, pay, add the item, start a boost. */
    method Acheter(id: int, name: string, now: int) returns (r: PurchaseOutcome)
      requires Valid()
      modifies this
      ensures Valid() && order == OpenOrder(old(order), old(users), id)
      ensures var a0 := Lookup(old(users), id);
        var item := Normalise(name);
        match CheckPurchase(a0, item)
        case Some(e) => r == PurchaseRefused(e) && users == Open(old(users), id)
        case None => r == Purchased(item, Catalog[item]) && users == old(users)[id := Bought(a0, item, now)]
      ensures Coins() == old(Coins()) + (if id in old(users) then 0 else StartingBalance) - (if r.Purchased? then r.price else 0)
    {
      var user := GetUserData(id);
      var item := Normalise(name);
      assert user == users[id] == Lookup(old(users), id);
      r := Buy(id, item, now);
    }

    /** The checks and the update of `acheter`, on an existing account and a normalised name. */
    method Buy(id: int, item: string, now: int) returns (r: PurchaseOutcome)
      requires Valid() && id in users
      modifies this
      ensures Valid() && order == old(order)
      ensures var a0 := old(users)[id];
        match CheckPurchase(a0, item)
        case Some(e) => r == PurchaseRefused(e) && users == old(users)
        case None => r == Purchased(item, Catalog[item]) && users == old(users)[id := Bought(a0, item, now)]
      ensures Coins() == old(Coins()) - (if r.Purchased? then r.price else 0)
    {
      var user := users[id];
      if item !in Catalog {
        return PurchaseRefused(UnknownItem);
      }
      var prix := Catalog[item];
      if user.balance < prix {
        return PurchaseRefused(CannotAfford(prix));
      }
      if item in user.items {
        return PurchaseRefused(AlreadyOwned);
      }
      PurchaseSound(user, item, now);
      user := user.(balance := user.balance - prix, items := user.items + [item]);
      if HasInfix(item, "boost") {
        user := user.(boostEnd := At(now + BoostSeconds));
      }
      assert user == Bought(old(users)[id], item, now);
      assert id in order;
      TotalBalanceUpdate(order, users, id, user);
      users := users[id := user];
      r := Purchased(item, prix);
    }

    /**
     * `steal`: refuse a bot or oneself; create both accounts; prune the
     * thief's list; refuse over quota or a victim under 50 coins; a caught
     * attempt only uses a slot; a successful one moves a draw from
     * 20..min(100, victim // 2). `randint(lo, hi)` is the random draw.
     */
    method Steal(thief: int, victim: int, victimIsBot: bool, now: int, caught: bool, randint: (int, int) -> int)
      returns (r: StealOutcome)
      requires forall lo, hi :: lo <= hi ==> lo <= randint(lo, hi) <= hi
      requires Valid()
      modifies this
      ensures Valid()
      ensures Coins() == old(Coins()) + StartingBalance * (|order| - |old(order)|)
      ensures victimIsBot || victim == thief ==> r == StealRefused(InvalidTarget) && users == old(users) && order == old(order)
      ensures !victimIsBot && victim != thief ==>
        var t0 := Lookup(old(users), thief);
        var v0 := Lookup(old(users), victim);
        var today := Day(now);
        var kept := PruneSteals(t0.steals, today);
        var pruned := Open(Open(old(users), thief), victim)[thief := t0.(steals := kept)];
        && order == OpenOrder(OpenOrder(old(order), old(users), thief), Open(old(users), thief), victim)
        && (if |kept| >= StealQuota(t0) then
              r == StealRefused(QuotaReached(StealQuota(t0))) && users == pruned
            else if v0.balance < MinVictimBalance then
              r == StealRefused(VictimTooPoor) && users == pruned
            else if caught then
              r == Caught && users == pruned[thief := pruned[thief].(steals := kept + [today])]
            else
              && r == Stolen(randint(MinSteal, Min(MaxSteal, v0.balance / 2)))
              && MinSteal <= r.amount <= Min(MaxSteal, v0.balance / 2)
              && users == pruned[victim := v0.(balance := v0.balance - r.amount)]
                                [thief := pruned[thief].(balance := t0.balance + r.amount, steals := kept + [today])])
      ensures r.Stolen? ==>
        && users[victim].balance >= MinVictimBalance / 2
        && users[thief].balance + users[victim].balance == Lookup(old(users), thief).balance + Lookup(old(users), victim).balance
    {
      if victimIsBot || victim == thief {
        return StealRefused(InvalidTarget);
      }
      var user := GetUserData(thief);
      var target := GetUserData(victim);
      assert user == Lookup(old(users), thief) == users[thief];
      r := Rob(thief, victim, now, caught, randint);
    }

    /** The part of `steal` that runs once both accounts exist: prune, check, then catch or transfer. */
    method Rob(thief: int, victim: int, now: int, caught: bool, randint: (int, int) -> int)
      returns (r: StealOutcome)
      requires forall lo, hi :: lo <= hi ==> lo <= randint(lo, hi) <= hi
      requires Valid() && thief in users && victim in users && thief != victim
      modifies this
      ensures Valid() && order == old(order) && Coins() == old(Coins())
      ensures var t0 := old(users)[thief];
        var v0 := old(users)[victim];
        var today := Day(now);
        var kept := PruneSteals(t0.steals, today);
        var pruned := old(users)[thief := t0.(steals := kept)];
        if |kept| >= StealQuota(t0) then
          r == StealRefused(QuotaReached(StealQuota(t0))) && users == pruned
        else if v0.balance < MinVictimBalance then
          r == StealRefused(VictimTooPoor) && users == pruned
        else if caught then
          r == Caught && users == pruned[thief := pruned[thief].(steals := kept + [today])]
        else
          && r == Stolen(randint(MinSteal, Min(MaxSteal, v0.balance / 2)))
          && MinSteal <= r.amount <= Min(MaxSteal, v0.balance / 2)
          && users == pruned[victim := v0.(balance := v0.balance - r.amount)]
                            [thief := pruned[thief].(balance := t0.balance + r.amount, steals := kept + [today])]
      ensures r.Stolen? ==>
        && users[victim].balance >= MinVictimBalance / 2
        && users[thief].balance + users[victim].balance == old(users)[thief].balance + old(users)[victim].balance
    {
      ResetStealsIfNeeded(thief, Day(now));
      ghost var pruned := users;
      var today := Day(now);
      r := CheckSteal(thief, victim, today, caught, randint);
    }

    /** The checks of a steal once the thief's list is pruned: the quota, then the victim's balance. */
    method CheckSteal(thief: int, victim: int, today: int, caught: bool, randint: (int, int) -> int)
      returns (r: StealOutcome)
      requires forall lo, hi :: lo <= hi ==> lo <= randint(lo, hi) <= hi
      requires Valid() && thief in users && victim in users && thief != victim
      modifies this
      ensures Valid() && order == old(order) && Coins() == old(Coins())
      ensures var t0 := old(users)[thief];
        var v0 := old(users)[victim];
        if |t0.steals| >= StealQuota(t0) then
          r == StealRefused(QuotaReached(StealQuota(t0))) && users == old(users)
        else if v0.balance < MinVictimBalance then
          r == StealRefused(VictimTooPoor) && users == old(users)
        else if caught then
          r == Caught && users == old(users)[thief := t0.(steals := t0.steals + [today])]
        else
          && r == Stolen(randint(MinSteal, Min(MaxSteal, v0.balance / 2)))
          && MinSteal <= r.amount <= Min(MaxSteal, v0.balance / 2)
          && users == old(users)[victim := v0.(balance := v0.balance - r.amount)]
                                [thief := t0.(balance := t0.balance + r.amount, steals := t0.steals + [today])]
      ensures r.Stolen? ==>
        && users[victim].balance >= MinVictimBalance / 2
        && users[thief].balance + users[victim].balance == old(users)[thief].balance + old(users)[victim].balance
    {
      var stealsToday := users[thief].steals;
      var maxSteals := 3;
      if "extra_steal" in users[thief].items {
        maxSteals := 4;
      }
      if |stealsToday| >= maxSteals {
        return StealRefused(QuotaReached(maxSteals));
      }
      if users[victim].balance < MinVictimBalance {
        return StealRefused(VictimTooPoor);
      }
      r := Attempt(thief, victim, today, caught, randint);
    }

    /** The end of a steal that passed its checks: a caught attempt or a transfer, each using a slot. */
    method Attempt(thief: int, victim: int, today: int, caught: bool, randint: (int, int) -> int)
      returns (r: StealOutcome)
      requires forall lo, hi :: lo <= hi ==> lo <= randint(lo, hi) <= hi
      requires Valid() && thief in users && victim in users && thief != victim
      requires users[victim].balance >= MinVictimBalance
      modifies this
      ensures Valid() && order == old(order) && Coins() == old(Coins())
      ensures var t0 := old(users)[thief];
        var v0 := old(users)[victim];
        if caught then
          r == Caught && users == old(users)[thief := t0.(steals := t0.steals + [today])]
        else
          && r == Stolen(randint(MinSteal, Min(MaxSteal, v0.balance / 2)))
          && MinSteal <= r.amount <= Min(MaxSteal, v0.balance / 2)
          && users == old(users)[victim := v0.(balance := v0.balance - r.amount)]
                                [thief := t0.(balance := t0.balance + r.amount, steals := t0.steals + [today])]
      ensures r.Stolen? ==>
        && users[victim].balance >= MinVictimBalance / 2
        && users[thief].balance + users[victim].balance == old(users)[thief].balance + old(users)[victim].balance
    {
      var stealsToday := users[thief].steals;
      if caught {
        assert thief in order;
        TotalBalanceUpdate(order, users, thief, users[thief].(steals := stealsToday + [today]));
        users := users[thief := users[thief].(steals := stealsToday + [today])];
        return Caught;
      }
      var gain := randint(MinSteal, Min(MaxSteal, users[victim].balance / 2));
      var v := users[victim].(balance := users[victim].balance - gain);
      var t := users[thief].(balance := users[thief].balance + gain, steals := stealsToday + [today]);
      assert thief in order && victim in order;
      TransferConserves(order, users, victim, thief, v, t, gain);
      users := users[victim := v][thief := t];
      r := Stolen(gain);
    }

    /** `don`: create both accounts, then refuse a bot, oneself, a non-positive amount or an overdraft. */
    method Don(donor: int, receiver: int, receiverIsBot: bool, montant: int) returns (r: GiftOutcome)
      requires Valid()
      modifies this
      ensures Valid()
      ensures order == OpenOrder(OpenOrder(old(order), old(users), donor), Open(old(users), donor), receiver)
      ensures Coins() == old(Coins()) + StartingBalance * (|order| - |old(order)|)
      ensures var d0 := Lookup(old(users), donor);
        var v0 := Lookup(old(users), receiver);
        var seen := Open(Open(old(users), donor), receiver);
        && r == (if receiverIsBot then GiftRefused(ReceiverIsBot)
                 else if receiver == donor then GiftRefused(ReceiverIsSender)
                 else if montant <= 0 then GiftRefused(AmountNotPositive)
                 else if d0.balance < montant then GiftRefused(DonorTooPoor)
                 else Given)
        && (r.GiftRefused? ==> users == seen)
        && (r == Given ==> users == seen[donor := d0.(balance := d0.balance - montant)]
                                        [receiver := v0.(balance := v0.balance + montant)])
    {
      var giver := GetUserData(donor);
      var taker := GetUserData(receiver);
      assert giver == users[donor] || receiver == donor;
      r := Transfer(donor, receiver, receiverIsBot, montant);
    }

    /** The checks and the transfer of `don`, once both accounts exist. */
    method Transfer(donor: int, receiver: int, receiverIsBot: bool, montant: int) returns (r: GiftOutcome)
      requires Valid() && donor in users && receiver in users
      modifies this
      ensures Valid() && order == old(order) && Coins() == old(Coins())
      ensures var d0 := old(users)[donor];
        var v0 := old(users)[receiver];
        && r == (if receiverIsBot then GiftRefused(ReceiverIsBot)
                 else if receiver == donor then GiftRefused(ReceiverIsSender)
                 else if montant <= 0 then GiftRefused(AmountNotPositive)
                 else if d0.balance < montant then GiftRefused(DonorTooPoor)
                 else Given)
        && (r.GiftRefused? ==> users == old(users))
        && (r == Given ==> users == old(users)[donor := d0.(balance := d0.balance - montant)]
                                              [receiver := v0.(balance := v0.balance + montant)])
    {
      if receiverIsBot {
        return GiftRefused(ReceiverIsBot);
      }
      if receiver == donor {
        return GiftRefused(ReceiverIsSender);
      }
      if montant <= 0 {
        return GiftRefused(AmountNotPositive);
      }
      var giver := users[donor];
      if giver.balance < montant {
        return GiftRefused(DonorTooPoor);
      }
      var g := giver.(balance := giver.balance - montant);
      var t := users[receiver].(balance := users[receiver].balance + montant);
      assert donor in order && receiver in order;
      TransferConserves(order, users, donor, receiver, g, t, montant);
      users := users[donor := g][receiver := t];
      r := Given;
    }

    /** Owner-only `give`: add `amount`, of any sign, to the balance. */
    method Give(callerIsOwner: bool, id: int, amount: int) returns (r: AdminOutcome)
      requires Valid()
      modifies this
      ensures Valid()
      ensures !callerIsOwner ==> r == NotOwner && users == old(users) && order == old(order)
      ensures callerIsOwner ==>
        var a0 := Lookup(old(users), id);
        && r == Adjusted(a0.balance + amount)
        && users == old(users)[id := a0.(balance := a0.balance + amount)]
        && order == OpenOrder(old(order), old(users), id)
        && Coins() == old(Coins()) + (if id in old(users) then 0 else StartingBalance) + amount
    {
      if !callerIsOwner {
        return NotOwner;
      }
      var user := GetUserData(id);
      SetBalance(id, user.balance + amount);
      r := Adjusted(user.balance + amount);
    }

    /** Owner-only `remove`: subtract `amount`, never below zero. */
    method Remove(callerIsOwner: bool, id: int, amount: int) returns (r: AdminOutcome)
      requires Valid()
      modifies this
      ensures Valid()
      ensures !callerIsOwner ==> r == NotOwner && users == old(users) && order == old(order)
      ensures callerIsOwner ==>
        var a0 := Lookup(old(users), id);
        && r == Adjusted(ClampedDebit(a0.balance, amount))
        && users == old(users)[id := a0.(balance := ClampedDebit(a0.balance, amount))]
        && order == OpenOrder(old(order), old(users), id)
        && Coins() == old(Coins()) + (if id in old(users) then 0 else StartingBalance) - a0.balance + ClampedDebit(a0.balance, amount)
    {
      if !callerIsOwner {
        return NotOwner;
      }
      var user := GetUserData(id);
      var balance := ClampedDebit(user.balance, amount);
      SetBalance(id, balance);
      r := Adjusted(balance);
    }

    /** `classement`: the top ten accounts by balance, the owner and empty accounts excluded. */
    function Classement(owner: int): (top: seq<Entry>)
      reads this
      requires Valid()
      ensures |top| == Min(BoardSize, |Candidates(order, users, owner)|) && Descending(top)
      ensures forall i, j :: 0 <= i < j < |top| ==> top[i].uid != top[j].uid
      ensures forall e :: e in top ==> e.uid in users && e.uid != owner && e.balance > 0 && e.balance == users[e.uid].balance
      ensures forall id, e :: id in users && id != owner && users[id].balance > 0 && Entry(id, users[id].balance) !in top && e in top ==>
                users[id].balance <= e.balance
    {
      LeaderboardIsTop(order, users, owner);
      Leaderboard(order, users, owner)
    }

    /** `stats`: number of accounts, coins in circulation, games played. */
    function Stats(): (t: Totals)
      reads this
      requires Valid()
      ensures t.players == |users|
      ensures t.coins == Coins()
    {
      Totals(|users|, TotalBalance(order, users), TotalGames(order, users))
    }
  }
}
