# Casino economy model

A Dafny model of the coin economy of a Discord casino bot (`main.py`). The
bot keeps one record per player: a balance, the last daily claim, the day
stamps of today's steals, owned shop items, a boost expiry and three
statistics counters. Its commands change those records. The model keeps
that table as a class, `Economy.Casino`, with one method per command. Each
method runs the command's checks in the source's order and updates the
records in place. The rules each command applies are pure functions in the
modules underneath:

- `Text`: ASCII lower-casing, underscore replacement and substring search.
- `Accounts`: the record, lazy creation, boosts, steal pruning, bet validation, result tallying, the daily claim and the clamped debit.
- `Games`: payouts of coinflip, dice, roulette, blackjack and slot, resolved from given draws. This includes the hand-value loop and the dealer's hit loop.
- `Shop`: the catalog, name normalisation, the purchase checks and the purchase itself.
- `Ranking`: the leaderboard and the totals of `stats`, including the conservation lemmas for the coins in circulation.
- `Economy`: the user table and the command handlers.

Randomness and the clock become parameters:

- coin sides, dice rolls 1..6 and a wheel slot 0..36;
- card values 1..11, with a sequence of dealer hits;
- slot symbols;
- a `caught` flag and a `randint` function for `steal`;
- `now` in seconds, with `now / 86400` as the day.

A stored timestamp is `Absent`, `Malformed` (it does not parse) or `At(seconds)`.

The class invariant `Valid()` says that:

- the insertion order lists every account exactly once;
- no account owns an item twice.

Every command method states two things about its result:

- its exact outcome and the new table, in terms of the old one;
- how the coins in circulation change. Transfers and steals conserve them. Only a new account (500 coins), a game's net, a daily claim, a purchase or an owner adjustment changes them.

Quirks of the code are modelled as written:

- `don` creates both accounts before any of its checks, and `steal` creates both after refusing a bot or self target but before its quota and victim-balance checks, while `roulette` refuses an unknown colour before it creates any account.
- `give` takes any sign; `remove` floors the balance at 0.
- A malformed last claim counts as no claim.
- A push is tallied as a loss of the whole stake.
- An unboosted one-coin dice win pays `int(1.8)` = 1 coin, so it makes no profit and is tallied as a loss. Under a boost the same win pays 2 or 3 coins and is tallied as a win.

Buying an owned item again is refused for lack of funds whenever the coins left are below its price, because funds are checked before ownership (main.py:247-253); see `Shop.RepeatPurchaseRefused`.

## Model

| member | source | states |
|---|---|---|
| Text.Lower | main.py:239 | lower-casing keeps the length and maps every character through the ASCII lower-case map |
| Text.SpacesToUnderscores | main.py:239 | keeps the length; every space becomes `_` and every other character is kept |
| Text.LowerIdempotent | main.py:542 | lower-casing twice is lower-casing once |
| Text.LowerKeepsLowercase | main.py:239 | a name with no capital letters is unchanged by lower-casing |
| Text.HasInfixAt | main.py:258 | the substring test holds exactly when the pattern occurs at some position |
| Text.HasInfixNeedsFirst | main.py:258 | a name that contains the pattern contains its first letter |
| Accounts.Open | main.py:70-85 | after lazy creation the id is present, with its old record or a fresh one, and every other record is unchanged |
| Accounts.HasBoost | main.py:87-97 | no boost is active when the end is missing or does not parse; a stored end makes it active exactly while now is before it |
| Accounts.BoostMultiplier | main.py:87-108 | the multiplier is 1..3; it exceeds 1 only under an active boost (an end that is stored, parses and lies after now); it is 3 exactly when the boost is active and `boost_x3` is owned |
| Accounts.ApplyBoost | main.py:110-113 | a non-negative amount grows to between 1 and 3 times itself; it is unchanged without an active boost; a positive amount grows exactly when the multiplier exceeds 1 |
| Accounts.BoostRanking | main.py:99-108 | under an active boost: 3 with `boost_x3`, else 2 with `boost_x2`, else 1 |
| Accounts.NoBoostWithoutFutureEnd | main.py:87-97 | a missing, unparsable or past boost end leaves every amount as it is |
| Accounts.BoostIgnoresBalance | main.py:87-108 | the multiplier depends only on the items and the boost end |
| Accounts.PruneSteals | main.py:115-119 | the pruned list holds exactly as many entries as the input has stamps of today, and only those |
| Accounts.PruneStealsIdempotent | main.py:115-119 | pruning twice is pruning once |
| Accounts.AllTodayPruned | main.py:115-119 | a list of today's stamps survives pruning unchanged |
| Accounts.PruneStealsKeepsOrder | main.py:115-119 | pruning never lengthens the list and commutes with appending today's stamp |
| Accounts.StealQuota | main.py:338-340 | the quota is 3, or 4 exactly when `extra_steal` is owned |
| Accounts.ValidateBet | main.py:121-127 | a bet is accepted exactly when 0 < stake <= balance; a non-positive stake is the first error |
| Accounts.Tally | main.py:129-135 | games played +1 and nothing else but the two counters changes; for a positive stake exactly one counter grows; the counters record gain − stake exactly when the gain exceeds the stake or is 0; a win adds gain − stake to the winnings, and any other result, a push included, adds the whole stake to the losses |
| Accounts.PushCountedAsLoss | main.py:129-135 | a push adds the whole stake to the losses and nothing to the winnings |
| Accounts.Settle | main.py:121-135 | after a settled game the balance is old − stake + gain, so it is ≥ 0 after a valid bet; the winnings grow by gain − stake when the gain exceeds the stake and the losses grow by the stake otherwise; items, boost, steals and the claim are untouched |
| Accounts.SettleInSteps | main.py:457-472 | deducting the stake, then crediting the gain and tallying the game, gives the settled record |
| Accounts.ClaimOpen | main.py:194-204 | a missing or unparsable last claim leaves the claim open; a stored one opens it exactly from 24 hours after it |
| Accounts.Claim | main.py:206-209 | a claim adds the boosted 100 coins (100..300), stamps now and changes nothing else |
| Accounts.ClaimClosesDay | main.py:194-209 | after a claim, every claim in the next 24 hours is refused and the claim reopens at 24 hours |
| Accounts.MalformedClaimIsNoClaim | main.py:194-204 | an unparsable last claim behaves like no claim |
| Accounts.ClampedDebit | main.py:385 | the result is never negative and is the difference unless that is negative; it never exceeds the old balance |
| Games.CoinflipPayout | main.py:468-479 | matching sides pay 2 × stake × multiplier and other sides pay 0; a positive stake profits exactly on a match; the gain is at most 6 × stake |
| Games.DiceWin | main.py:514 | for a non-negative stake the win is 1.8 × stake rounded down, between the stake and twice it, and exceeds the stake from 2 coins up |
| Games.DicePayout | main.py:512-527 | a higher roll pays the truncated 1.8 × stake, boosted; a tie refunds the stake; a lower roll pays 0; from 2 coins up a profit happens exactly on a higher roll |
| Games.DiceOneCoinWinIsNoProfit | main.py:512-516 | an unboosted win on a one-coin stake pays back 1 and is tallied as a loss |
| Games.ParseColour | main.py:542-545 | a colour is accepted exactly when its lower-cased form is rouge, noir or vert, and it names that colour |
| Games.ParseColourName | main.py:542-545 | every colour's own name parses back to it |
| Games.ParseColourIgnoresCase | main.py:542-543 | parsing is insensitive to ASCII case |
| Games.WheelColour | main.py:558-559 | slot 36 is the only green one; red exactly below 18 |
| Games.RoulettePayout | main.py:566-574 | a miss pays 0; green pays 35 × stake and red or black 2 × stake, boosted; a positive stake profits exactly on a hit |
| Games.HandValue | main.py:607-614 | the ace-reduction loop computes the closed form `HandTotal` |
| Games.SumAtLeast | main.py:607-614 | the raw sum is at least the card count plus 10 per ace |
| Games.HandTotalBounds | main.py:607-614 | a hand's value lies between its card count and its raw sum; a value over 21 means every ace was already reduced |
| Games.HandExamples | main.py:607-614 | [11,11,10] is worth 12 and [10,10,5] is worth 25 |
| Games.OpeningHandNeverBusts | main.py:617-634 | two opening cards never exceed 21, so the player-bust branch cannot be taken |
| Games.DealerPlay | main.py:617-626 | the dealer's hand is the opening pair plus a prefix of the hits; it stops at a total ≥ 17 that is the hand's value, after at most 15 hits |
| Games.BlackjackPayout | main.py:634-663 | player bust pays 0; a dealer bust or a higher total pays 2 × stake, boosted; equal totals refund the stake; a lower total pays 0; a positive stake profits exactly on a win |
| Games.BlackjackPushRange | main.py:634-656 | a refunded hand has equal totals between 17 and 21 |
| Games.SlotMultiplier | main.py:694-711 | the multiplier is in {0,2,5,10,15,25,50}; ≥ 5 exactly for three equal reels; 2 exactly for a pair; 0 exactly when all differ |
| Games.ThreeOfAKind | main.py:694-705 | three equal reels pay 50 for 7, 25 for the star, 15 for the diamond, 10 for the cherry and 5 otherwise |
| Games.SlotSymmetric | main.py:694-711 | the multiplier does not depend on the order of the reels |
| Games.SlotPayout | main.py:720-723 | a positive stake profits exactly when the multiplier is positive; a non-negative stake wins between 0 and 150 × stake |
| Games.SlotPayoutIsProduct | main.py:720-723 | the gain is stake × multiplier × boost |
| Shop.CatalogNamesNormal | main.py:49-58 | every catalog name is its own normalised form, so each item can be bought by its name |
| Shop.CatalogPrices | main.py:49-58 | every catalog price lies between 250 and 2000 coins |
| Shop.Normalise | main.py:239 | a normalised name has the same length, no space and no capital letter |
| Shop.NormaliseIdempotent | main.py:239 | normalising twice is normalising once |
| Shop.CheckPurchase | main.py:241-253 | a purchase is allowed exactly for a catalog item that is affordable and not owned; each refusal (unknown, unaffordable, owned) is characterised in the source's check order |
| Shop.Bought | main.py:255-260 | the purchase deducts exactly the price, appends the item and sets the boost end to now + 1 h exactly when the name contains "boost"; nothing else changes |
| Shop.PurchaseSound | main.py:247-256 | an allowed purchase leaves a non-negative balance and a duplicate-free item list that holds the item exactly once |
| Shop.BoostItems | main.py:49-58 | among the catalog items, exactly `boost_x2` and `boost_x3` contain "boost" |
| Shop.BoostPurchaseActivates | main.py:258-260 | buying a boost makes it active for the next hour, with multiplier ≥ 2, and 3 for `boost_x3` |
| Shop.OtherPurchaseKeepsBoost | main.py:258-260 | buying any other item leaves the boost end untouched |
| Shop.RepeatPurchaseRefused | main.py:247-253 | buying the same item again is refused: for lack of funds when the remainder is below the price, otherwise as already owned |
| Ranking.Candidates | main.py:302-303 | the candidates are exactly the accounts other than the owner's with a positive balance, each with its current balance; a table listed without repeats gives candidates without repeats |
| Ranking.Insert | main.py:302-306 | inserting keeps the list sorted richest first and adds exactly the one entry |
| Ranking.SortDescending | main.py:302-306 | the sort's result is sorted richest first and is a permutation of its input, of the same length |
| Ranking.NoDupPermutation | main.py:302-306 | a permutation of a list without repeats has no repeats |
| Ranking.Leaderboard | main.py:302-309 | the board holds exactly min(10, number of eligible accounts) entries, richest first |
| Ranking.LeaderboardIsTop | main.py:302-309 | the board holds exactly min(10, number of eligible) entries, all eligible with current balances, richest first, with no account twice when the table lists none twice, and no eligible account left off is richer than any account on it |
| Ranking.LeaderboardDistinct | main.py:302-309 | over a table listed without repeats, no account appears twice on the board |
| Ranking.LeaderHasMax | main.py:302-309 | when any account is eligible, the board is non-empty and its first entry is at least as rich as every eligible account |
| Ranking.TotalBalanceFrame | main.py:748 | the total depends only on the balances |
| Ranking.TotalBalanceUpdate | main.py:748 | replacing one record changes the total by the balance difference |
| Ranking.TotalBalanceAppend | main.py:748 | adding a record adds its balance to the total |
| Ranking.TotalBalanceNonNegative | main.py:748 | when no balance is negative, the coin total is not negative |
| Ranking.TransferConserves | main.py:780-781 | moving an amount between two different accounts keeps the total |
| Economy.Casino.constructor | main.py:41-42 | the store starts empty and valid |
| Economy.Casino.GetUserData | main.py:70-85 | returns the existing record or a fresh one of 500 coins, which is appended to the order; coins grow by 500 only for a new account |
| Economy.Casino.ResetStealsIfNeeded | main.py:115-119 | only the steal list of that record changes, to its pruned form; coins unchanged |
| Economy.Casino.RecordGameResult | main.py:129-135 | the record becomes its tally; coins unchanged |
| Economy.Casino.SetBalance | main.py:385 | only that record's balance changes, to the given value; coins change by the difference |
| Economy.Casino.PlaceBet | main.py:449-457 | creates the account and validates the bet; only a valid bet deducts the stake |
| Economy.Casino.Credit | main.py:468-472 | credits the gain, then tallies the game; coins grow by the gain |
| Economy.Casino.Coinflip | main.py:446-484 | a refused bet only creates the account; otherwise the record is settled with the coinflip payout and coins change by gain − stake |
| Economy.Casino.Dice | main.py:490-533 | as for coinflip, with the dice payout |
| Economy.Casino.Roulette | main.py:539-584 | an unknown colour changes nothing; otherwise as for coinflip, with the roulette payout of the slot's colour |
| Economy.Casino.Spin | main.py:549-574 | the roulette game after the colour check |
| Economy.Casino.Blackjack | main.py:590-665 | as for coinflip, with the blackjack payout of the player's opening total and the dealer's final hand, which obeys the hit rule |
| Economy.Casino.Deal | main.py:617-663 | totals the player's hand, plays the dealer's, and settles the comparison |
| Economy.Casino.Showdown | main.py:634-663 | credits the blackjack payout of the two totals and tallies the game |
| Economy.Casino.Slot | main.py:671-737 | as for coinflip, with the slot payout |
| Economy.Casino.Daily | main.py:187-210 | with no recent parseable claim, the record becomes its claim and the boosted gain is returned; otherwise only the account is created and the remaining seconds are returned |
| Economy.Casino.Acheter | main.py:235-263 | the normalised name is checked in the source's order; a refusal only creates the account; a purchase stores the bought record and removes the price from circulation |
| Economy.Casino.Buy | main.py:241-260 | the checks and the update of a purchase on an existing account |
| Economy.Casino.Steal | main.py:321-363 | a bot or self target changes nothing; otherwise both accounts are created and the thief's list pruned; it refuses over quota or on a victim under 50; a caught attempt appends today's stamp; a success moves exactly the draw `randint(20, min(100, victim/2))`, which lies in that range, appends today's stamp, keeps the pair's total and leaves the victim ≥ 25 |
| Economy.Casino.Rob | main.py:332-363 | the part of a steal after account creation, with the same outcome rules |
| Economy.Casino.CheckSteal | main.py:338-363 | refuses over quota, then a victim under 50, each leaving the table as it was; otherwise a caught attempt only stamps today and a success moves exactly the draw `randint(20, min(100, victim/2))` and stamps today; coins are unchanged |
| Economy.Casino.Attempt | main.py:351-363 | for a victim of at least 50 coins: a caught attempt stamps today; a success moves exactly the draw `randint(20, min(100, victim/2))` and stamps today; the pair's total and the coins are unchanged |
| Economy.Casino.Don | main.py:759-782 | creates both accounts, then refuses a bot, oneself, a non-positive amount or an overdraft in that order; otherwise moves exactly the amount; coins change only by new accounts |
| Economy.Casino.Transfer | main.py:766-781 | the checks and the transfer of a gift on existing accounts |
| Economy.Casino.Give | main.py:371-378 | only the owner may call it; it adds the amount of any sign and coins change by it |
| Economy.Casino.Remove | main.py:380-387 | only the owner may call it; the balance becomes the clamped debit and coins change by the amount actually removed |
| Economy.Casino.Classement | main.py:298-309 | exactly min(10, number of eligible) entries, richest first, each account at most once, all eligible with current balances, and no eligible account left off is richer than one on the board |
| Economy.Casino.Stats | main.py:745-749 | the player count is the number of accounts and the coin total is the coins in circulation |

## Left out

- Discord wiring and presentation are not modelled. This covers the bot setup, the event handlers, the embeds and messages, the display-only commands, `wait_and_send` and the `jouer` dispatcher. They are I/O, not economy rules.
- Loading and saving `users.json` is file I/O. The store is an in-memory map that starts empty; a corrupt file also yields an empty table in the source.
- Account keys are strings of the numeric user id in the source and plain integers here.
- Probability weights are not modelled: each draw is a parameter restricted to its range, and no win rate is claimed.
- The 70 % steal success is a `caught` flag.
- Floating point is not modelled. The dice payout `int(mise * 1.8)` is `(9 * mise) / 5`, which matches the float result for realistic stakes but not for stakes too large for a float to represent exactly.
- Datetime parsing is not modelled. Timestamps are whole seconds, parse failure is `Malformed`, and the day is `now / 86400`. The hours/minutes split of the remaining cooldown is presentation and is left as seconds.
- `steal` reads the clock twice in the source, once to prune and once to stamp. Here both use the same `now`, so a steal that straddles midnight is not modelled.
- Lower-casing covers ASCII letters only. Unicode case mappings (for example KELVIN SIGN to `k`) are not modelled.
- `bot.fetch_user` in the leaderboard and the server count in `stats` are network calls and are not modelled.
- The owner-only decorator is a boolean `callerIsOwner` parameter; a bot target is a boolean parameter.
- Concurrent interleaving of async commands on the shared table is not modelled.
- Games.DealerPlay: requires at least 15 dealer hits to be supplied. That many always reach 17, while the source draws cards on demand.
- Ranking.SortDescending: does not state that equal balances keep insertion order, although the source's sort is stable.
- Economy.Casino.Stats: states the player count and the coin total; the games total is given by `TotalGames`, for which no further property is stated.
