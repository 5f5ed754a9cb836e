/**
 * Read-only views over the whole user table: the leaderboard of
 * `classement` and the totals of `stats`. The table is walked in `ids`, the
 * insertion order of its keys.
 */
module Ranking {
  import opened Accounts

  datatype Entry = Entry(uid: int, balance: int)

  predicate Covers(ids: seq<int>, users: map<int, Account>) {
    forall i :: 0 <= i < |ids| ==> ids[i] in users
  }

  /** The comprehension of `classement`: every account other than the owner's with a positive balance. */
  function Candidates(ids: seq<int>, users: map<int, Account>, owner: int): (r: seq<Entry>)
    requires Covers(ids, users)
    ensures |r| <= |ids|
    ensures forall e :: e in r ==> e.uid in ids && e.uid != owner && e.balance > 0 && e.balance == users[e.uid].balance
    ensures forall id :: id in ids && id != owner && users[id].balance > 0 ==> Entry(id, users[id].balance) in r
    ensures NoDup(ids) ==> NoDup(r)
  {
    if ids == [] then []
    else
      var rest := Candidates(ids[1..], users, owner);
      var id := ids[0];
      assert forall k :: 0 <= k < |ids[1..]| ==> ids[1..][k] == ids[k + 1];
      if id != owner && users[id].balance > 0 then [Entry(id, users[id].balance)] + rest else rest
  }

  predicate Descending(s: seq<Entry>) {
    forall i, j :: 0 <= i < j < |s| ==> s[i].balance >= s[j].balance
  }

  /** Place `e` before the first entry it does not fall below. */
  function Insert(e: Entry, s: seq<Entry>): (r: seq<Entry>)
    requires Descending(s)
    ensures Descending(r)
    ensures multiset(r) == multiset(s) + multiset{e}
    ensures forall x :: x in r ==> x == e || x in s
  {
    if s == [] || e.balance >= s[0].balance then [e] + s
    else
      var t := Insert(e, s[1..]);
      assert s == [s[0]] + s[1..];
      assert forall x :: x in t ==> x.balance <= s[0].balance;
      [s[0]] + t
  }

  /** The leaderboard sort: richest first. */
  function SortDescending(s: seq<Entry>): (r: seq<Entry>)
    ensures Descending(r)
    ensures multiset(r) == multiset(s) && |r| == |s|
  {
    if s == [] then []
    else
      assert s == [s[0]] + s[1..];
      Insert(s[0], SortDescending(s[1..]))
  }

  /** A sequence without repeats holds each value at most once. */
  lemma {:induction false} NoDupCount<T>(s: seq<T>, x: T)
    requires NoDup(s)
    ensures multiset(s)[x] <= 1
  {
    if s != [] {
      assert s == [s[0]] + s[1..];
      assert forall k :: 0 <= k < |s[1..]| ==> s[1..][k] == s[k + 1];
      NoDupCount(s[1..], x);
    }
  }

  /** A rearrangement of a sequence without repeats has none either. */
  lemma NoDupPermutation<T>(a: seq<T>, b: seq<T>)
    requires NoDup(a) && multiset(a) == multiset(b)
    ensures NoDup(b)
  {
    forall i, j | 0 <= i < j < |b| ensures b[i] != b[j] {
      NoDupCount(a, b[j]);
      assert b == b[..j] + [b[j]] + b[j + 1..];
      assert b[j] !in b[..j];
      assert b[..j][i] == b[i];
    }
  }

  const BoardSize: int := 10

  /** The leaderboard: the first ten of the sorted candidates. */
  function Leaderboard(ids: seq<int>, users: map<int, Account>, owner: int): (top: seq<Entry>)
    requires Covers(ids, users)
    ensures |top| == Min(BoardSize, |Candidates(ids, users, owner)|)
    ensures Descending(top)
  {
    var ranking := SortDescending(Candidates(ids, users, owner));
    ranking[..Min(BoardSize, |ranking|)]
  }

  /**
   * The leaderboard holds at most ten eligible accounts with their current
   * balances, richest first, and no eligible account left off it is richer
   * than any account on it.
   */
  lemma LeaderboardIsTop(ids: seq<int>, users: map<int, Account>, owner: int)
    requires Covers(ids, users)
    ensures var top := Leaderboard(ids, users, owner);
      && |top| == Min(BoardSize, |Candidates(ids, users, owner)|)
      && Descending(top)
      && (NoDup(ids) ==> forall i, j :: 0 <= i < j < |top| ==> top[i].uid != top[j].uid)
      && (forall e :: e in top ==> e.uid in ids && e.uid != owner && e.balance > 0 && e.balance == users[e.uid].balance)
      && (forall id, e :: id in ids && id != owner && users[id].balance > 0 && Entry(id, users[id].balance) !in top && e in top ==>
            users[id].balance <= e.balance)
  {
    var cands := Candidates(ids, users, owner);
    var ranking := SortDescending(cands);
    var top := ranking[..Min(BoardSize, |ranking|)];
    assert top == Leaderboard(ids, users, owner);
    forall e | e in top ensures e in cands {
      assert e in multiset(ranking);
    }
    if NoDup(ids) {
      LeaderboardDistinct(ids, users, owner);
    }
    forall id, e | id in ids && id != owner && users[id].balance > 0 && Entry(id, users[id].balance) !in top && e in top
      ensures users[id].balance <= e.balance
    {
      var x := Entry(id, users[id].balance);
      assert x in multiset(cands);
      assert x in ranking;
      PrefixDominates(ranking, Min(BoardSize, |ranking|), x, e);
    }
  }

  /** Over a table listed without repeats, no account appears twice on the leaderboard. */
  lemma LeaderboardDistinct(ids: seq<int>, users: map<int, Account>, owner: int)
    requires Covers(ids, users) && NoDup(ids)
    ensures var top := Leaderboard(ids, users, owner);
      forall i, j :: 0 <= i < j < |top| ==> top[i].uid != top[j].uid
  {
    var cands := Candidates(ids, users, owner);
    var ranking := SortDescending(cands);
    var top := ranking[..Min(BoardSize, |ranking|)];
    NoDupPermutation(cands, ranking);
    forall i, j | 0 <= i < j < |top| ensures top[i].uid != top[j].uid {
      assert top[i] == ranking[i] && top[j] == ranking[j];
      assert ranking[i] in multiset(cands) && ranking[j] in multiset(cands);
    }
  }

  /** In a descending sequence, an entry left out of a prefix is no richer than any entry in it. */
  lemma PrefixDominates(s: seq<Entry>, n: nat, x: Entry, e: Entry)
    requires Descending(s) && n <= |s|
    requires x in s && x !in s[..n] && e in s[..n]
    ensures x.balance <= e.balance
  {
    var k :| 0 <= k < |s| && s[k] == x;
    var j :| 0 <= j < n && s[..n][j] == e;
    if k < n {
      assert false;
    }
  }

  /** A richer account never ranks below a poorer one: the first entry is the richest eligible account. */
  lemma LeaderHasMax(ids: seq<int>, users: map<int, Account>, owner: int, id: int)
    requires Covers(ids, users)
    requires id in ids && id != owner && users[id].balance > 0
    ensures |Leaderboard(ids, users, owner)| > 0
    ensures Leaderboard(ids, users, owner)[0].balance >= users[id].balance
  {
    var cands := Candidates(ids, users, owner);
    var ranking := SortDescending(cands);
    var x := Entry(id, users[id].balance);
    assert x in multiset(cands);
    assert x in ranking;
  }

  // ---------------------------------------------------------------- stats

  /** The coins in circulation: the sum of all balances. */
  function TotalBalance(ids: seq<int>, users: map<int, Account>): int
    requires Covers(ids, users)
  {
    if ids == [] then 0
    else
      users[ids[0]].balance + TotalBalance(ids[1..], users)
  }

  /** The games played, summed over all accounts. */
  function TotalGames(ids: seq<int>, users: map<int, Account>): int
    requires Covers(ids, users)
  {
    if ids == [] then 0
    else
      users[ids[0]].gamesPlayed + TotalGames(ids[1..], users)
  }

  /** With no balance below zero, the coins in circulation are not negative either. */
  lemma {:induction false} TotalBalanceNonNegative(ids: seq<int>, users: map<int, Account>)
    requires Covers(ids, users)
    requires forall i :: 0 <= i < |ids| ==> users[ids[i]].balance >= 0
    ensures TotalBalance(ids, users) >= 0
  {
    if ids != [] {
      TotalBalanceNonNegative(ids[1..], users);
    }
  }

  /** Totals only depend on the balances of the listed ids. */
  lemma {:induction false} TotalBalanceFrame(ids: seq<int>, u: map<int, Account>, v: map<int, Account>)
    requires Covers(ids, u) && Covers(ids, v)
    requires forall i :: 0 <= i < |ids| ==> u[ids[i]].balance == v[ids[i]].balance
    ensures TotalBalance(ids, u) == TotalBalance(ids, v)
  {
    if ids != [] {
      TotalBalanceFrame(ids[1..], u, v);
    }
  }

  /** Replacing one listed record changes the total by exactly its change of balance. */
  lemma {:induction false} TotalBalanceUpdate(ids: seq<int>, users: map<int, Account>, id: int, a: Account)
    requires Covers(ids, users) && NoDup(ids) && id in ids
    ensures TotalBalance(ids, users[id := a]) == TotalBalance(ids, users) - users[id].balance + a.balance
  {
    if ids[0] == id {
      assert forall i :: 0 <= i < |ids[1..]| ==> ids[1..][i] != id;
      TotalBalanceFrame(ids[1..], users[id := a], users);
    } else {
      TotalBalanceUpdate(ids[1..], users, id, a);
    }
  }

  /** Adding a new id at the end adds its balance to the total. */
  lemma {:induction false} TotalBalanceAppend(ids: seq<int>, users: map<int, Account>, id: int, a: Account)
    requires Covers(ids, users) && id !in ids
    ensures TotalBalance(ids + [id], users[id := a]) == TotalBalance(ids, users) + a.balance
  {
    if ids == [] {
      assert [id][1..] == [];
    } else {
      assert (ids + [id])[1..] == ids[1..] + [id];
      TotalBalanceAppend(ids[1..], users, id, a);
    }
  }

  /**
   * Moving `amount` from one account to another leaves the coins in
   * circulation unchanged.
   */
  lemma TransferConserves(ids: seq<int>, users: map<int, Account>, from: int, to: int, a: Account, b: Account, amount: int)
    requires Covers(ids, users) && NoDup(ids) && from in ids && to in ids && from != to
    requires a.balance == users[from].balance - amount && b.balance == users[to].balance + amount
    ensures TotalBalance(ids, users[from := a][to := b]) == TotalBalance(ids, users)
  {
    TotalBalanceUpdate(ids, users, from, a);
    TotalBalanceUpdate(ids, users[from := a], to, b);
  }
}
