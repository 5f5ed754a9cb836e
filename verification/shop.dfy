/**
 * The shop: the fixed catalog, name normalisation, the purchase checks in
 * the order `acheter` makes them, and the effect of a purchase.
 */
module Shop {
  import opened Wrappers
  import opened Text
  import opened Accounts

  /** Item name to price. */
  const Catalog: map<string, int> := map[
    "role_vip" := 1000,
    "ticket_loterie" := 250,
    "boost_x2" := 1200,
    "emoji_special" := 300,
    "badge" := 500,
    "boost_x3" := 2000,
    "skin_slot" := 900,
    "extra_steal" := 1500
  ]

  /** Every catalog name is its own normal form, so each item can be bought by typing its name. */
  lemma CatalogNamesNormal()
    ensures forall item :: item in Catalog ==> Normalise(item) == item
  {
    forall item | item in Catalog ensures Normalise(item) == item {
      assert item in {"role_vip", "ticket_loterie", "boost_x2", "emoji_special", "badge", "boost_x3", "skin_slot", "extra_steal"};
      if item == "role_vip" { PlainName("role_vip"); }
      else if item == "ticket_loterie" { PlainName("ticket_loterie"); }
      else if item == "boost_x2" { PlainName("boost_x2"); }
      else if item == "emoji_special" { PlainName("emoji_special"); }
      else if item == "badge" { PlainName("badge"); }
      else if item == "boost_x3" { PlainName("boost_x3"); }
      else if item == "skin_slot" { PlainName("skin_slot"); }
      else { PlainName("extra_steal"); }
    }
  }

  /** Every price lies between 250 and 2000 coins. */
  lemma CatalogPrices()
    ensures forall item :: item in Catalog ==> 250 <= Catalog[item] <= 2000
  {
  }

  /** A name of lower-case letters, digits and underscores is already normalised. */
  lemma PlainName(name: string)
    requires forall i :: 0 <= i < |name| ==> 'a' <= name[i] <= 'z' || '0' <= name[i] <= '9' || name[i] == '_'
    ensures Normalise(name) == name
  {
    LowerKeepsLowercase(name);
  }

  /** A boost runs for one hour from the purchase. */
  const BoostSeconds: int := 3600

  /** The item name `acheter` looks up: lower-cased, spaces turned into underscores. */
  function Normalise(name: string): (item: string)
    ensures |item| == |name|
    ensures forall i :: 0 <= i < |item| ==> item[i] != ' ' && !IsUpper(item[i])
  {
    SpacesToUnderscores(Lower(name))
  }

  /** Normalising a normalised name changes nothing. */
  lemma NormaliseIdempotent(name: string)
    ensures Normalise(Normalise(name)) == Normalise(name)
  {
    var n := Normalise(name);
    LowerKeepsLowercase(n);
    assert SpacesToUnderscores(n) == n;
  }

  datatype ShopError = UnknownItem | CannotAfford(price: int) | AlreadyOwned

  /** The three refusals of `acheter`, tested in this order: unknown name, funds, ownership. */
  function CheckPurchase(a: Account, item: string): (e: Option<ShopError>)
    ensures e == None <==> item in Catalog && Catalog[item] <= a.balance && item !in a.items
    ensures e == Some(UnknownItem) <==> item !in Catalog
    ensures e.Some? && e.value.CannotAfford? <==> item in Catalog && a.balance < Catalog[item]
    ensures e == Some(AlreadyOwned) <==> item in Catalog && Catalog[item] <= a.balance && item in a.items
  {
    if item !in Catalog then Some(UnknownItem)
    else if a.balance < Catalog[item] then Some(CannotAfford(Catalog[item]))
    else if item in a.items then Some(AlreadyOwned)
    else None
  }

  /** The record after a purchase that passed every check. */
  function Bought(a: Account, item: string, now: int): (r: Account)
    requires item in Catalog
    ensures r.balance == a.balance - Catalog[item]
    ensures r.items == a.items + [item]
    ensures r.boostEnd == (if HasInfix(item, "boost") then At(now + BoostSeconds) else a.boostEnd)
    ensures r.(balance := a.balance, items := a.items, boostEnd := a.boostEnd) == a
  {
    var paid := a.(balance := a.balance - Catalog[item], items := a.items + [item]);
    if HasInfix(item, "boost") then paid.(boostEnd := At(now + BoostSeconds)) else paid
  }

  /** An accepted purchase never overdraws and keeps the item list free of duplicates. */
  lemma PurchaseSound(a: Account, item: string, now: int)
    requires CheckPurchase(a, item) == None && NoDup(a.items)
    ensures Bought(a, item, now).balance >= 0
    ensures NoDup(Bought(a, item, now).items)
    ensures multiset(Bought(a, item, now).items)[item] == 1
  {
    var s := a.items + [item];
    forall i, j | 0 <= i < j < |s| ensures s[i] != s[j] {
      if j == |s| - 1 {
        assert s[i] == a.items[i];
      }
    }
    assert multiset(a.items)[item] == 0;
  }

  /** The catalog names that contain "boost" are exactly the two boost items. */
  lemma BoostItems(item: string)
    requires item in Catalog
    ensures HasInfix(item, "boost") <==> item == "boost_x2" || item == "boost_x3"
  {
    if item == "boost_x2" || item == "boost_x3" {
      assert item[..5] == "boost";
    } else if item == "badge" {
      assert "badge"[..5] != "boost" by {
        assert "badge"[..5][1] == 'a';
      }
      assert !HasInfix("badge", "boost");
    } else if item == "role_vip" {
      NoLetterB("role_vip");
    } else if item == "ticket_loterie" {
      NoLetterB("ticket_loterie");
    } else if item == "emoji_special" {
      NoLetterB("emoji_special");
    } else if item == "skin_slot" {
      NoLetterB("skin_slot");
    } else {
      assert item == "extra_steal";
      NoLetterB("extra_steal");
    }
  }

  /** A name without the letter `b` cannot contain "boost". */
  lemma NoLetterB(name: string)
    requires 'b' !in name
    ensures !HasInfix(name, "boost")
  {
    if HasInfix(name, "boost") {
      HasInfixNeedsFirst(name, "boost");
    }
  }

  /** Buying a boost item turns the boost on for the next hour: x2 for `boost_x2`, x3 for `boost_x3`. */
  lemma BoostPurchaseActivates(a: Account, item: string, now: int, later: int)
    requires item == "boost_x2" || item == "boost_x3"
    requires now <= later < now + BoostSeconds
    ensures HasBoost(Bought(a, item, now), later)
    ensures BoostMultiplier(Bought(a, item, now), later) >= 2
    ensures item == "boost_x3" ==> BoostMultiplier(Bought(a, item, now), later) == 3
  {
    BoostItems(item);
    assert item in Bought(a, item, now).items;
  }

  /** Buying anything else leaves the boost end as it was. */
  lemma OtherPurchaseKeepsBoost(a: Account, item: string, now: int)
    requires item in Catalog && item != "boost_x2" && item != "boost_x3"
    ensures Bought(a, item, now).boostEnd == a.boostEnd
  {
    BoostItems(item);
  }

  /**
   * Buying the same item again right after is always refused: for lack of
   * funds when what is left is below the price (funds are checked first),
   * otherwise because it is already owned.
   */
  lemma RepeatPurchaseRefused(a: Account, item: string, now: int)
    requires CheckPurchase(a, item) == None
    ensures var b := Bought(a, item, now);
      CheckPurchase(b, item) ==
        if b.balance < Catalog[item] then Some(CannotAfford(Catalog[item])) else Some(AlreadyOwned)
  {
    assert item in Bought(a, item, now).items;
  }
}
