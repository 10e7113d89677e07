/** POST /api/transactions/buy and /sell: units move between the catalog's
    available supply and the user's holdings, paid for from or into the
    user's cash balance at the cryptocurrency's current price. */
module TransactionRoutes {
  import opened Common
  import opened RouteStore

  // ---------------------------------------------------------------------
  // The holdings array

  /** `cryptoHoldings.findIndex(h => h.cryptoId === id)`. */
  function FirstHolding(hs: seq<Holding>, id: CryptoId): (i: int)
    ensures -1 <= i < |hs|
    ensures i >= 0 ==> hs[i].cryptoId == id && forall j :: 0 <= j < i ==> hs[j].cryptoId != id
    ensures i < 0 ==> forall j :: 0 <= j < |hs| ==> hs[j].cryptoId != id
  {
    if hs == [] then -1
    else if hs[0].cryptoId == id then 0
    else
      var k := FirstHolding(hs[1..], id);
      if k < 0 then -1 else k + 1
  }

  /** The search loop behind `findIndex`. */
  method FindHolding(hs: seq<Holding>, id: CryptoId) returns (i: int)
    ensures i == FirstHolding(hs, id)
    ensures i >= 0 ==> hs[i].cryptoId == id
    ensures i < 0 <==> forall j :: 0 <= j < |hs| ==> hs[j].cryptoId != id
  {
    i := 0;
    while i < |hs|
      invariant 0 <= i <= |hs|
      invariant forall j :: 0 <= j < i ==> hs[j].cryptoId != id
    {
      if hs[i].cryptoId == id {
        return;
      }
      i := i + 1;
    }
    i := -1;
  }

  /** How much of the cryptocurrency the holdings hold; 0 without a holding. */
  function HoldingAmount(hs: seq<Holding>, id: CryptoId): real
  {
    var i := FirstHolding(hs, id);
    if i < 0 then 0.0 else hs[i].amount
  }

  /** The holdings after a buy: the found holding grows, or one is pushed. */
  function AddHolding(hs: seq<Holding>, id: CryptoId, amount: real): seq<Holding>
  {
    var i := FirstHolding(hs, id);
    if i >= 0 then hs[i := hs[i].(amount := hs[i].amount + amount)]
    else hs + [Holding(id, amount)]
  }

  /** The holdings after a sell: the found holding shrinks, and is spliced
      out when exactly 0 is left. */
  function RemoveHolding(hs: seq<Holding>, id: CryptoId, amount: real): seq<Holding>
  {
    var i := FirstHolding(hs, id);
    if i < 0 then hs
    else if hs[i].amount - amount == 0.0 then hs[..i] + hs[i + 1..]
    else hs[i := hs[i].(amount := hs[i].amount - amount)]
  }

  /** The holdings of every other cryptocurrency, in their order. */
  function Others(hs: seq<Holding>, id: CryptoId): (r: seq<Holding>)
    ensures |r| <= |hs|
  {
    if hs == [] then []
    else (if hs[0].cryptoId != id then [hs[0]] else []) + Others(hs[1..], id)
  }

  lemma {:induction false} OthersAppend(a: seq<Holding>, b: seq<Holding>, id: CryptoId)
    ensures Others(a + b, id) == Others(a, id) + Others(b, id)
  {
    if a == [] {
      assert a + b == b;
    } else {
      assert (a + b)[0] == a[0];
      assert (a + b)[1..] == a[1..] + b;
      OthersAppend(a[1..], b, id);
    }
  }

  /** Replacing or cutting out a holding of `id` leaves the others alone. */
  lemma OthersIgnore(hs: seq<Holding>, i: nat, h: Holding, id: CryptoId)
    requires i < |hs| && hs[i].cryptoId == id && h.cryptoId == id
    ensures Others(hs[i := h], id) == Others(hs, id)
    ensures Others(hs[..i] + hs[i + 1..], id) == Others(hs, id)
  {
    assert hs == hs[..i] + [hs[i]] + hs[i + 1..];
    assert hs[i := h] == hs[..i] + [h] + hs[i + 1..];
    OthersAppend(hs[..i] + [hs[i]], hs[i + 1..], id);
    OthersAppend(hs[..i], [hs[i]], id);
    OthersAppend(hs[..i] + [h], hs[i + 1..], id);
    OthersAppend(hs[..i], [h], id);
    OthersAppend(hs[..i], hs[i + 1..], id);
    assert Others([h], id) == [] && Others([hs[i]], id) == [];
  }

  /** With one holding per cryptocurrency, a holding other than the first
      of `id` is not of `id`. */
  lemma AmountAt(hs: seq<Holding>, i: nat, id: CryptoId)
    requires HoldingsDistinct(hs) && i < |hs|
    ensures FirstHolding(hs, hs[i].cryptoId) == i
  {
  }

  /** A buy keeps one holding per cryptocurrency and every holding positive. */
  lemma AddHoldingKeepsValid(hs: seq<Holding>, id: CryptoId, amount: real)
    requires HoldingsDistinct(hs) && HoldingsPositive(hs) && amount > 0.0
    ensures HoldingsDistinct(AddHolding(hs, id, amount)) && HoldingsPositive(AddHolding(hs, id, amount))
  {
  }

  /** A buy adds `amount` to the bought cryptocurrency's holding, opening
      one when there is none, and leaves the others' holdings with their
      values and order. */
  lemma AddHoldingMeaning(hs: seq<Holding>, id: CryptoId, amount: real, other: CryptoId)
    requires HoldingsDistinct(hs)
    ensures HoldingAmount(AddHolding(hs, id, amount), id) == HoldingAmount(hs, id) + amount
    ensures other != id ==> HoldingAmount(AddHolding(hs, id, amount), other) == HoldingAmount(hs, other)
    ensures Others(AddHolding(hs, id, amount), id) == Others(hs, id)
    ensures |AddHolding(hs, id, amount)| == |hs| + (if FirstHolding(hs, id) < 0 then 1 else 0)
  {
    AddedAmounts(hs, id, amount, other);
    AddedOthers(hs, id, amount);
  }

  lemma AddedAmounts(hs: seq<Holding>, id: CryptoId, amount: real, other: CryptoId)
    requires HoldingsDistinct(hs)
    ensures HoldingAmount(AddHolding(hs, id, amount), id) == HoldingAmount(hs, id) + amount
    ensures other != id ==> HoldingAmount(AddHolding(hs, id, amount), other) == HoldingAmount(hs, other)
  {
    var i := FirstHolding(hs, id);
    if i >= 0 {
      var h := hs[i].(amount := hs[i].amount + amount);
      assert AddHolding(hs, id, amount) == hs[i := h];
      ReplacedAmounts(hs, i, h, other);
    } else {
      assert AddHolding(hs, id, amount) == hs + [Holding(id, amount)];
      PushedAmounts(hs, Holding(id, amount), other);
    }
  }

  lemma AddedOthers(hs: seq<Holding>, id: CryptoId, amount: real)
    ensures Others(AddHolding(hs, id, amount), id) == Others(hs, id)
    ensures |AddHolding(hs, id, amount)| == |hs| + (if FirstHolding(hs, id) < 0 then 1 else 0)
  {
    var i := FirstHolding(hs, id);
    if i >= 0 {
      var h := hs[i].(amount := hs[i].amount + amount);
      assert AddHolding(hs, id, amount) == hs[i := h];
      OthersIgnore(hs, i, h, id);
    } else {
      assert AddHolding(hs, id, amount) == hs + [Holding(id, amount)];
      OthersAppend(hs, [Holding(id, amount)], id);
      assert Others([Holding(id, amount)], id) == [];
    }
  }

  /** Replacing a holding by one of the same cryptocurrency: the lookups
      now find it, and every other lookup is unchanged. */
  lemma ReplacedAmounts(hs: seq<Holding>, i: nat, h: Holding, other: CryptoId)
    requires HoldingsDistinct(hs) && i < |hs| && h.cryptoId == hs[i].cryptoId
    ensures HoldingAmount(hs[i := h], h.cryptoId) == h.amount
    ensures other != h.cryptoId ==> HoldingAmount(hs[i := h], other) == HoldingAmount(hs, other)
  {
    var r := hs[i := h];
    AmountAt(r, i, h.cryptoId);
    var k := FirstHolding(hs, other);
    if other != h.cryptoId && k >= 0 {
      AmountAt(r, k, other);
    }
    if other != h.cryptoId && k < 0 {
      assert forall j :: 0 <= j < |r| ==> r[j].cryptoId != other;
    }
  }

  /** Pushing a holding of a cryptocurrency not yet held. */
  lemma PushedAmounts(hs: seq<Holding>, h: Holding, other: CryptoId)
    requires HoldingsDistinct(hs) && FirstHolding(hs, h.cryptoId) < 0
    ensures HoldingAmount(hs + [h], h.cryptoId) == h.amount
    ensures other != h.cryptoId ==> HoldingAmount(hs + [h], other) == HoldingAmount(hs, other)
  {
    var r := hs + [h];
    AmountAt(r, |hs|, h.cryptoId);
    var k := FirstHolding(hs, other);
    if other != h.cryptoId && k >= 0 {
      AmountAt(r, k, other);
    }
    if other != h.cryptoId && k < 0 {
      assert forall j :: 0 <= j < |r| ==> r[j].cryptoId != other;
    }
  }

  /** Cutting out a holding: its cryptocurrency is no longer held, every
      other lookup is unchanged. */
  lemma SplicedAmounts(hs: seq<Holding>, i: nat, other: CryptoId)
    requires HoldingsDistinct(hs) && i < |hs|
    ensures FirstHolding(hs[..i] + hs[i + 1..], hs[i].cryptoId) < 0
    ensures other != hs[i].cryptoId ==> HoldingAmount(hs[..i] + hs[i + 1..], other) == HoldingAmount(hs, other)
  {
    var r := hs[..i] + hs[i + 1..];
    assert forall j :: 0 <= j < |r| ==> r[j] == hs[if j < i then j else j + 1];
    var k := FirstHolding(hs, other);
    if other != hs[i].cryptoId && k >= 0 {
      var k' := if k < i then k else k - 1;
      assert r[k'] == hs[k];
      AmountAt(r, k', other);
    }
  }

  /** A sell keeps one holding per cryptocurrency and, taking no more than
      is held, every holding positive. */
  lemma RemoveHoldingKeepsValid(hs: seq<Holding>, id: CryptoId, amount: real)
    requires HoldingsDistinct(hs) && HoldingsPositive(hs)
    requires FirstHolding(hs, id) >= 0 && amount <= HoldingAmount(hs, id)
    ensures HoldingsDistinct(RemoveHolding(hs, id, amount)) && HoldingsPositive(RemoveHolding(hs, id, amount))
  {
    var i := FirstHolding(hs, id);
    if hs[i].amount - amount == 0.0 {
      var r := hs[..i] + hs[i + 1..];
      assert RemoveHolding(hs, id, amount) == r;
      SpliceKeepsValid(hs, i);
    } else {
      var h := hs[i].(amount := hs[i].amount - amount);
      assert RemoveHolding(hs, id, amount) == hs[i := h];
      assert h.amount > 0.0;
    }
  }

  /** Cutting out one holding keeps the rest distinct and positive. */
  lemma SpliceKeepsValid(hs: seq<Holding>, i: nat)
    requires HoldingsDistinct(hs) && HoldingsPositive(hs) && i < |hs|
    ensures HoldingsDistinct(hs[..i] + hs[i + 1..]) && HoldingsPositive(hs[..i] + hs[i + 1..])
  {
    var r := hs[..i] + hs[i + 1..];
    assert forall j :: 0 <= j < |r| ==> r[j] == hs[if j < i then j else j + 1];
  }

  /** A sell takes `amount` off the holding, removes it exactly when 0 is
      left, and leaves the others' holdings with their values and order. */
  lemma RemoveHoldingMeaning(hs: seq<Holding>, id: CryptoId, amount: real, other: CryptoId)
    requires HoldingsDistinct(hs) && FirstHolding(hs, id) >= 0
    ensures HoldingAmount(RemoveHolding(hs, id, amount), id) == HoldingAmount(hs, id) - amount
    ensures FirstHolding(RemoveHolding(hs, id, amount), id) < 0 <==> HoldingAmount(hs, id) == amount
    ensures other != id ==> HoldingAmount(RemoveHolding(hs, id, amount), other) == HoldingAmount(hs, other)
    ensures Others(RemoveHolding(hs, id, amount), id) == Others(hs, id)
  {
    var i := FirstHolding(hs, id);
    if hs[i].amount - amount == 0.0 {
      SplicedMeaning(hs, i, other);
    } else {
      ReducedMeaning(hs, i, hs[i].amount - amount, other);
    }
  }

  /** RemoveHoldingMeaning when the holding is spliced out. */
  lemma SplicedMeaning(hs: seq<Holding>, i: nat, other: CryptoId)
    requires HoldingsDistinct(hs) && i < |hs|
    ensures var r := hs[..i] + hs[i + 1..];
      && HoldingAmount(r, hs[i].cryptoId) == 0.0
      && FirstHolding(r, hs[i].cryptoId) < 0
      && (other != hs[i].cryptoId ==> HoldingAmount(r, other) == HoldingAmount(hs, other))
      && Others(r, hs[i].cryptoId) == Others(hs, hs[i].cryptoId)
  {
    OthersIgnore(hs, i, hs[i], hs[i].cryptoId);
    SplicedAmounts(hs, i, other);
  }

  /** RemoveHoldingMeaning when the holding is kept with what is left. */
  lemma ReducedMeaning(hs: seq<Holding>, i: nat, left: real, other: CryptoId)
    requires HoldingsDistinct(hs) && i < |hs|
    ensures var r := hs[i := hs[i].(amount := left)];
      && HoldingAmount(r, hs[i].cryptoId) == left
      && FirstHolding(r, hs[i].cryptoId) == i
      && (other != hs[i].cryptoId ==> HoldingAmount(r, other) == HoldingAmount(hs, other))
      && Others(r, hs[i].cryptoId) == Others(hs, hs[i].cryptoId)
  {
    var h := hs[i].(amount := left);
    OthersIgnore(hs, i, h, hs[i].cryptoId);
    ReplacedAmounts(hs, i, h, other);
    AmountAt(hs[i := h], i, hs[i].cryptoId);
  }

  /** The buy route's update of the holdings array. */
  method Bought(hs: seq<Holding>, id: CryptoId, amount: real) returns (r: seq<Holding>)
    ensures r == AddHolding(hs, id, amount)
  {
    r := hs;
    var i := FindHolding(hs, id);
    if i != -1 {
      r := r[i := r[i].(amount := r[i].amount + amount)];
    } else {
      r := r + [Holding(id, amount)];
    }
  }

  /** The sell route's update of the holdings array: the found holding is
      reduced first, and spliced out if that leaves exactly 0. */
  method Sold(hs: seq<Holding>, i: int, id: CryptoId, amount: real) returns (r: seq<Holding>)
    requires i == FirstHolding(hs, id) && i >= 0
    ensures r == RemoveHolding(hs, id, amount)
  {
    r := hs[i := hs[i].(amount := hs[i].amount - amount)];
    if r[i].amount == 0.0 {
      assert r[..i] == hs[..i] && r[i + 1..] == hs[i + 1..];
      r := r[..i] + r[i + 1..];
    }
  }

  // ---------------------------------------------------------------------
  // Handlers

  /** What a successful trade answers. */
  datatype Receipt = Receipt(transaction: Trade, wallet: CashWallet, cryptocurrency: Cryptocurrency)

  /** How much of the cryptocurrency a user holds. */
  function Held(t: Trader, id: CryptoId): real
  {
    HoldingAmount(t.wallet.cryptoHoldings, id)
  }

  /** POST /api/transactions/buy. The amount is checked before any lookup,
      the balance before the supply; the record is made before the wallet
      and the supply change, and the price is never touched. */
  method BuyRoute(ex: Exchange, uid: UserId, cryptoId: CryptoId, amount: Option<real>, now: Date)
    returns (r: Result<Receipt, RouteFailure>)
    requires ex.Valid()
    modifies ex
    ensures ex.Valid()
    ensures !ValidAmount(amount) ==> r == Err(InvalidAmount)
    ensures ValidAmount(amount) && uid !in old(ex.users) ==> r == Err(UserNotFound)
    ensures ValidAmount(amount) && uid in old(ex.users) && cryptoId !in old(ex.catalog) ==> r == Err(CryptoNotFound)
    ensures ValidAmount(amount) && uid in old(ex.users) && cryptoId in old(ex.catalog)
            && old(ex.users[uid].wallet.balance) < Total(old(ex.catalog[cryptoId].currentPrice), amount.value) ==>
      r == Err(InsufficientBalance)
    ensures ValidAmount(amount) && uid in old(ex.users) && cryptoId in old(ex.catalog)
            && old(ex.users[uid].wallet.balance) >= Total(old(ex.catalog[cryptoId].currentPrice), amount.value)
            && old(ex.catalog[cryptoId].availableSupply) < amount.value ==>
      r == Err(InsufficientSupply)
    ensures ValidAmount(amount) && uid in old(ex.users) && cryptoId in old(ex.catalog)
            && old(ex.users[uid].wallet.balance) >= Total(old(ex.catalog[cryptoId].currentPrice), amount.value)
            && old(ex.catalog[cryptoId].availableSupply) >= amount.value ==>
      r.Ok?
    ensures r.Err? ==> unchanged(ex)
    ensures r.Ok? ==> ValidAmount(amount) && uid in old(ex.users) && cryptoId in old(ex.catalog)
    ensures r.Ok? ==> r.value.transaction == Trade(uid, cryptoId, Buy, amount.value, old(ex.catalog[cryptoId].currentPrice), now)
    ensures r.Ok? ==> ex.trades == old(ex.trades) + [r.value.transaction]
    ensures r.Ok? ==> r.value.wallet.balance == old(ex.users[uid].wallet.balance) - Total(old(ex.catalog[cryptoId].currentPrice), amount.value)
    ensures r.Ok? ==> r.value.wallet.cryptoHoldings == AddHolding(old(ex.users[uid].wallet.cryptoHoldings), cryptoId, amount.value)
    ensures r.Ok? ==> ex.users == old(ex.users)[uid := old(ex.users[uid]).(wallet := r.value.wallet)]
    ensures r.Ok? ==> r.value.cryptocurrency == old(ex.catalog[cryptoId]).(availableSupply := old(ex.catalog[cryptoId].availableSupply) - amount.value)
    ensures r.Ok? ==> ex.catalog == old(ex.catalog)[cryptoId := r.value.cryptocurrency]
    ensures r.Ok? ==> ex.nextCryptoId == old(ex.nextCryptoId)
    ensures r.Ok? ==> Held(ex.users[uid], cryptoId) + ex.catalog[cryptoId].availableSupply
                      == Held(old(ex.users[uid]), cryptoId) + old(ex.catalog[cryptoId].availableSupply)
    ensures r.Ok? ==> ex.catalog[cryptoId].currentPrice == old(ex.catalog[cryptoId].currentPrice)
  {
    if !ValidAmount(amount) {
      return Err(InvalidAmount);
    }
    if uid !in ex.users {
      return Err(UserNotFound);
    }
    if cryptoId !in ex.catalog {
      return Err(CryptoNotFound);
    }
    var user := ex.users[uid];
    var crypto := ex.catalog[cryptoId];
    var totalCost := Total(crypto.currentPrice, amount.value);
    if user.wallet.balance < totalCost {
      return Err(InsufficientBalance);
    }
    if crypto.availableSupply < amount.value {
      return Err(InsufficientSupply);
    }
    var tx := Trade(uid, cryptoId, Buy, amount.value, crypto.currentPrice, now);
    ex.Record(tx);
    AddHoldingKeepsValid(user.wallet.cryptoHoldings, cryptoId, amount.value);
    AddHoldingMeaning(user.wallet.cryptoHoldings, cryptoId, amount.value, cryptoId);
    var hs := Bought(user.wallet.cryptoHoldings, cryptoId, amount.value);
    var wallet := CashWallet(user.wallet.balance - totalCost, hs);
    ex.SetWallet(uid, wallet);
    var updated := crypto.(availableSupply := crypto.availableSupply - amount.value);
    ex.SetCrypto(cryptoId, updated);
    r := Ok(Receipt(tx, wallet, updated));
  }

  /** POST /api/transactions/sell. The holding is checked after both
      lookups and before anything changes. */
  method SellRoute(ex: Exchange, uid: UserId, cryptoId: CryptoId, amount: Option<real>, now: Date)
    returns (r: Result<Receipt, RouteFailure>)
    requires ex.Valid()
    modifies ex
    ensures ex.Valid()
    ensures !ValidAmount(amount) ==> r == Err(InvalidAmount)
    ensures ValidAmount(amount) && uid !in old(ex.users) ==> r == Err(UserNotFound)
    ensures ValidAmount(amount) && uid in old(ex.users) && cryptoId !in old(ex.catalog) ==> r == Err(CryptoNotFound)
    ensures ValidAmount(amount) && uid in old(ex.users) && cryptoId in old(ex.catalog)
            && (FirstHolding(old(ex.users[uid].wallet.cryptoHoldings), cryptoId) < 0
                || Held(old(ex.users[uid]), cryptoId) < amount.value) ==>
      r == Err(InsufficientHoldings)
    ensures ValidAmount(amount) && uid in old(ex.users) && cryptoId in old(ex.catalog)
            && FirstHolding(old(ex.users[uid].wallet.cryptoHoldings), cryptoId) >= 0
            && Held(old(ex.users[uid]), cryptoId) >= amount.value ==>
      r.Ok?
    ensures r.Err? ==> unchanged(ex)
    ensures r.Ok? ==> ValidAmount(amount) && uid in old(ex.users) && cryptoId in old(ex.catalog)
    ensures r.Ok? ==> r.value.transaction == Trade(uid, cryptoId, Sell, amount.value, old(ex.catalog[cryptoId].currentPrice), now)
    ensures r.Ok? ==> ex.trades == old(ex.trades) + [r.value.transaction]
    ensures r.Ok? ==> r.value.wallet.balance == old(ex.users[uid].wallet.balance) + Total(old(ex.catalog[cryptoId].currentPrice), amount.value)
    ensures r.Ok? ==> r.value.wallet.cryptoHoldings == RemoveHolding(old(ex.users[uid].wallet.cryptoHoldings), cryptoId, amount.value)
    ensures r.Ok? ==> ex.users == old(ex.users)[uid := old(ex.users[uid]).(wallet := r.value.wallet)]
    ensures r.Ok? ==> r.value.cryptocurrency == old(ex.catalog[cryptoId]).(availableSupply := old(ex.catalog[cryptoId].availableSupply) + amount.value)
    ensures r.Ok? ==> ex.catalog == old(ex.catalog)[cryptoId := r.value.cryptocurrency]
    ensures r.Ok? ==> ex.nextCryptoId == old(ex.nextCryptoId)
    ensures r.Ok? ==> Held(ex.users[uid], cryptoId) + ex.catalog[cryptoId].availableSupply
                      == Held(old(ex.users[uid]), cryptoId) + old(ex.catalog[cryptoId].availableSupply)
    ensures r.Ok? ==> ex.catalog[cryptoId].currentPrice == old(ex.catalog[cryptoId].currentPrice)
  {
    if !ValidAmount(amount) {
      return Err(InvalidAmount);
    }
    if uid !in ex.users {
      return Err(UserNotFound);
    }
    if cryptoId !in ex.catalog {
      return Err(CryptoNotFound);
    }
    var user := ex.users[uid];
    var crypto := ex.catalog[cryptoId];
    var hs := user.wallet.cryptoHoldings;
    var i := FindHolding(hs, cryptoId);
    if i == -1 || hs[i].amount < amount.value {
      return Err(InsufficientHoldings);
    }
    assert Held(user, cryptoId) == hs[i].amount;
    var totalEarnings := Total(crypto.currentPrice, amount.value);
    var tx := Trade(uid, cryptoId, Sell, amount.value, crypto.currentPrice, now);
    ex.Record(tx);
    RemoveHoldingKeepsValid(hs, cryptoId, amount.value);
    RemoveHoldingMeaning(hs, cryptoId, amount.value, cryptoId);
    var left := Sold(hs, i, cryptoId, amount.value);
    var wallet := CashWallet(user.wallet.balance + totalEarnings, left);
    ex.SetWallet(uid, wallet);
    var updated := crypto.(availableSupply := crypto.availableSupply + amount.value);
    ex.SetCrypto(cryptoId, updated);
    r := Ok(Receipt(tx, wallet, updated));
  }
}
