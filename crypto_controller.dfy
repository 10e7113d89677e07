/** The crypto controller: buying and selling against a quoted price over
    the wallet table, the user's balance and the transaction log, and the
    valuation of a user's portfolio. The market-data service is not called:
    its answer is a parameter, `None` when the request or the lookup of the
    symbol in its response fails. */
module CryptoController {
  import opened Common
  import opened ControllerStore

  /** The part of a market-data answer the handlers use for one symbol. */
  datatype Quote = Quote(name: string, price: real)

  // ---------------------------------------------------------------------
  // The wallet table

  /** Position of the wallet `findOne({ user, symbol })` returns, or -1. */
  function FirstIndex(ws: seq<Wallet>, uid: UserId, symbol: string): (i: int)
    ensures -1 <= i < |ws|
    ensures i >= 0 ==> Owns(ws[i], uid, symbol) && forall j :: 0 <= j < i ==> !Owns(ws[j], uid, symbol)
    ensures i < 0 ==> forall j :: 0 <= j < |ws| ==> !Owns(ws[j], uid, symbol)
  {
    if ws == [] then -1
    else if Owns(ws[0], uid, symbol) then 0
    else
      var k := FirstIndex(ws[1..], uid, symbol);
      if k < 0 then -1 else k + 1
  }

  /** The wallet `findOne({ user, symbol })` returns. */
  function WalletOf(ws: seq<Wallet>, uid: UserId, symbol: string): (r: Option<Wallet>)
  {
    var i := FirstIndex(ws, uid, symbol);
    if i < 0 then None else Some(ws[i])
  }

  /** The linear search behind `findOne`: the first wallet of the user for
      the symbol, or -1 when there is none. */
  method FindWallet(ws: seq<Wallet>, uid: UserId, symbol: string) returns (i: int)
    ensures i == FirstIndex(ws, uid, symbol)
    ensures i >= 0 ==> WalletOf(ws, uid, symbol) == Some(ws[i])
    ensures i < 0 <==> WalletOf(ws, uid, symbol).None?
  {
    i := 0;
    while i < |ws|
      invariant 0 <= i <= |ws|
      invariant forall j :: 0 <= j < i ==> !Owns(ws[j], uid, symbol)
    {
      if Owns(ws[i], uid, symbol) {
        return;
      }
      i := i + 1;
    }
    i := -1;
  }

  /** An existing wallet after a buy of `amount` costing `cost`. */
  function Topped(w: Wallet, amount: real, cost: real): Wallet
  {
    var total := w.amount + amount;
    var value := w.purchaseValue + cost;
    w.(amount := total, purchaseValue := value, averagePrice := Quotient(value, total))
  }

  /** The wallet a first buy creates. */
  function Opened(uid: UserId, symbol: string, name: string, amount: real, cost: real, price: real): Wallet
  {
    Wallet(uid, symbol, name, amount, cost, Some(price))
  }

  /** The wallet table after a buy: the user's wallet for the symbol is
      topped up, or a new one is added when there is none. */
  function Credit(ws: seq<Wallet>, uid: UserId, symbol: string, name: string,
                  amount: real, cost: real, price: real): seq<Wallet>
  {
    if ws == [] then [Opened(uid, symbol, name, amount, cost, price)]
    else if Owns(ws[0], uid, symbol) then [Topped(ws[0], amount, cost)] + ws[1..]
    else [ws[0]] + Credit(ws[1..], uid, symbol, name, amount, cost, price)
  }

  /** The wallet table after a sell: the user's wallet for the symbol loses
      `amount` and is deleted when nothing positive is left. */
  function Debit(ws: seq<Wallet>, uid: UserId, symbol: string, amount: real): seq<Wallet>
  {
    if ws == [] then []
    else if Owns(ws[0], uid, symbol) then
      if ws[0].amount - amount <= 0.0 then ws[1..]
      else [ws[0].(amount := ws[0].amount - amount)] + ws[1..]
    else [ws[0]] + Debit(ws[1..], uid, symbol, amount)
  }

  /** A buy updates the found wallet in place, or appends a new one. */
  lemma {:induction false} CreditForm(ws: seq<Wallet>, uid: UserId, symbol: string, name: string,
                                     amount: real, cost: real, price: real)
    ensures var i := FirstIndex(ws, uid, symbol);
      Credit(ws, uid, symbol, name, amount, cost, price) ==
        if i >= 0 then ws[i := Topped(ws[i], amount, cost)]
        else ws + [Opened(uid, symbol, name, amount, cost, price)]
  {
    if ws != [] && !Owns(ws[0], uid, symbol) {
      CreditForm(ws[1..], uid, symbol, name, amount, cost, price);
      var k := FirstIndex(ws[1..], uid, symbol);
      if k >= 0 {
        assert [ws[0]] + ws[1..][k := Topped(ws[1..][k], amount, cost)] == ws[k + 1 := Topped(ws[k + 1], amount, cost)];
      } else {
        assert [ws[0]] + (ws[1..] + [Opened(uid, symbol, name, amount, cost, price)])
          == ws + [Opened(uid, symbol, name, amount, cost, price)];
      }
    } else if ws != [] {
      assert [Topped(ws[0], amount, cost)] + ws[1..] == ws[0 := Topped(ws[0], amount, cost)];
    }
  }

  /** The table with the wallet at position `i` (if any) sold down by
      `amount`: cut out at zero or below, updated otherwise. */
  function DebitAt(ws: seq<Wallet>, i: int, amount: real): seq<Wallet>
    requires -1 <= i < |ws|
  {
    if i < 0 then ws
    else if ws[i].amount - amount <= 0.0 then ws[..i] + ws[i + 1..]
    else ws[i := ws[i].(amount := ws[i].amount - amount)]
  }

  /** A sell updates the found wallet in place, or cuts it out of the table. */
  lemma DebitForm(ws: seq<Wallet>, uid: UserId, symbol: string, amount: real)
    ensures FirstIndex(ws, uid, symbol) < 0 ==> Debit(ws, uid, symbol, amount) == ws
    ensures var i := FirstIndex(ws, uid, symbol);
      i >= 0 && ws[i].amount - amount <= 0.0 ==> Debit(ws, uid, symbol, amount) == ws[..i] + ws[i + 1..]
    ensures var i := FirstIndex(ws, uid, symbol);
      i >= 0 && ws[i].amount - amount > 0.0 ==>
        Debit(ws, uid, symbol, amount) == ws[i := ws[i].(amount := ws[i].amount - amount)]
  {
    DebitShape(ws, uid, symbol, amount);
  }

  /** The recursion behind DebitForm, with the three cases folded into DebitAt. */
  lemma {:induction false} DebitShape(ws: seq<Wallet>, uid: UserId, symbol: string, amount: real)
    ensures Debit(ws, uid, symbol, amount) == DebitAt(ws, FirstIndex(ws, uid, symbol), amount)
  {
    if ws == [] {
    } else if Owns(ws[0], uid, symbol) {
      assert FirstIndex(ws, uid, symbol) == 0;
      var w' := ws[0].(amount := ws[0].amount - amount);
      assert [w'] + ws[1..] == ws[0 := w'];
      assert ws[..0] + ws[1..] == ws[1..];
    } else {
      var t := ws[1..];
      var k := FirstIndex(t, uid, symbol);
      assert FirstIndex(ws, uid, symbol) == if k < 0 then -1 else k + 1;
      assert Debit(ws, uid, symbol, amount) == [ws[0]] + Debit(t, uid, symbol, amount);
      DebitShape(t, uid, symbol, amount);
      assert ws == [ws[0]] + t;
      ConsDebitAt(ws[0], t, k, amount);
    }
  }

  /** DebitAt commutes with putting one more wallet in front. */
  lemma ConsDebitAt(x: Wallet, t: seq<Wallet>, k: int, amount: real)
    requires -1 <= k < |t|
    ensures [x] + DebitAt(t, k, amount) == DebitAt([x] + t, if k < 0 then -1 else k + 1, amount)
  {
    if k >= 0 {
      assert ([x] + t)[k + 1] == t[k];
      if t[k].amount - amount <= 0.0 {
        ConsRemove(x, t, k);
      } else {
        ConsUpdate(x, t, k + 1, t[k].(amount := t[k].amount - amount));
      }
    }
  }

  lemma ConsRemove<T>(x: T, t: seq<T>, k: nat)
    requires k < |t|
    ensures [x] + (t[..k] + t[k + 1..]) == ([x] + t)[..k + 1] + ([x] + t)[k + 2..]
  {
    assert ([x] + t)[..k + 1] == [x] + t[..k];
    assert ([x] + t)[k + 2..] == t[k + 1..];
  }

  lemma ConsUpdate<T>(x: T, t: seq<T>, k: nat, v: T)
    requires 0 < k <= |t|
    ensures [x] + t[k - 1 := v] == ([x] + t)[k := v]
  {
  }

  /** Replacing a wallet by one with the same key keeps the keys unique. */
  lemma ReplaceKeepsUnique(ws: seq<Wallet>, i: nat, w: Wallet)
    requires WalletsUnique(ws) && i < |ws| && Owns(w, ws[i].user, ws[i].symbol)
    ensures WalletsUnique(ws[i := w])
  {
  }

  /** Cutting a wallet out keeps the keys unique. */
  lemma RemoveKeepsUnique(ws: seq<Wallet>, i: nat)
    requires WalletsUnique(ws) && i < |ws|
    ensures WalletsUnique(ws[..i] + ws[i + 1..])
  {
    var r := ws[..i] + ws[i + 1..];
    forall a, b | 0 <= a < b < |r| ensures !Owns(r[b], r[a].user, r[a].symbol) {
      var a' := if a < i then a else a + 1;
      var b' := if b < i then b else b + 1;
      assert r[a] == ws[a'] && r[b] == ws[b'];
    }
  }

  /** Buying never creates a second wallet for a (user, symbol), and keeps
      the table's symbols upper-case when the bought symbol is. */
  lemma CreditKeepsUnique(ws: seq<Wallet>, uid: UserId, symbol: string, name: string,
                          amount: real, cost: real, price: real)
    requires WalletsUnique(ws) && SymbolsUpper(ws) && IsUpper(symbol)
    ensures WalletsUnique(Credit(ws, uid, symbol, name, amount, cost, price))
    ensures SymbolsUpper(Credit(ws, uid, symbol, name, amount, cost, price))
  {
    CreditForm(ws, uid, symbol, name, amount, cost, price);
    var i := FirstIndex(ws, uid, symbol);
    if i >= 0 {
      ReplaceKeepsUnique(ws, i, Topped(ws[i], amount, cost));
    }
  }

  /** Selling keeps the table's keys unique and its symbols upper-case. */
  lemma DebitKeepsUnique(ws: seq<Wallet>, uid: UserId, symbol: string, amount: real)
    requires WalletsUnique(ws) && SymbolsUpper(ws)
    ensures WalletsUnique(Debit(ws, uid, symbol, amount))
    ensures SymbolsUpper(Debit(ws, uid, symbol, amount))
  {
    DebitForm(ws, uid, symbol, amount);
    var i := FirstIndex(ws, uid, symbol);
    if i >= 0 {
      if ws[i].amount - amount <= 0.0 {
        RemoveKeepsUnique(ws, i);
        var r := ws[..i] + ws[i + 1..];
        forall k | 0 <= k < |r| ensures IsUpper(r[k].symbol) {
          assert r[k] == ws[if k < i then k else k + 1];
        }
      } else {
        ReplaceKeepsUnique(ws, i, ws[i].(amount := ws[i].amount - amount));
      }
    }
  }

  /** What a buy does to the table, seen through `findOne`: the bought
      wallet holds the summed amount and purchase value with their quotient
      as average price, or is new with the price as average; every other
      (user, symbol) finds what it found before. */
  lemma {:induction false} CreditView(ws: seq<Wallet>, uid: UserId, symbol: string, name: string,
                                     amount: real, cost: real, price: real, u: UserId, s: string)
    ensures WalletOf(Credit(ws, uid, symbol, name, amount, cost, price), u, s) ==
      if u == uid && s == symbol then
        match WalletOf(ws, uid, symbol)
        case Some(w) => Some(Topped(w, amount, cost))
        case None => Some(Opened(uid, symbol, name, amount, cost, price))
      else WalletOf(ws, u, s)
  {
    if ws != [] && !Owns(ws[0], uid, symbol) {
      CreditView(ws[1..], uid, symbol, name, amount, cost, price, u, s);
      var c := Credit(ws[1..], uid, symbol, name, amount, cost, price);
      assert ([ws[0]] + c)[1..] == c;
    } else if ws != [] {
      assert ([Topped(ws[0], amount, cost)] + ws[1..])[1..] == ws[1..];
    }
  }

  /** What a sell does to the table, seen through `findOne`: the sold
      wallet loses `amount` and disappears at zero or below, keeping its
      purchase value and average price; every other key is unaffected. */
  lemma {:induction false} DebitView(ws: seq<Wallet>, uid: UserId, symbol: string, amount: real, u: UserId, s: string)
    requires WalletsUnique(ws)
    ensures WalletOf(Debit(ws, uid, symbol, amount), u, s) ==
      if u == uid && s == symbol then
        match WalletOf(ws, uid, symbol)
        case Some(w) => if w.amount - amount <= 0.0 then None else Some(w.(amount := w.amount - amount))
        case None => None
      else WalletOf(ws, u, s)
  {
    if u == uid && s == symbol {
      DebitViewSold(ws, uid, symbol, amount);
    } else {
      DebitViewOther(ws, uid, symbol, amount, u, s);
    }
  }

  /** The sold wallet, as `findOne` sees it after the sell. */
  lemma {:induction false} DebitViewSold(ws: seq<Wallet>, uid: UserId, symbol: string, amount: real)
    requires WalletsUnique(ws)
    ensures WalletOf(Debit(ws, uid, symbol, amount), uid, symbol) ==
      match WalletOf(ws, uid, symbol)
      case Some(w) => if w.amount - amount <= 0.0 then None else Some(w.(amount := w.amount - amount))
      case None => None
  {
    if ws != [] {
      if !Owns(ws[0], uid, symbol) {
        TailUnique(ws);
        var d := Debit(ws[1..], uid, symbol, amount);
        assert Debit(ws, uid, symbol, amount) == [ws[0]] + d;
        assert WalletOf(ws, uid, symbol) == WalletOf(ws[1..], uid, symbol);
        DebitViewSold(ws[1..], uid, symbol, amount);
        assert ([ws[0]] + d)[1..] == d;
      } else if ws[0].amount - amount <= 0.0 {
        assert Debit(ws, uid, symbol, amount) == ws[1..];
        forall j | 0 <= j < |ws[1..]| ensures !Owns(ws[1..][j], uid, symbol) {
          assert ws[1..][j] == ws[j + 1];
        }
      } else {
        var w' := ws[0].(amount := ws[0].amount - amount);
        assert Debit(ws, uid, symbol, amount) == [w'] + ws[1..];
      }
    }
  }

  /** Every other key finds, after a sell, what it found before. */
  lemma {:induction false} DebitViewOther(ws: seq<Wallet>, uid: UserId, symbol: string, amount: real, u: UserId, s: string)
    requires u != uid || s != symbol
    ensures WalletOf(Debit(ws, uid, symbol, amount), u, s) == WalletOf(ws, u, s)
  {
    if ws != [] {
      if !Owns(ws[0], uid, symbol) {
        var d := Debit(ws[1..], uid, symbol, amount);
        assert Debit(ws, uid, symbol, amount) == [ws[0]] + d;
        DebitViewOther(ws[1..], uid, symbol, amount, u, s);
        assert ([ws[0]] + d)[1..] == d;
      } else if ws[0].amount - amount <= 0.0 {
        assert Debit(ws, uid, symbol, amount) == ws[1..];
      } else {
        var w' := ws[0].(amount := ws[0].amount - amount);
        assert Debit(ws, uid, symbol, amount) == [w'] + ws[1..];
        assert ([w'] + ws[1..])[1..] == ws[1..];
      }
    }
  }

  /** Dropping the first wallet keeps the keys unique. */
  lemma TailUnique(ws: seq<Wallet>)
    requires WalletsUnique(ws) && ws != []
    ensures WalletsUnique(ws[1..])
  {
    forall i, j | 0 <= i < j < |ws[1..]| ensures !Owns(ws[1..][j], ws[1..][i].user, ws[1..][i].symbol) {
      assert ws[1..][i] == ws[i + 1] && ws[1..][j] == ws[j + 1];
    }
  }

  /** All wallet amounts are positive. */
  ghost predicate AmountsPositive(ws: seq<Wallet>)
  {
    forall i :: 0 <= i < |ws| ==> ws[i].amount > 0.0
  }

  /** Buying a positive amount keeps every wallet positive, and selling
      keeps every wallet positive whatever the amount, because a wallet
      left at zero or below is deleted. */
  lemma AmountsStayPositive(ws: seq<Wallet>, uid: UserId, symbol: string, name: string,
                            amount: real, cost: real, price: real)
    requires AmountsPositive(ws)
    ensures amount > 0.0 ==> AmountsPositive(Credit(ws, uid, symbol, name, amount, cost, price))
    ensures AmountsPositive(Debit(ws, uid, symbol, amount))
  {
    CreditForm(ws, uid, symbol, name, amount, cost, price);
    DebitForm(ws, uid, symbol, amount);
    var i := FirstIndex(ws, uid, symbol);
    if i >= 0 && ws[i].amount - amount <= 0.0 {
      var r := ws[..i] + ws[i + 1..];
      forall k | 0 <= k < |r| ensures r[k].amount > 0.0 {
        assert r[k] == ws[if k < i then k else k + 1];
      }
    }
  }

  /** The weighted average: 1 unit at 100 and then 1 unit at 200 give one
      wallet of 2 units bought for 300 at an average of 150. */
  lemma WeightedAverageExample(uid: UserId, name: string)
    ensures Credit(Credit([], uid, "BTC", name, 1.0, 100.0, 100.0), uid, "BTC", name, 1.0, 200.0, 200.0)
      == [Wallet(uid, "BTC", name, 2.0, 300.0, Some(150.0))]
  {
    var w := Opened(uid, "BTC", name, 1.0, 100.0, 100.0);
    assert Credit([], uid, "BTC", name, 1.0, 100.0, 100.0) == [w];
    assert Quotient(300.0, 2.0) == Some(150.0);
  }

  /** Selling the whole of a position removes it: 2 units bought at 100,
      then 2 sold, leave no wallet. */
  lemma SellAllExample(uid: UserId, name: string)
    ensures Debit(Credit([], uid, "ETH", name, 2.0, 200.0, 100.0), uid, "ETH", 2.0) == []
  {
    assert Credit([], uid, "ETH", name, 2.0, 200.0, 100.0) == [Opened(uid, "ETH", name, 2.0, 200.0, 100.0)];
  }

  // ---------------------------------------------------------------------
  // Handlers

  /** The buy record the handler appends. */
  function BuyRecord(id: TxId, uid: UserId, symbol: string, amount: real, price: real,
                     paymentMethod: Option<string>, now: Date): CryptoTx
  {
    CryptoTx(id, uid, Buy, Some(symbol), amount, Some(price), Total(price, amount), paymentMethod, None, now)
  }

  /** The sell record the handler appends. */
  function SellRecord(id: TxId, uid: UserId, symbol: string, amount: real, price: real, now: Date): CryptoTx
  {
    CryptoTx(id, uid, Sell, Some(symbol), amount, Some(price), Total(price, amount), None, None, now)
  }

  /** POST /api/crypto/buy. A buy paid from the balance needs the user's
      record and a balance of at least `Total(price, amount)`. The user record
      is loaded for every buy but used only when paying from the balance, so
      with any other payment method a missing record does not fail the buy. */
  method BuyCrypto(db: Database, uid: UserId, symbol: string, amount: real,
                   paymentMethod: Option<string>, quote: Option<Quote>, now: Date)
    returns (r: Result<CryptoTx, Failure>)
    requires db.Valid()
    modifies db
    ensures db.Valid()
    ensures quote.None? ==> r == Err(ServerError)
    ensures quote.Some? && paymentMethod == Some("balance") && uid !in old(db.users) ==> r == Err(ServerError)
    ensures (quote.Some? && paymentMethod == Some("balance") && uid in old(db.users)
             && old(db.users[uid].accountBalance) < Total(quote.value.price, amount)) ==> r == Err(InsufficientFunds)
    ensures (quote.Some? && (paymentMethod != Some("balance")
             || (uid in old(db.users) && old(db.users[uid].accountBalance) >= Total(quote.value.price, amount)))) ==> r.Ok?
    ensures r.Err? ==> unchanged(db)
    ensures r.Ok? ==> quote.Some?
    ensures r.Ok? ==> r.value == BuyRecord(old(db.nextTxId), uid, ToUpper(symbol), amount, quote.value.price, paymentMethod, now)
    ensures r.Ok? ==> db.wallets == Credit(old(db.wallets), uid, ToUpper(symbol), quote.value.name,
                                           amount, Total(quote.value.price, amount), quote.value.price)
    ensures r.Ok? ==> db.transactions == old(db.transactions) + [r.value] && db.nextTxId == old(db.nextTxId) + 1
    ensures r.Ok? && paymentMethod == Some("balance") ==>
      && uid in old(db.users)
      && db.users == old(db.users)[uid := Adjusted(old(db.users[uid]), -(Total(quote.value.price, amount)))]
      && db.users[uid].accountBalance >= 0.0
    ensures r.Ok? && paymentMethod != Some("balance") ==> db.users == old(db.users)
  {
    if quote.None? {
      return Err(ServerError);
    }
    var price := quote.value.price;
    var totalCost := Total(quote.value.price, amount);
    var sym := ToUpper(symbol);
    var byBalance := paymentMethod == Some("balance");
    if byBalance {
      if uid !in db.users {
        return Err(ServerError);
      }
      if db.users[uid].accountBalance < totalCost {
        return Err(InsufficientFunds);
      }
    }
    ToUpperNormalizes(symbol);
    StoreCredit(db, uid, sym, quote.value.name, amount, totalCost, price);
    if byBalance {
      db.Adjust(uid, -totalCost);
    }
    var tx := BuyRecord(db.nextTxId, uid, sym, amount, price, paymentMethod, now);
    db.Append(tx);
    r := Ok(tx);
  }

  /** `wallet.save()` after a buy: the found wallet is topped up in place or
      a new one is added. */
  method StoreCredit(db: Database, uid: UserId, symbol: string, name: string,
                     amount: real, cost: real, price: real)
    requires db.Valid() && IsUpper(symbol)
    modifies db
    ensures db.Valid()
    ensures db.wallets == Credit(old(db.wallets), uid, symbol, name, amount, cost, price)
    ensures db.users == old(db.users) && db.transactions == old(db.transactions) && db.nextTxId == old(db.nextTxId)
  {
    var i := FindWallet(db.wallets, uid, symbol);
    CreditForm(db.wallets, uid, symbol, name, amount, cost, price);
    CreditKeepsUnique(db.wallets, uid, symbol, name, amount, cost, price);
    if i >= 0 {
      db.wallets := db.wallets[i := Topped(db.wallets[i], amount, cost)];
    } else {
      db.wallets := db.wallets + [Opened(uid, symbol, name, amount, cost, price)];
    }
  }

  /** `wallet.amount -= amount`, then the wallet is deleted when nothing
      positive is left and saved otherwise. */
  method StoreDebit(db: Database, i: int, uid: UserId, symbol: string, amount: real)
    requires db.Valid() && i == FirstIndex(db.wallets, uid, symbol) && i >= 0
    modifies db
    ensures db.Valid()
    ensures db.wallets == Debit(old(db.wallets), uid, symbol, amount)
    ensures db.users == old(db.users) && db.transactions == old(db.transactions) && db.nextTxId == old(db.nextTxId)
  {
    DebitForm(db.wallets, uid, symbol, amount);
    DebitKeepsUnique(db.wallets, uid, symbol, amount);
    var left := db.wallets[i].amount - amount;
    if left <= 0.0 {
      db.wallets := db.wallets[..i] + db.wallets[i + 1..];
    } else {
      db.wallets := db.wallets[i := db.wallets[i].(amount := left)];
    }
  }

  /** The sell guard: `!wallet || wallet.amount < amount` refuses. */
  predicate CanSell(ws: seq<Wallet>, uid: UserId, symbol: string, amount: real)
  {
    var w := WalletOf(ws, uid, symbol);
    w.Some? && w.value.amount >= amount
  }

  /** POST /api/crypto/sell. The holding check comes before the price
      lookup. The wallet is written before the user's record is read, so a
      sell by a user whose record is gone changes the wallet and then fails
      without crediting anything or logging a record. */
  method SellCrypto(db: Database, uid: UserId, symbol: string, amount: real,
                    quote: Option<Quote>, now: Date)
    returns (r: Result<CryptoTx, Failure>)
    requires db.Valid()
    modifies db
    ensures db.Valid()
    ensures !CanSell(old(db.wallets), uid, ToUpper(symbol), amount) ==> r == Err(InsufficientCrypto) && unchanged(db)
    ensures CanSell(old(db.wallets), uid, ToUpper(symbol), amount) && quote.None? ==> r == Err(ServerError) && unchanged(db)
    ensures CanSell(old(db.wallets), uid, ToUpper(symbol), amount) && quote.Some? ==>
      db.wallets == Debit(old(db.wallets), uid, ToUpper(symbol), amount)
    ensures CanSell(old(db.wallets), uid, ToUpper(symbol), amount) && quote.Some? && uid !in old(db.users) ==>
      && r == Err(ServerError)
      && db.users == old(db.users)
      && db.transactions == old(db.transactions)
      && db.nextTxId == old(db.nextTxId)
    ensures CanSell(old(db.wallets), uid, ToUpper(symbol), amount) && quote.Some? && uid in old(db.users) ==>
      && r == Ok(SellRecord(old(db.nextTxId), uid, ToUpper(symbol), amount, quote.value.price, now))
      && db.users == old(db.users)[uid := Adjusted(old(db.users[uid]), Total(quote.value.price, amount))]
      && db.transactions == old(db.transactions) + [r.value]
      && db.nextTxId == old(db.nextTxId) + 1
    ensures r.Ok? && old(db.users[uid].accountBalance) >= 0.0 && quote.value.price >= 0.0 && amount >= 0.0 ==>
      uid in db.users && db.users[uid].accountBalance >= 0.0
  {
    var sym := ToUpper(symbol);
    var i := FindWallet(db.wallets, uid, sym);
    if i < 0 || db.wallets[i].amount < amount {
      return Err(InsufficientCrypto);
    }
    if quote.None? {
      return Err(ServerError);
    }
    var price := quote.value.price;
    var totalValue := Total(quote.value.price, amount);
    StoreDebit(db, i, uid, sym, amount);
    if uid !in db.users {
      return Err(ServerError);
    }
    db.Adjust(uid, totalValue);
    var tx := SellRecord(db.nextTxId, uid, sym, amount, price, now);
    db.Append(tx);
    r := Ok(tx);
  }

  // ---------------------------------------------------------------------
  // Portfolio

  datatype PortfolioEntry = PortfolioEntry(
    coin: string, name: string, amount: real, currentPrice: real,
    value: real, purchaseValue: real, profit: real, profitPercentage: Option<real>)

  /** `((value - purchaseValue) / purchaseValue) * 100`, `None` where the
      source gets NaN or Infinity. */
  function Percentage(profit: real, base: real): Option<real>
  {
    match Quotient(profit, base)
    case Some(q) => Some(q * 100.0)
    case None => None
  }

  /** One wallet valued at a quoted price. */
  function Valuation(w: Wallet, q: Quote): PortfolioEntry
  {
    var value := Total(q.price, w.amount);
    PortfolioEntry(w.symbol, q.name, w.amount, q.price, value, w.purchaseValue,
                   value - w.purchaseValue, Percentage(value - w.purchaseValue, w.purchaseValue))
  }

  /** The `map` over the user's wallets; `None` when the response lacks one
      of their symbols (reading `quote` of undefined throws). */
  function Valuations(ws: seq<Wallet>, quotes: map<string, Quote>): (r: Option<seq<PortfolioEntry>>)
    ensures r.Some? <==> forall i :: 0 <= i < |ws| ==> ws[i].symbol in quotes
    ensures r.Some? ==> |r.value| == |ws|
    ensures r.Some? ==> forall i :: 0 <= i < |ws| ==> r.value[i] == Valuation(ws[i], quotes[ws[i].symbol])
  {
    if ws == [] then Some([])
    else if ws[0].symbol !in quotes then None
    else match Valuations(ws[1..], quotes)
      case None => None
      case Some(rest) => Some([Valuation(ws[0], quotes[ws[0].symbol])] + rest)
  }

  /** GET /api/crypto/portfolio. With no wallets the answer is the empty
      portfolio and no quotes are fetched; otherwise `quotes` is the
      market-data answer for all of the user's symbols (`None` when the
      request fails). */
  function GetUserPortfolio(wallets: seq<Wallet>, uid: UserId, quotes: Option<map<string, Quote>>)
    : (r: Result<seq<PortfolioEntry>, Failure>)
    ensures UserWallets(wallets, uid) == [] ==> r == Ok([])
    ensures UserWallets(wallets, uid) != [] && quotes.None? ==> r == Err(ServerError)
    ensures r.Err? ==> r == Err(ServerError)
  {
    var mine := UserWallets(wallets, uid);
    if mine == [] then Ok([])
    else if quotes.None? then Err(ServerError)
    else match Valuations(mine, quotes.value)
      case None => Err(ServerError)
      case Some(entries) => Ok(entries)
  }

  /** A successful portfolio has one entry per wallet of the user, in table
      order, valued at the quoted price with its profit over the purchase
      value, and a percentage exactly when the purchase value is not 0. */
  lemma PortfolioEntries(wallets: seq<Wallet>, uid: UserId, quotes: Option<map<string, Quote>>, i: nat)
    requires GetUserPortfolio(wallets, uid, quotes).Ok?
    requires i < |UserWallets(wallets, uid)|
    ensures |GetUserPortfolio(wallets, uid, quotes).value| == |UserWallets(wallets, uid)|
    ensures quotes.Some? && UserWallets(wallets, uid)[i].symbol in quotes.value
    ensures GetUserPortfolio(wallets, uid, quotes).value[i]
      == Valuation(UserWallets(wallets, uid)[i], quotes.value[UserWallets(wallets, uid)[i].symbol])
  {
    var mine := UserWallets(wallets, uid);
    assert mine != [];
    assert quotes.Some?;
    assert Valuations(mine, quotes.value).Some?;
  }

  /** A valuation shows the wallet's coin and amount at the quoted price,
      its profit over the purchase value, and a percentage exactly when the
      purchase value is not 0. */
  lemma ValuationMeaning(w: Wallet, q: Quote)
    ensures var e := Valuation(w, q);
      && e.coin == w.symbol && e.amount == w.amount && e.currentPrice == q.price
      && e.value == w.amount * q.price
      && e.profit == e.value - w.purchaseValue
      && (e.profitPercentage.Some? <==> w.purchaseValue != 0.0)
      && (w.purchaseValue != 0.0 ==> e.profitPercentage.value * w.purchaseValue == e.profit * 100.0)
  {
    var e := Valuation(w, q);
    if w.purchaseValue != 0.0 {
      var d := Quotient(e.profit, w.purchaseValue);
      assert d.value * w.purchaseValue == e.profit;
      assert e.profitPercentage.value == d.value * 100.0;
      assert (d.value * 100.0) * w.purchaseValue == (d.value * w.purchaseValue) * 100.0;
    }
  }

  /** A wallet valued at the price it was opened at shows no profit. */
  lemma OpenedAtPriceNoProfit(uid: UserId, symbol: string, name: string, amount: real, price: real)
    ensures Valuation(Opened(uid, symbol, name, amount, Total(price, amount), price), Quote(name, price)).profit == 0.0
  {
  }
}
