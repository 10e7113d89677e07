/** The collections behind the controllers: the users with their
    `accountBalance`, the UserWallet table keyed by (user, upper-cased
    symbol), and the append-only CryptoTransaction log. The database is
    one object whose collections the handlers replace in place. */
module ControllerStore {
  import opened Common
  import opened Validator

  datatype Settings = Settings(
    emailNotifications: Option<bool>, twoFactorAuth: Option<bool>, defaultCurrency: Option<string>)

  /** A user document as the controllers see it (the password is never
      selected by them). */
  datatype Account = Account(
    name: string, email: string,
    phone: Option<string>, address: Option<string>, country: Option<string>,
    accountBalance: real, settings: Settings)

  /** A UserWallet document. `averagePrice` is `None` where the source
      divides by a zero total amount. */
  datatype Wallet = Wallet(
    user: UserId, symbol: string, name: string,
    amount: real, purchaseValue: real, averagePrice: Option<real>)

  datatype TxType = Buy | Sell | Deposit | Withdraw

  type TxId = nat

  /** A CryptoTransaction document; `date` is the clock reading at creation. */
  datatype CryptoTx = CryptoTx(
    id: TxId, user: UserId, kind: TxType,
    symbol: Option<string>, amount: real, price: Option<real>, totalValue: real,
    paymentMethod: Option<string>, details: Option<string>, date: Date)

  /** What a controller answers instead of its result. */
  datatype Failure =
    | InvalidRequest(errors: seq<FieldError>)  // 400 with the validation errors
    | InsufficientFunds                        // 400 'Insufficient funds'
    | InsufficientCrypto                       // 400 'Insufficient crypto balance'
    | TransactionNotFound                      // 404
    | NotAuthorized                            // 401 'User not authorized'
    | EmailInUse                               // 400 'Email already in use'
    | ActiveWallets                            // 400 'Cannot delete account with active crypto wallets...'
    | ServerError                              // 500, an exception in the handler

  /** `user.accountBalance += delta`, saved back. */
  function Adjusted(a: Account, delta: real): Account
  {
    a.(accountBalance := a.accountBalance + delta)
  }

  /** The key a wallet is looked up by. */
  predicate Owns(w: Wallet, uid: UserId, symbol: string)
  {
    w.user == uid && w.symbol == symbol
  }

  /** At most one wallet per (user, symbol). */
  ghost predicate WalletsUnique(ws: seq<Wallet>)
  {
    forall i, j :: 0 <= i < j < |ws| ==> !Owns(ws[j], ws[i].user, ws[i].symbol)
  }

  ghost predicate SymbolsUpper(ws: seq<Wallet>)
  {
    forall i :: 0 <= i < |ws| ==> IsUpper(ws[i].symbol)
  }

  /** Records are appended with ever larger ids, all below the next one. */
  ghost predicate IdsIncreasing(log: seq<CryptoTx>, next: TxId)
  {
    && (forall i, j :: 0 <= i < j < |log| ==> log[i].id < log[j].id)
    && (forall i :: 0 <= i < |log| ==> log[i].id < next)
  }

  ghost predicate EmailsUnique(users: map<UserId, Account>)
  {
    forall u, v :: u in users && v in users && u != v ==> users[u].email != users[v].email
  }

  /** `UserWallet.find({ user })`: that user's wallets in table order. */
  function UserWallets(ws: seq<Wallet>, uid: UserId): (r: seq<Wallet>)
    ensures |r| <= |ws|
    ensures forall w :: w in r <==> w in ws && w.user == uid
  {
    if ws == [] then []
    else (if ws[0].user == uid then [ws[0]] else []) + UserWallets(ws[1..], uid)
  }

  /** The find returns each of the user's wallets as often as the table
      holds it, and nothing else. */
  lemma {:induction false} UserWalletsCount(ws: seq<Wallet>, uid: UserId)
    ensures forall w :: multiset(UserWallets(ws, uid))[w] == if w.user == uid then multiset(ws)[w] else 0
  {
    if ws != [] {
      var h := if ws[0].user == uid then [ws[0]] else [];
      var t := UserWallets(ws[1..], uid);
      UserWalletsCount(ws[1..], uid);
      assert ws == [ws[0]] + ws[1..];
      assert multiset(ws) == multiset([ws[0]]) + multiset(ws[1..]);
      assert UserWallets(ws, uid) == h + t;
      assert multiset(h + t) == multiset(h) + multiset(t);
    }
  }

  /** The find keeps table order: a wallet added at the end of the table
      comes last in its user's wallets, and in no one else's. */
  lemma {:induction false} UserWalletsAppend(ws: seq<Wallet>, w: Wallet, uid: UserId)
    ensures UserWallets(ws + [w], uid) == UserWallets(ws, uid) + (if w.user == uid then [w] else [])
  {
    if ws == [] {
      assert [] + [w] == [w];
    } else {
      var t := ws[1..];
      UserWalletsAppend(t, w, uid);
      UserWalletsCons(ws[0], t + [w], uid);
      UserWalletsCons(ws[0], t, uid);
      assert ws + [w] == [ws[0]] + (t + [w]);
      assert ws == [ws[0]] + t;
      SeqAssoc(if ws[0].user == uid then [ws[0]] else [], UserWallets(t, uid), if w.user == uid then [w] else []);
    }
  }

  lemma SeqAssoc<T>(a: seq<T>, b: seq<T>, c: seq<T>)
    ensures a + (b + c) == (a + b) + c
  {
  }

  /** One unfolding of the find. */
  lemma UserWalletsCons(x: Wallet, t: seq<Wallet>, uid: UserId)
    ensures UserWallets([x] + t, uid) == (if x.user == uid then [x] else []) + UserWallets(t, uid)
  {
    assert ([x] + t)[1..] == t;
  }


  /** `deleteMany({ user })` on the wallet table: every other user's wallets, in order. */
  function OtherWallets(ws: seq<Wallet>, uid: UserId): (r: seq<Wallet>)
    ensures forall w :: w in r <==> w in ws && w.user != uid
  {
    if ws == [] then []
    else (if ws[0].user != uid then [ws[0]] else []) + OtherWallets(ws[1..], uid)
  }

  /** `deleteMany({ user })` on the log: every other user's records, in order. */
  function OtherTransactions(log: seq<CryptoTx>, uid: UserId): (r: seq<CryptoTx>)
    ensures forall t :: t in r <==> t in log && t.user != uid
  {
    if log == [] then []
    else (if log[0].user != uid then [log[0]] else []) + OtherTransactions(log[1..], uid)
  }

  /** A user without wallets leaves the wallet table as it is when their
      wallets are deleted: the source's second deleteMany has nothing to do. */
  lemma {:induction false} OtherWalletsOfWalletless(ws: seq<Wallet>, uid: UserId)
    requires UserWallets(ws, uid) == []
    ensures OtherWallets(ws, uid) == ws
  {
    if ws != [] {
      assert ws[0] in ws;
      assert ws[0].user != uid;
      OtherWalletsOfWalletless(ws[1..], uid);
      assert ws == [ws[0]] + ws[1..];
    }
  }

  /** Deleting one user's records keeps the rest in their order, so the
      ids stay increasing. */
  lemma {:induction false} OtherTransactionsKeepIds(log: seq<CryptoTx>, uid: UserId, next: TxId)
    requires IdsIncreasing(log, next)
    ensures IdsIncreasing(OtherTransactions(log, uid), next)
  {
    if log != [] {
      TailIds(log, next);
      OtherTransactionsKeepIds(log[1..], uid, next);
      if log[0].user != uid {
        ConsIds(log[0], OtherTransactions(log[1..], uid), next);
      }
    }
  }

  lemma TailIds(log: seq<CryptoTx>, next: TxId)
    requires IdsIncreasing(log, next) && log != []
    ensures IdsIncreasing(log[1..], next)
    ensures forall t :: t in log[1..] ==> log[0].id < t.id
  {
    forall t | t in log[1..] ensures log[0].id < t.id {
      var k :| 0 <= k < |log[1..]| && log[1..][k] == t;
      assert log[k + 1] == t;
    }
  }

  lemma ConsIds(t: CryptoTx, rest: seq<CryptoTx>, next: TxId)
    requires IdsIncreasing(rest, next) && t.id < next
    requires forall u :: u in rest ==> t.id < u.id
    ensures IdsIncreasing([t] + rest, next)
  {
    var r := [t] + rest;
    forall i, j | 0 <= i < j < |r| ensures r[i].id < r[j].id {
      assert r[j] == rest[j - 1];
      if i > 0 { assert r[i] == rest[i - 1]; } else { assert rest[j - 1] in rest; }
    }
  }

  class Database {
    var users: map<UserId, Account>
    var wallets: seq<Wallet>
    var transactions: seq<CryptoTx>
    var nextTxId: TxId

    ghost predicate Valid()
      reads this
    {
      && WalletsUnique(wallets)
      && SymbolsUpper(wallets)
      && IdsIncreasing(transactions, nextTxId)
      && EmailsUnique(users)
    }

    /** A database holding the registered users, no wallets and no records. */
    constructor (registered: map<UserId, Account>)
      requires EmailsUnique(registered)
      ensures Valid()
      ensures users == registered && wallets == [] && transactions == [] && nextTxId == 0
    {
      users := registered;
      wallets := [];
      transactions := [];
      nextTxId := 0;
    }

    /** `user.accountBalance += delta; await user.save()`. */
    method Adjust(uid: UserId, delta: real)
      requires Valid() && uid in users
      modifies this
      ensures Valid()
      ensures users == old(users)[uid := Adjusted(old(users[uid]), delta)]
      ensures wallets == old(wallets) && transactions == old(transactions) && nextTxId == old(nextTxId)
    {
      SameEmailKeepsUnique(users, uid, Adjusted(users[uid], delta));
      users := users[uid := Adjusted(users[uid], delta)];
    }

    /** `await transaction.save()` of a record made under the next id. */
    method Append(tx: CryptoTx)
      requires Valid() && tx.id == nextTxId
      modifies this
      ensures Valid()
      ensures transactions == old(transactions) + [tx] && nextTxId == old(nextTxId) + 1
      ensures users == old(users) && wallets == old(wallets)
    {
      AppendKeepsIds(transactions, nextTxId, tx);
      transactions := transactions + [tx];
      nextTxId := nextTxId + 1;
    }
  }

  /** Appending a record with the next id keeps the ids increasing. */
  lemma AppendKeepsIds(log: seq<CryptoTx>, next: TxId, tx: CryptoTx)
    requires IdsIncreasing(log, next) && tx.id == next
    ensures IdsIncreasing(log + [tx], next + 1)
  {
  }

  /** Changing a user's balance or settings, but not their email, keeps
      emails unique. */
  lemma SameEmailKeepsUnique(users: map<UserId, Account>, uid: UserId, a: Account)
    requires EmailsUnique(users) && uid in users && a.email == users[uid].email
    ensures EmailsUnique(users[uid := a])
  {
  }
}
