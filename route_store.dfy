/** The collections behind the route handlers: users carrying a cash
    wallet with an array of crypto holdings, the catalog of
    cryptocurrencies with their price and available supply, and the log of
    trades. This ledger shares nothing with the controllers' one. */
module RouteStore {
  import opened Common

  type CryptoId = nat

  /** One entry of `wallet.cryptoHoldings`. */
  datatype Holding = Holding(cryptoId: CryptoId, amount: real)

  datatype CashWallet = CashWallet(balance: real, cryptoHoldings: seq<Holding>)

  /** A user document of the route ledger (the password is left out). */
  datatype Trader = Trader(username: string, email: string, isAdmin: bool, wallet: CashWallet)

  /** A Cryptocurrency document. */
  datatype Cryptocurrency = Cryptocurrency(
    name: string, symbol: string, currentPrice: real, availableSupply: real,
    description: Option<string>, imageUrl: Option<string>, lastUpdated: Date)

  datatype Side = Buy | Sell

  /** A Transaction document; `timestamp` is the clock reading at creation. */
  datatype Trade = Trade(userId: UserId, cryptoId: CryptoId, side: Side, amount: real, price: real, timestamp: Date)

  /** What a route answers instead of its result. */
  datatype RouteFailure =
    | InvalidAmount           // 400 'Invalid amount'
    | UserNotFound            // 404 'User not found'
    | CryptoNotFound          // 404 'Cryptocurrency not found'
    | InsufficientBalance     // 400 'Insufficient balance'
    | InsufficientSupply      // 400 'Insufficient cryptocurrency supply'
    | InsufficientHoldings    // 400 'Insufficient cryptocurrency balance'

  /** The schema default of a new user's balance. */
  const StartingBalance: real := 1000.0

  /** A user as the schema defaults create one: 1000 in cash, no holdings,
      no admin rights. */
  function NewTrader(username: string, email: string): (t: Trader)
    ensures t.wallet.balance == StartingBalance && t.wallet.cryptoHoldings == [] && !t.isAdmin
  {
    Trader(username, email, false, CashWallet(StartingBalance, []))
  }

  /** At most one holding per cryptocurrency. */
  ghost predicate HoldingsDistinct(hs: seq<Holding>)
  {
    forall i, j :: 0 <= i < j < |hs| ==> hs[i].cryptoId != hs[j].cryptoId
  }

  /** No holding is empty or negative: buys add positive amounts, a sell
      never takes more than is held, and a holding sold down to 0 is removed. */
  ghost predicate HoldingsPositive(hs: seq<Holding>)
  {
    forall i :: 0 <= i < |hs| ==> hs[i].amount > 0.0
  }

  ghost predicate WalletValid(w: CashWallet)
  {
    HoldingsDistinct(w.cryptoHoldings) && HoldingsPositive(w.cryptoHoldings)
  }

  class Exchange {
    var users: map<UserId, Trader>
    var catalog: map<CryptoId, Cryptocurrency>
    var trades: seq<Trade>
    var nextCryptoId: CryptoId

    ghost predicate Valid()
      reads this
    {
      && (forall u :: u in users ==> WalletValid(users[u].wallet))
      && (forall c :: c in catalog ==> c < nextCryptoId)
    }

    /** An exchange with the given users, an empty catalog and no trades. */
    constructor (registered: map<UserId, Trader>)
      requires forall u :: u in registered ==> WalletValid(registered[u].wallet)
      ensures Valid()
      ensures users == registered && catalog == map[] && trades == [] && nextCryptoId == 0
    {
      users := registered;
      catalog := map[];
      trades := [];
      nextCryptoId := 0;
    }

    /** Saves a user with a new wallet. */
    method SetWallet(uid: UserId, w: CashWallet)
      requires Valid() && uid in users && WalletValid(w)
      modifies this
      ensures Valid()
      ensures users == old(users)[uid := old(users[uid]).(wallet := w)]
      ensures catalog == old(catalog) && trades == old(trades) && nextCryptoId == old(nextCryptoId)
    {
      users := users[uid := users[uid].(wallet := w)];
    }

    /** Saves a cryptocurrency record under an id already in the catalog. */
    method SetCrypto(id: CryptoId, c: Cryptocurrency)
      requires Valid() && id in catalog
      modifies this
      ensures Valid()
      ensures catalog == old(catalog)[id := c]
      ensures users == old(users) && trades == old(trades) && nextCryptoId == old(nextCryptoId)
    {
      catalog := catalog[id := c];
    }

    /** Saves one more transaction. */
    method Record(t: Trade)
      requires Valid()
      modifies this
      ensures Valid()
      ensures trades == old(trades) + [t]
      ensures users == old(users) && catalog == old(catalog) && nextCryptoId == old(nextCryptoId)
    {
      trades := trades + [t];
    }
  }

  /** A freshly defaulted user has a valid wallet. */
  lemma NewTraderValid(username: string, email: string)
    ensures WalletValid(NewTrader(username, email).wallet)
  {
  }

  /** `if (!amount || amount <= 0)` refuses: absent, 0 or negative. */
  predicate ValidAmount(amount: Option<real>)
  {
    amount.Some? && amount.value > 0.0
  }
}
