/** POST /api/users/wallet/addFunds: cash added to a route-ledger user's
    wallet. */
module UserRoutes {
  import opened Common
  import opened RouteStore

  /** The amount is checked before the user is looked up; the answer is the
      updated wallet, and nothing but its balance changes. */
  method AddFunds(ex: Exchange, uid: UserId, amount: Option<real>) returns (r: Result<CashWallet, RouteFailure>)
    requires ex.Valid()
    modifies ex
    ensures ex.Valid()
    ensures !ValidAmount(amount) ==> r == Err(InvalidAmount)
    ensures ValidAmount(amount) && uid !in old(ex.users) ==> r == Err(UserNotFound)
    ensures r.Err? ==> unchanged(ex)
    ensures r.Ok? <==> ValidAmount(amount) && uid in old(ex.users)
    ensures r.Ok? ==> r.value.balance == old(ex.users[uid].wallet.balance) + amount.value > old(ex.users[uid].wallet.balance)
    ensures r.Ok? ==> r.value.cryptoHoldings == old(ex.users[uid].wallet.cryptoHoldings)
    ensures r.Ok? ==> ex.users == old(ex.users)[uid := old(ex.users[uid]).(wallet := r.value)]
    ensures r.Ok? ==> ex.catalog == old(ex.catalog) && ex.trades == old(ex.trades) && ex.nextCryptoId == old(ex.nextCryptoId)
  {
    if !ValidAmount(amount) {
      return Err(InvalidAmount);
    }
    if uid !in ex.users {
      return Err(UserNotFound);
    }
    var user := ex.users[uid];
    var wallet := user.wallet.(balance := user.wallet.balance + amount.value);
    ex.users := ex.users[uid := user.(wallet := wallet)];
    r := Ok(wallet);
  }
}
