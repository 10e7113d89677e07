/** The transaction controller: cash deposits and withdrawals against the
    user's `accountBalance`, the lookup of one record, and the statistics
    over the log. The errors the route's rule chain produced reach the
    handlers as a parameter, as `validationResult(req)` does. */
module TransactionController {
  import opened Common
  import opened Validator
  import opened ControllerStore

  // ---------------------------------------------------------------------
  // Deposits and withdrawals

  /** The deposit record: no symbol and no price, `totalValue` is the amount. */
  function DepositRecord(id: TxId, uid: UserId, amount: real, paymentMethod: Option<string>, now: Date): CryptoTx
  {
    CryptoTx(id, uid, Deposit, None, amount, None, amount, paymentMethod, None, now)
  }

  /** The withdraw record: the withdraw method is stored as the payment
      method and the account details as details. */
  function WithdrawRecord(id: TxId, uid: UserId, amount: real, withdrawMethod: Option<string>,
                          accountDetails: Option<string>, now: Date): CryptoTx
  {
    CryptoTx(id, uid, Withdraw, None, amount, None, amount, withdrawMethod, accountDetails, now)
  }

  /** POST /api/transactions/deposit. A user record that is gone makes
      `user.accountBalance` throw. */
  method DepositFunds(db: Database, uid: UserId, amount: real, paymentMethod: Option<string>,
                      errors: seq<FieldError>, now: Date)
    returns (r: Result<CryptoTx, Failure>)
    requires db.Valid()
    modifies db
    ensures db.Valid()
    ensures errors != [] ==> r == Err(InvalidRequest(errors)) && unchanged(db)
    ensures errors == [] && uid !in old(db.users) ==> r == Err(ServerError) && unchanged(db)
    ensures errors == [] && uid in old(db.users) ==>
      && r == Ok(DepositRecord(old(db.nextTxId), uid, amount, paymentMethod, now))
      && db.users == old(db.users)[uid := Adjusted(old(db.users[uid]), amount)]
      && db.wallets == old(db.wallets)
      && db.transactions == old(db.transactions) + [r.value]
      && db.nextTxId == old(db.nextTxId) + 1
  {
    if errors != [] {
      return Err(InvalidRequest(errors));
    }
    if uid !in db.users {
      return Err(ServerError);
    }
    db.Adjust(uid, amount);
    var tx := DepositRecord(db.nextTxId, uid, amount, paymentMethod, now);
    db.Append(tx);
    r := Ok(tx);
  }

  /** POST /api/transactions/withdraw. A balance below the amount is
      refused before anything is written, so a withdrawal never leaves the
      balance negative. */
  method WithdrawFunds(db: Database, uid: UserId, amount: real, withdrawMethod: Option<string>,
                       accountDetails: Option<string>, errors: seq<FieldError>, now: Date)
    returns (r: Result<CryptoTx, Failure>)
    requires db.Valid()
    modifies db
    ensures db.Valid()
    ensures errors != [] ==> r == Err(InvalidRequest(errors)) && unchanged(db)
    ensures errors == [] && uid !in old(db.users) ==> r == Err(ServerError) && unchanged(db)
    ensures errors == [] && uid in old(db.users) && old(db.users[uid].accountBalance) < amount ==>
      r == Err(InsufficientFunds) && unchanged(db)
    ensures errors == [] && uid in old(db.users) && old(db.users[uid].accountBalance) >= amount ==>
      && r == Ok(WithdrawRecord(old(db.nextTxId), uid, amount, withdrawMethod, accountDetails, now))
      && db.users == old(db.users)[uid := Adjusted(old(db.users[uid]), -amount)]
      && db.users[uid].accountBalance >= 0.0
      && db.wallets == old(db.wallets)
      && db.transactions == old(db.transactions) + [r.value]
      && db.nextTxId == old(db.nextTxId) + 1
  {
    if errors != [] {
      return Err(InvalidRequest(errors));
    }
    if uid !in db.users {
      return Err(ServerError);
    }
    if db.users[uid].accountBalance < amount {
      return Err(InsufficientFunds);
    }
    db.Adjust(uid, -amount);
    var tx := WithdrawRecord(db.nextTxId, uid, amount, withdrawMethod, accountDetails, now);
    db.Append(tx);
    r := Ok(tx);
  }

  /** A deposit followed by a withdrawal of the same amount, both passing
      validation, succeed for a user with a non-negative balance and leave
      every user record as it was; only the two records remain. */
  method DepositThenWithdraw(db: Database, uid: UserId, amount: real, paymentMethod: Option<string>,
                             withdrawMethod: Option<string>, accountDetails: Option<string>, now: Date)
    returns (d: Result<CryptoTx, Failure>, w: Result<CryptoTx, Failure>)
    requires db.Valid()
    modifies db
    ensures db.Valid()
    ensures uid in old(db.users) && old(db.users[uid].accountBalance) >= 0.0 ==>
      && d.Ok? && w.Ok?
      && db.users == old(db.users)
      && db.wallets == old(db.wallets)
      && db.transactions == old(db.transactions) + [d.value, w.value]
  {
    d := DepositFunds(db, uid, amount, paymentMethod, [], now);
    w := WithdrawFunds(db, uid, amount, withdrawMethod, accountDetails, [], now);
    if uid in old(db.users) && old(db.users[uid].accountBalance) >= 0.0 {
      assert Adjusted(Adjusted(old(db.users[uid]), amount), -amount) == old(db.users[uid]);
      assert db.users == old(db.users);
    }
  }

  // ---------------------------------------------------------------------
  // One record

  /** `findById`: the first record carrying the id. */
  function RecordWithId(log: seq<CryptoTx>, id: TxId): (r: Option<CryptoTx>)
    ensures r.Some? ==> r.value in log && r.value.id == id
    ensures r.None? <==> forall t :: t in log ==> t.id != id
  {
    if log == [] then None
    else if log[0].id == id then Some(log[0])
    else RecordWithId(log[1..], id)
  }

  /** GET /api/transactions/:id: a missing id is reported before ownership
      is looked at. */
  function GetTransactionById(log: seq<CryptoTx>, uid: UserId, id: TxId): (r: Result<CryptoTx, Failure>)
    ensures r == Err(TransactionNotFound) <==> forall t :: t in log ==> t.id != id
    ensures r == Err(NotAuthorized) ==> exists t :: t in log && t.id == id && t.user != uid
    ensures r.Ok? ==> r.value in log && r.value.id == id && r.value.user == uid
    ensures r.Err? ==> r == Err(TransactionNotFound) || r == Err(NotAuthorized)
  {
    match RecordWithId(log, id)
    case None => Err(TransactionNotFound)
    case Some(t) => if t.user != uid then Err(NotAuthorized) else Ok(t)
  }

  /** Ids are unique in a log whose ids increase, so `findById` finds the
      very record. */
  lemma {:induction false} RecordWithIdFinds(log: seq<CryptoTx>, next: TxId, t: CryptoTx)
    requires IdsIncreasing(log, next) && t in log
    ensures RecordWithId(log, t.id) == Some(t)
  {
    if log[0] != t {
      TailIds(log, next);
      assert t in log[1..];
      RecordWithIdFinds(log[1..], next, t);
    }
  }

  /** Every record of the log is returned unchanged to its owner and refused
      to anyone else. */
  lemma RecordAccess(log: seq<CryptoTx>, next: TxId, uid: UserId, t: CryptoTx)
    requires IdsIncreasing(log, next) && t in log
    ensures GetTransactionById(log, uid, t.id) == if t.user == uid then Ok(t) else Err(NotAuthorized)
  {
    RecordWithIdFinds(log, next, t);
  }

  // ---------------------------------------------------------------------
  // Totals per type

  /** `$match: { user, type }`. */
  function Matching(log: seq<CryptoTx>, uid: UserId, kind: TxType): (r: seq<CryptoTx>)
    ensures forall t :: t in r <==> t in log && t.user == uid && t.kind == kind
  {
    if log == [] then []
    else (if log[0].user == uid && log[0].kind == kind then [log[0]] else []) + Matching(log[1..], uid, kind)
  }

  /** `$sum: '$totalValue'`. */
  function SumValues(rs: seq<CryptoTx>): real
  {
    if rs == [] then 0.0 else rs[0].totalValue + SumValues(rs[1..])
  }

  /** `$group` with `_id: null`: one group for a non-empty match, none for an
      empty one. */
  function Grouped(rs: seq<CryptoTx>): (g: seq<real>)
    ensures |g| <= 1
    ensures g == [] <==> rs == []
  {
    if rs == [] then [] else [SumValues(rs)]
  }

  /** `g.length > 0 ? g[0].total : 0`. */
  function TotalOrZero(g: seq<real>): real
  {
    if |g| > 0 then g[0] else 0.0
  }

  /** One of the four totals as the handler computes it. */
  function StatTotal(log: seq<CryptoTx>, uid: UserId, kind: TxType): real
  {
    TotalOrZero(Grouped(Matching(log, uid, kind)))
  }

  /** The sum of `totalValue` over the user's records of the type, built up
      record by record as the log grows. */
  function TotalOf(log: seq<CryptoTx>, uid: UserId, kind: TxType): real
  {
    if log == [] then 0.0
    else
      var last := log[|log| - 1];
      TotalOf(log[..|log| - 1], uid, kind) + (if last.user == uid && last.kind == kind then last.totalValue else 0.0)
  }

  lemma {:induction false} MatchingAppend(log: seq<CryptoTx>, t: CryptoTx, uid: UserId, kind: TxType)
    ensures Matching(log + [t], uid, kind)
      == Matching(log, uid, kind) + (if t.user == uid && t.kind == kind then [t] else [])
  {
    if log != [] {
      assert (log + [t])[1..] == log[1..] + [t];
      MatchingAppend(log[1..], t, uid, kind);
    }
  }

  lemma {:induction false} SumAppend(rs: seq<CryptoTx>, more: seq<CryptoTx>)
    ensures SumValues(rs + more) == SumValues(rs) + SumValues(more)
  {
    if rs != [] {
      assert (rs + more)[0] == rs[0];
      assert (rs + more)[1..] == rs[1..] + more;
      SumAppend(rs[1..], more);
    } else {
      assert rs + more == more;
    }
  }

  /** Each total is the sum of `totalValue` over the user's records of that
      type, and 0 when there is none. */
  lemma {:induction false} StatTotalIsSum(log: seq<CryptoTx>, uid: UserId, kind: TxType)
    ensures StatTotal(log, uid, kind) == TotalOf(log, uid, kind)
    ensures (forall t :: t in log ==> t.user != uid || t.kind != kind) ==> StatTotal(log, uid, kind) == 0.0
  {
    if log != [] {
      var init := log[..|log| - 1];
      var last := log[|log| - 1];
      assert log == init + [last];
      StatTotalIsSum(init, uid, kind);
      MatchingAppend(init, last, uid, kind);
      var m := Matching(init, uid, kind);
      SumAppend(m, if last.user == uid && last.kind == kind then [last] else []);
      assert SumValues([last]) == last.totalValue;
    }
  }

  /** A deposit adds its amount to the user's total deposits. */
  lemma DepositAddsToTotal(log: seq<CryptoTx>, id: TxId, uid: UserId, amount: real,
                           paymentMethod: Option<string>, now: Date)
    ensures StatTotal(log + [DepositRecord(id, uid, amount, paymentMethod, now)], uid, Deposit)
      == StatTotal(log, uid, Deposit) + amount
  {
    var tx := DepositRecord(id, uid, amount, paymentMethod, now);
    StatTotalIsSum(log, uid, Deposit);
    StatTotalIsSum(log + [tx], uid, Deposit);
    assert (log + [tx])[..|log + [tx]| - 1] == log;
  }

  // ---------------------------------------------------------------------
  // Monthly groups

  /** One `$group` by `{ year, month }` of the date. */
  datatype MonthGroup = MonthGroup(year: int, month: int, count: nat, value: real)

  /** The `$sort` order: by year, then by month. */
  predicate Earlier(y1: int, m1: int, y2: int, m2: int)
  {
    y1 < y2 || (y1 == y2 && m1 < m2)
  }

  predicate InMonth(t: CryptoTx, y: int, m: int)
  {
    t.date.year == y && t.date.month == m
  }

  /** The groups are sorted strictly by (year, month): one group per month. */
  ghost predicate Ascending(gs: seq<MonthGroup>)
  {
    forall i, j :: 0 <= i < j < |gs| ==> Earlier(gs[i].year, gs[i].month, gs[j].year, gs[j].month)
  }

  ghost predicate NoEmptyGroup(gs: seq<MonthGroup>)
  {
    forall i :: 0 <= i < |gs| ==> gs[i].count > 0
  }

  /** Counting one record into its month's group, opening the group in its
      sorted place when the month is new. */
  function AddTo(gs: seq<MonthGroup>, t: CryptoTx): seq<MonthGroup>
  {
    if gs == [] then [MonthGroup(t.date.year, t.date.month, 1, t.totalValue)]
    else if gs[0].year == t.date.year && gs[0].month == t.date.month then
      [gs[0].(count := gs[0].count + 1, value := gs[0].value + t.totalValue)] + gs[1..]
    else if Earlier(t.date.year, t.date.month, gs[0].year, gs[0].month) then
      [MonthGroup(t.date.year, t.date.month, 1, t.totalValue)] + gs
    else [gs[0]] + AddTo(gs[1..], t)
  }

  function GroupByMonth(rs: seq<CryptoTx>): seq<MonthGroup>
  {
    if rs == [] then [] else AddTo(GroupByMonth(rs[1..]), rs[0])
  }

  /** `$match: { user }`. */
  function OwnRecords(log: seq<CryptoTx>, uid: UserId): (r: seq<CryptoTx>)
    ensures forall t :: t in r <==> t in log && t.user == uid
  {
    if log == [] then []
    else (if log[0].user == uid then [log[0]] else []) + OwnRecords(log[1..], uid)
  }

  /** `monthlyTransactions`: the user's records grouped by month and sorted. */
  function Monthly(log: seq<CryptoTx>, uid: UserId): seq<MonthGroup>
  {
    GroupByMonth(OwnRecords(log, uid))
  }

  /** The count and value the groups show for a month, 0 when it has no group. */
  function CountAt(gs: seq<MonthGroup>, y: int, m: int): nat
  {
    if gs == [] then 0
    else if gs[0].year == y && gs[0].month == m then gs[0].count
    else CountAt(gs[1..], y, m)
  }

  function ValueAt(gs: seq<MonthGroup>, y: int, m: int): real
  {
    if gs == [] then 0.0
    else if gs[0].year == y && gs[0].month == m then gs[0].value
    else ValueAt(gs[1..], y, m)
  }

  /** The reference: how many of the user's records fall in the month, and
      their summed `totalValue`. */
  function MonthCount(log: seq<CryptoTx>, uid: UserId, y: int, m: int): nat
  {
    if log == [] then 0
    else (if log[0].user == uid && InMonth(log[0], y, m) then 1 else 0) + MonthCount(log[1..], uid, y, m)
  }

  function MonthValue(log: seq<CryptoTx>, uid: UserId, y: int, m: int): real
  {
    if log == [] then 0.0
    else
      var here := if log[0].user == uid && InMonth(log[0], y, m) then log[0].totalValue else 0.0;
      here + MonthValue(log[1..], uid, y, m)
  }

  /** A month earlier than every group and than the record stays earlier
      than every group once the record is counted. */
  lemma {:induction false} AddToBounded(gs: seq<MonthGroup>, t: CryptoTx, y: int, m: int)
    requires forall i :: 0 <= i < |gs| ==> Earlier(y, m, gs[i].year, gs[i].month)
    requires Earlier(y, m, t.date.year, t.date.month)
    ensures forall i :: 0 <= i < |AddTo(gs, t)| ==> Earlier(y, m, AddTo(gs, t)[i].year, AddTo(gs, t)[i].month)
  {
    if gs != [] && !(gs[0].year == t.date.year && gs[0].month == t.date.month)
       && !Earlier(t.date.year, t.date.month, gs[0].year, gs[0].month) {
      AddToBounded(gs[1..], t, y, m);
      var r := AddTo(gs[1..], t);
      assert forall i :: 0 < i < |[gs[0]] + r| ==> ([gs[0]] + r)[i] == r[i - 1];
    }
  }

  /** Counting a record keeps the groups sorted and none of them empty. */
  lemma {:induction false} AddToKeepsOrder(gs: seq<MonthGroup>, t: CryptoTx)
    requires Ascending(gs) && NoEmptyGroup(gs)
    ensures Ascending(AddTo(gs, t)) && NoEmptyGroup(AddTo(gs, t))
  {
    if gs == [] {
    } else if gs[0].year == t.date.year && gs[0].month == t.date.month {
      var r := AddTo(gs, t);
      assert forall i :: 0 < i < |r| ==> r[i] == gs[i];
    } else if Earlier(t.date.year, t.date.month, gs[0].year, gs[0].month) {
      var r := AddTo(gs, t);
      assert forall i :: 0 < i < |r| ==> r[i] == gs[i - 1];
    } else {
      var tl := gs[1..];
      assert Ascending(tl) && NoEmptyGroup(tl) by {
        assert forall i :: 0 <= i < |tl| ==> tl[i] == gs[i + 1];
      }
      AddToKeepsOrder(tl, t);
      forall i | 0 <= i < |tl| ensures Earlier(gs[0].year, gs[0].month, tl[i].year, tl[i].month) {
        assert tl[i] == gs[i + 1];
      }
      AddToBounded(tl, t, gs[0].year, gs[0].month);
      var r := AddTo(tl, t);
      assert forall i :: 0 < i < |[gs[0]] + r| ==> ([gs[0]] + r)[i] == r[i - 1];
    }
  }

  /** Counting a record adds one and its value to its own month and leaves
      every other month as it was. */
  lemma {:induction false} AddToCounts(gs: seq<MonthGroup>, t: CryptoTx, y: int, m: int)
    requires Ascending(gs)
    ensures CountAt(AddTo(gs, t), y, m) == CountAt(gs, y, m) + (if InMonth(t, y, m) then 1 else 0)
    ensures ValueAt(AddTo(gs, t), y, m) == ValueAt(gs, y, m) + (if InMonth(t, y, m) then t.totalValue else 0.0)
  {
    if gs == [] {
    } else if gs[0].year == t.date.year && gs[0].month == t.date.month {
      assert ([gs[0].(count := gs[0].count + 1, value := gs[0].value + t.totalValue)] + gs[1..])[1..] == gs[1..];
    } else if Earlier(t.date.year, t.date.month, gs[0].year, gs[0].month) {
      var g := MonthGroup(t.date.year, t.date.month, 1, t.totalValue);
      assert ([g] + gs)[1..] == gs;
      if InMonth(t, y, m) {
        MonthAbsent(gs, y, m);
      }
    } else {
      var tl := gs[1..];
      assert Ascending(tl) by {
        assert forall i :: 0 <= i < |tl| ==> tl[i] == gs[i + 1];
      }
      AddToCounts(tl, t, y, m);
      assert ([gs[0]] + AddTo(tl, t))[1..] == AddTo(tl, t);
    }
  }

  /** A month earlier than the first of sorted groups has no group. */
  lemma {:induction false} MonthAbsent(gs: seq<MonthGroup>, y: int, m: int)
    requires Ascending(gs) && gs != [] && Earlier(y, m, gs[0].year, gs[0].month)
    ensures CountAt(gs, y, m) == 0 && ValueAt(gs, y, m) == 0.0
  {
    var tl := gs[1..];
    if tl != [] {
      assert tl[0] == gs[1];
      assert Ascending(tl) by {
        assert forall i :: 0 <= i < |tl| ==> tl[i] == gs[i + 1];
      }
      MonthAbsent(tl, y, m);
    }
  }

  lemma {:induction false} GroupByMonthCounts(log: seq<CryptoTx>, uid: UserId, y: int, m: int)
    ensures Ascending(Monthly(log, uid)) && NoEmptyGroup(Monthly(log, uid))
    ensures CountAt(Monthly(log, uid), y, m) == MonthCount(log, uid, y, m)
    ensures ValueAt(Monthly(log, uid), y, m) == MonthValue(log, uid, y, m)
  {
    if log != [] {
      GroupByMonthCounts(log[1..], uid, y, m);
      if log[0].user == uid {
        var rest := OwnRecords(log[1..], uid);
        assert OwnRecords(log, uid) == [log[0]] + rest;
        assert ([log[0]] + rest)[1..] == rest;
        AddToKeepsOrder(GroupByMonth(rest), log[0]);
        AddToCounts(GroupByMonth(rest), log[0], y, m);
      } else {
        assert OwnRecords(log, uid) == [] + OwnRecords(log[1..], uid);
        assert [] + OwnRecords(log[1..], uid) == OwnRecords(log[1..], uid);
      }
    }
  }

  /** With no empty group and one group per month, a month has a group
      exactly when its count is positive. */
  lemma {:induction false} CountAtPresent(gs: seq<MonthGroup>, y: int, m: int)
    requires NoEmptyGroup(gs)
    ensures CountAt(gs, y, m) > 0 <==> exists i :: 0 <= i < |gs| && gs[i].year == y && gs[i].month == m
  {
    if gs != [] {
      assert NoEmptyGroup(gs[1..]) by {
        assert forall i :: 0 <= i < |gs[1..]| ==> gs[1..][i] == gs[i + 1];
      }
      CountAtPresent(gs[1..], y, m);
      if exists i :: 0 <= i < |gs| && gs[i].year == y && gs[i].month == m {
        var i :| 0 <= i < |gs| && gs[i].year == y && gs[i].month == m;
        if i > 0 {
          assert gs[1..][i - 1] == gs[i];
        }
      }
      if exists i :: 0 <= i < |gs[1..]| && gs[1..][i].year == y && gs[1..][i].month == m {
        var i :| 0 <= i < |gs[1..]| && gs[1..][i].year == y && gs[1..][i].month == m;
        assert gs[i + 1] == gs[1..][i];
      }
    }
  }

  /** The monthly groups are sorted ascending by year and then month, one
      per month in which the user has records, each with the number of those
      records and the sum of their `totalValue`. */
  lemma MonthlyGroups(log: seq<CryptoTx>, uid: UserId, y: int, m: int)
    ensures Ascending(Monthly(log, uid))
    ensures NoEmptyGroup(Monthly(log, uid))
    ensures CountAt(Monthly(log, uid), y, m) == MonthCount(log, uid, y, m)
    ensures ValueAt(Monthly(log, uid), y, m) == MonthValue(log, uid, y, m)
    ensures (exists i :: 0 <= i < |Monthly(log, uid)| && Monthly(log, uid)[i].year == y && Monthly(log, uid)[i].month == m)
      <==> MonthCount(log, uid, y, m) > 0
  {
    GroupByMonthCounts(log, uid, y, m);
    CountAtPresent(Monthly(log, uid), y, m);
  }

  /** GET /api/transactions/stats. */
  datatype Stats = Stats(totalDeposits: real, totalWithdrawals: real, totalPurchases: real,
                         totalSales: real, monthlyTransactions: seq<MonthGroup>)

  function TransactionStats(log: seq<CryptoTx>, uid: UserId): (s: Stats)
    ensures s.totalDeposits == TotalOf(log, uid, Deposit)
    ensures s.totalWithdrawals == TotalOf(log, uid, Withdraw)
    ensures s.totalPurchases == TotalOf(log, uid, Buy)
    ensures s.totalSales == TotalOf(log, uid, Sell)
    ensures Ascending(s.monthlyTransactions) && NoEmptyGroup(s.monthlyTransactions)
  {
    StatTotalIsSum(log, uid, Deposit);
    StatTotalIsSum(log, uid, Withdraw);
    StatTotalIsSum(log, uid, Buy);
    StatTotalIsSum(log, uid, Sell);
    GroupByMonthCounts(log, uid, 0, 0);
    Stats(StatTotal(log, uid, Deposit), StatTotal(log, uid, Withdraw),
          StatTotal(log, uid, Buy), StatTotal(log, uid, Sell), Monthly(log, uid))
  }
}
