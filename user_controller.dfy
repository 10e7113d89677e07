/** The user controller: the profile and settings merges, the account
    summary and the guarded deletion of an account, over the same database
    as the crypto and transaction controllers. */
module UserController {
  import opened Common
  import opened Validator
  import opened ControllerStore

  // ---------------------------------------------------------------------
  // Profile

  /** The body of PUT /api/users/profile; an absent field is `None`. */
  datatype ProfileRequest = ProfileRequest(
    name: Option<string>, email: Option<string>,
    phone: Option<string>, address: Option<string>, country: Option<string>)

  /** `$set: profileFields`: each field only when the request's value is truthy. */
  function MergeProfile(a: Account, p: ProfileRequest): Account
  {
    a.(name := if Truthy(p.name) then p.name.value else a.name,
       email := if Truthy(p.email) then p.email.value else a.email,
       phone := if Truthy(p.phone) then p.phone else a.phone,
       address := if Truthy(p.address) then p.address else a.address,
       country := if Truthy(p.country) then p.country else a.country)
  }

  /** The merge writes a field exactly where the request's value is truthy,
      and never touches the balance or the settings. */
  lemma MergeProfileFields(a: Account, p: ProfileRequest)
    ensures var b := MergeProfile(a, p);
      && (Truthy(p.name) ==> b.name == p.name.value) && (!Truthy(p.name) ==> b.name == a.name)
      && (Truthy(p.email) ==> b.email == p.email.value) && (!Truthy(p.email) ==> b.email == a.email)
      && (Truthy(p.phone) ==> b.phone == p.phone) && (!Truthy(p.phone) ==> b.phone == a.phone)
      && (Truthy(p.address) ==> b.address == p.address) && (!Truthy(p.address) ==> b.address == a.address)
      && (Truthy(p.country) ==> b.country == p.country) && (!Truthy(p.country) ==> b.country == a.country)
      && b.accountBalance == a.accountBalance && b.settings == a.settings
  {
  }

  /** Sending the same profile twice changes nothing the second time, and
      an empty string clears nothing. */
  lemma MergeProfileIdempotent(a: Account, p: ProfileRequest)
    ensures MergeProfile(MergeProfile(a, p), p) == MergeProfile(a, p)
    ensures MergeProfile(a, ProfileRequest(Some(""), Some(""), Some(""), Some(""), Some(""))) == a
    ensures MergeProfile(a, ProfileRequest(None, None, None, None, None)) == a
  {
  }

  /** `User.findOne({ email })` found a user other than the caller. */
  predicate EmailTakenByOther(users: map<UserId, Account>, uid: UserId, email: string)
  {
    exists v :: v in users && v != uid && users[v].email == email
  }

  /** A merge that passed the email check keeps emails unique. */
  lemma MergeKeepsEmailsUnique(users: map<UserId, Account>, uid: UserId, p: ProfileRequest)
    requires EmailsUnique(users) && uid in users
    requires Truthy(p.email) ==> !EmailTakenByOther(users, uid, p.email.value)
    ensures EmailsUnique(users[uid := MergeProfile(users[uid], p)])
  {
    var merged := users[uid := MergeProfile(users[uid], p)];
    forall u, v | u in merged && v in merged && u != v ensures merged[u].email != merged[v].email {
      if u == uid && Truthy(p.email) {
        assert users[v].email != p.email.value;
      } else if v == uid && Truthy(p.email) {
        assert users[u].email != p.email.value;
      }
    }
  }

  /** PUT /api/users/profile. The email check runs even for a caller whose
      record is gone; `findByIdAndUpdate` of a missing record answers
      `null`, here `Ok(None)`. */
  method UpdateUserProfile(db: Database, uid: UserId, p: ProfileRequest, errors: seq<FieldError>)
    returns (r: Result<Option<Account>, Failure>)
    requires db.Valid()
    modifies db
    ensures db.Valid()
    ensures db.wallets == old(db.wallets) && db.transactions == old(db.transactions)
    ensures db.nextTxId == old(db.nextTxId)
    ensures errors != [] ==> r == Err(InvalidRequest(errors)) && db.users == old(db.users)
    ensures errors == [] && Truthy(p.email) && EmailTakenByOther(old(db.users), uid, p.email.value) ==>
      r == Err(EmailInUse) && db.users == old(db.users)
    ensures errors == [] && !(Truthy(p.email) && EmailTakenByOther(old(db.users), uid, p.email.value)) ==>
      if uid in old(db.users) then
        && db.users == old(db.users)[uid := MergeProfile(old(db.users[uid]), p)]
        && r == Ok(Some(db.users[uid]))
      else r == Ok(None) && db.users == old(db.users)
  {
    if errors != [] {
      return Err(InvalidRequest(errors));
    }
    if Truthy(p.email) && EmailTakenByOther(db.users, uid, p.email.value) {
      return Err(EmailInUse);
    }
    if uid !in db.users {
      return Ok(None);
    }
    MergeKeepsEmailsUnique(db.users, uid, p);
    db.users := db.users[uid := MergeProfile(db.users[uid], p)];
    r := Ok(Some(db.users[uid]));
  }

  // ---------------------------------------------------------------------
  // Settings

  /** The body of PUT /api/users/settings. */
  datatype SettingsRequest = SettingsRequest(
    emailNotifications: Option<bool>, twoFactorAuth: Option<bool>, defaultCurrency: Option<string>)

  /** The two flags are written whenever present (`!== undefined`), the
      currency only when truthy. */
  function MergeSettings(s: Settings, q: SettingsRequest): Settings
  {
    Settings(
      if q.emailNotifications.Some? then q.emailNotifications else s.emailNotifications,
      if q.twoFactorAuth.Some? then q.twoFactorAuth else s.twoFactorAuth,
      if Truthy(q.defaultCurrency) then q.defaultCurrency else s.defaultCurrency)
  }

  /** A flag sent as `false` is stored, while a currency sent as the empty
      string is ignored; absent fields keep their values. */
  lemma MergeSettingsFields(s: Settings, q: SettingsRequest)
    ensures var t := MergeSettings(s, q);
      && (q.emailNotifications.Some? ==> t.emailNotifications == q.emailNotifications)
      && (q.emailNotifications.None? ==> t.emailNotifications == s.emailNotifications)
      && (q.twoFactorAuth.Some? ==> t.twoFactorAuth == q.twoFactorAuth)
      && (q.twoFactorAuth.None? ==> t.twoFactorAuth == s.twoFactorAuth)
      && (Truthy(q.defaultCurrency) ==> t.defaultCurrency == q.defaultCurrency)
      && (!Truthy(q.defaultCurrency) ==> t.defaultCurrency == s.defaultCurrency)
    ensures MergeSettings(s, SettingsRequest(Some(false), Some(false), Some(""))).emailNotifications == Some(false)
    ensures MergeSettings(s, SettingsRequest(Some(false), Some(false), Some(""))).twoFactorAuth == Some(false)
    ensures MergeSettings(s, SettingsRequest(Some(false), Some(false), Some(""))).defaultCurrency == s.defaultCurrency
    ensures MergeSettings(MergeSettings(s, q), q) == MergeSettings(s, q)
  {
  }

  /** PUT /api/users/settings (no validation chain). */
  method UpdateSettings(db: Database, uid: UserId, q: SettingsRequest) returns (r: Option<Account>)
    requires db.Valid()
    modifies db
    ensures db.Valid()
    ensures db.wallets == old(db.wallets) && db.transactions == old(db.transactions)
    ensures db.nextTxId == old(db.nextTxId)
    ensures uid in old(db.users) ==>
      && db.users == old(db.users)[uid := old(db.users[uid]).(settings := MergeSettings(old(db.users[uid]).settings, q))]
      && r == Some(db.users[uid])
    ensures uid !in old(db.users) ==> r == None && db.users == old(db.users)
  {
    if uid !in db.users {
      return None;
    }
    var a := db.users[uid].(settings := MergeSettings(db.users[uid].settings, q));
    SameEmailKeepsUnique(db.users, uid, a);
    db.users := db.users[uid := a];
    r := Some(a);
  }

  // ---------------------------------------------------------------------
  // Summary

  /** How many of the user's records have the type. */
  function CountOfType(log: seq<CryptoTx>, uid: UserId, kind: TxType): nat
  {
    if log == [] then 0
    else (if log[0].user == uid && log[0].kind == kind then 1 else 0) + CountOfType(log[1..], uid, kind)
  }

  /** A new record adds one to its own type's count and nothing to the others. */
  lemma {:induction false} CountOfTypeAppend(log: seq<CryptoTx>, t: CryptoTx, uid: UserId, kind: TxType)
    ensures CountOfType(log + [t], uid, kind)
      == CountOfType(log, uid, kind) + (if t.user == uid && t.kind == kind then 1 else 0)
  {
    if log == [] {
      assert [] + [t] == [t];
    } else {
      assert (log + [t])[0] == log[0];
      assert (log + [t])[1..] == log[1..] + [t];
      CountOfTypeAppend(log[1..], t, uid, kind);
    }
  }

  /** One `$group` by `$type`. */
  datatype TypeCount = TypeCount(kind: TxType, count: nat)

  /** The group of one type under the counts `count`: none for no records. */
  function GroupOf(count: TxType -> nat, kind: TxType): seq<TypeCount>
  {
    if count(kind) > 0 then [TypeCount(kind, count(kind))] else []
  }

  /** `$group: { _id: '$type', count: { $sum: 1 } }`: one group per type
      with records, listed in the order of `kinds`. */
  function GroupsFor(kinds: seq<TxType>, count: TxType -> nat): seq<TypeCount>
  {
    if kinds == [] then [] else GroupOf(count, kinds[0]) + GroupsFor(kinds[1..], count)
  }

  /** The record types, in the order the groups are listed. */
  const AllKinds: seq<TxType> := [Buy, Sell, Deposit, Withdraw]

  /** Every type is listed, and none twice. */
  lemma AllKindsListed()
    ensures forall i, j :: 0 <= i < j < |AllKinds| ==> AllKinds[i] != AllKinds[j]
    ensures forall k: TxType :: k in AllKinds
  {
    forall k: TxType ensures k in AllKinds {
      match k
      case Buy => assert AllKinds[0] == k;
      case Sell => assert AllKinds[1] == k;
      case Deposit => assert AllKinds[2] == k;
      case Withdraw => assert AllKinds[3] == k;
    }
  }

  /** The aggregation's answer for the user's records. */
  function TypeGroups(log: seq<CryptoTx>, uid: UserId): seq<TypeCount>
  {
    GroupsFor(AllKinds, k => CountOfType(log, uid, k))
  }

  ghost predicate KindsDistinct(gs: seq<TypeCount>)
  {
    forall i, j :: 0 <= i < j < |gs| ==> gs[i].kind != gs[j].kind
  }

  /** Each group holds its type's count, which is never 0. */
  ghost predicate CountsAgree(gs: seq<TypeCount>, count: TxType -> nat)
  {
    forall j :: 0 <= j < |gs| ==> gs[j].count == count(gs[j].kind) > 0
  }

  /** Some group has the type. */
  ghost predicate HasGroup(gs: seq<TypeCount>, k: TxType)
  {
    exists j :: 0 <= j < |gs| && gs[j].kind == k
  }

  /** Every type of `kinds` with records has a group, and no group has
      another type. */
  ghost predicate Covers(gs: seq<TypeCount>, kinds: seq<TxType>, count: TxType -> nat)
  {
    && (forall j :: 0 <= j < |gs| ==> gs[j].kind in kinds)
    && (forall k :: k in kinds && count(k) > 0 ==> HasGroup(gs, k))
  }

  lemma {:induction false} GroupsForMeaning(kinds: seq<TxType>, count: TxType -> nat)
    requires forall i, j :: 0 <= i < j < |kinds| ==> kinds[i] != kinds[j]
    ensures KindsDistinct(GroupsFor(kinds, count))
    ensures CountsAgree(GroupsFor(kinds, count), count)
    ensures Covers(GroupsFor(kinds, count), kinds, count)
  {
    if kinds != [] {
      var tl := kinds[1..];
      assert forall i :: 0 <= i < |tl| ==> tl[i] == kinds[i + 1];
      GroupsForMeaning(tl, count);
      assert kinds == [kinds[0]] + tl;
      GroupsCons(kinds[0], tl, GroupsFor(tl, count), count);
    }
  }

  /** One step of GroupsForMeaning: a type's own group in front of the
      groups of types other than it. */
  lemma GroupsCons(k: TxType, tl: seq<TxType>, rest: seq<TypeCount>, count: TxType -> nat)
    requires k !in tl
    requires KindsDistinct(rest) && CountsAgree(rest, count) && Covers(rest, tl, count)
    ensures KindsDistinct(GroupOf(count, k) + rest)
    ensures CountsAgree(GroupOf(count, k) + rest, count)
    ensures Covers(GroupOf(count, k) + rest, [k] + tl, count)
  {
    if count(k) == 0 {
      assert GroupOf(count, k) + rest == rest;
    } else {
      assert GroupOf(count, k) == [TypeCount(k, count(k))];
      ConsDistinct(k, tl, rest, count);
      ConsAgree(rest, TypeCount(k, count(k)), count);
      ConsCovers(k, tl, rest, count);
    }
  }

  lemma ConsDistinct(k: TxType, tl: seq<TxType>, rest: seq<TypeCount>, count: TxType -> nat)
    requires k !in tl && KindsDistinct(rest) && Covers(rest, tl, count)
    ensures KindsDistinct([TypeCount(k, count(k))] + rest)
  {
    var gs := [TypeCount(k, count(k))] + rest;
    assert forall j :: 0 < j < |gs| ==> gs[j] == rest[j - 1];
  }

  lemma ConsAgree(rest: seq<TypeCount>, g: TypeCount, count: TxType -> nat)
    requires CountsAgree(rest, count) && g.count == count(g.kind) > 0
    ensures CountsAgree([g] + rest, count)
  {
    var gs := [g] + rest;
    assert forall j :: 0 < j < |gs| ==> gs[j] == rest[j - 1];
  }

  lemma ConsCovers(k: TxType, tl: seq<TxType>, rest: seq<TypeCount>, count: TxType -> nat)
    requires Covers(rest, tl, count)
    ensures Covers([TypeCount(k, count(k))] + rest, [k] + tl, count)
  {
    var gs := [TypeCount(k, count(k))] + rest;
    assert forall j :: 0 < j < |gs| ==> gs[j] == rest[j - 1];
    forall c | c in [k] + tl && count(c) > 0
      ensures HasGroup(gs, c)
    {
      if c == k {
        assert gs[0].kind == c;
      } else {
        var j :| 0 <= j < |rest| && rest[j].kind == c;
        assert gs[j + 1].kind == c;
      }
    }
  }

  /** The groups over a list of every type, each once, for any counts. */
  lemma GroupsOfAll(kinds: seq<TxType>, count: TxType -> nat)
    requires forall i, j :: 0 <= i < j < |kinds| ==> kinds[i] != kinds[j]
    requires forall k: TxType :: k in kinds
    ensures KindsDistinct(GroupsFor(kinds, count))
    ensures forall j :: 0 <= j < |GroupsFor(kinds, count)| ==>
      GroupsFor(kinds, count)[j].count == count(GroupsFor(kinds, count)[j].kind)
    ensures forall k :: count(k) > 0 <==>
      HasGroup(GroupsFor(kinds, count), k)
  {
    GroupsForMeaning(kinds, count);
    forall k: TxType
      ensures count(k) > 0 <==> HasGroup(GroupsFor(kinds, count), k)
    {
      GroupOfEach(kinds, count, k);
    }
  }

  /** One type of GroupsOfAll. */
  lemma GroupOfEach(kinds: seq<TxType>, count: TxType -> nat, k: TxType)
    requires k in kinds
    requires CountsAgree(GroupsFor(kinds, count), count) && Covers(GroupsFor(kinds, count), kinds, count)
    ensures count(k) > 0 <==> HasGroup(GroupsFor(kinds, count), k)
  {
    var gs := GroupsFor(kinds, count);
    if count(k) > 0 {
      assert HasGroup(gs, k);
    }
    if HasGroup(gs, k) {
      var j :| 0 <= j < |gs| && gs[j].kind == k;
      assert gs[j].count == count(k) > 0;
    }
  }

  /** Every group of the aggregation holds its type's count, no type
      appears twice, and every type with records has a group. */
  lemma TypeGroupsMeaning(log: seq<CryptoTx>, uid: UserId)
    ensures KindsDistinct(TypeGroups(log, uid))
    ensures forall j :: 0 <= j < |TypeGroups(log, uid)| ==>
      TypeGroups(log, uid)[j].count == CountOfType(log, uid, TypeGroups(log, uid)[j].kind)
    ensures forall k :: CountOfType(log, uid, k) > 0 <==>
      HasGroup(TypeGroups(log, uid), k)
  {
    var count := k => CountOfType(log, uid, k);
    assert GroupsFor(AllKinds, count) == TypeGroups(log, uid);
    AllKindsListed();
    GroupsOfAll(AllKinds, count);
    assert forall k :: count(k) == CountOfType(log, uid, k);
  }

  /** The `forEach` that turns the groups into `{ type: count }`. */
  method FormatCounts(gs: seq<TypeCount>) returns (counts: map<TxType, nat>)
    ensures forall k :: k in counts <==> exists j :: 0 <= j < |gs| && gs[j].kind == k
    ensures KindsDistinct(gs) ==> forall j :: 0 <= j < |gs| ==> counts[gs[j].kind] == gs[j].count
  {
    counts := map[];
    var i := 0;
    while i < |gs|
      invariant 0 <= i <= |gs|
      invariant forall k :: k in counts <==> exists j :: 0 <= j < i && gs[j].kind == k
      invariant KindsDistinct(gs) ==> forall j :: 0 <= j < i ==> counts[gs[j].kind] == gs[j].count
    {
      counts := counts[gs[i].kind := gs[i].count];
      i := i + 1;
    }
  }

  /** GET /api/users/summary, without the five most recent records. */
  datatype Summary = Summary(user: Option<Account>, walletCount: nat, transactionCounts: map<TxType, nat>)

  method GetAccountSummary(db: Database, uid: UserId) returns (s: Summary)
    ensures s.user == if uid in db.users then Some(db.users[uid]) else None
    ensures s.walletCount == |UserWallets(db.wallets, uid)|
    ensures forall k :: k in s.transactionCounts <==> CountOfType(db.transactions, uid, k) > 0
    ensures forall k :: k in s.transactionCounts ==> s.transactionCounts[k] == CountOfType(db.transactions, uid, k)
  {
    var user := if uid in db.users then Some(db.users[uid]) else None;
    var gs := TypeGroups(db.transactions, uid);
    TypeGroupsMeaning(db.transactions, uid);
    var counts := FormatCounts(gs);
    s := Summary(user, |UserWallets(db.wallets, uid)|, counts);
  }

  // ---------------------------------------------------------------------
  // Deletion

  /** DELETE /api/users. Refused while the user has any wallet; otherwise
      the user's records, wallets and user record go, and nothing of any
      other user. */
  method DeleteAccount(db: Database, uid: UserId) returns (r: Result<(), Failure>)
    requires db.Valid()
    modifies db
    ensures db.Valid()
    ensures UserWallets(old(db.wallets), uid) != [] ==> r == Err(ActiveWallets) && unchanged(db)
    ensures UserWallets(old(db.wallets), uid) == [] ==>
      && r == Ok(())
      && db.transactions == OtherTransactions(old(db.transactions), uid)
      && db.wallets == old(db.wallets)
      && db.users == old(db.users) - {uid}
      && db.nextTxId == old(db.nextTxId)
    ensures r.Ok? ==> uid !in db.users && forall w :: w in db.wallets ==> w.user != uid
  {
    if UserWallets(db.wallets, uid) != [] {
      return Err(ActiveWallets);
    }
    OtherTransactionsKeepIds(db.transactions, uid, db.nextTxId);
    db.transactions := OtherTransactions(db.transactions, uid);
    OtherWalletsOfWalletless(db.wallets, uid);
    db.wallets := OtherWallets(db.wallets, uid);
    db.users := db.users - {uid};
    r := Ok(());
  }
}
