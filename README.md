# Crypto exchange wallet ledger, modelled in Dafny

This project models the wallet ledger of a small crypto-exchange backend
(Express handlers over MongoDB collections). It proves what each handler
does to the stored state. The backend has two ledgers that share nothing,
and each is modelled on its own.

- **Controller ledger.** Modules `ControllerStore`, `CryptoController`,
  `TransactionController` and `UserController`.
  - The state is one `Database` object holding:
    - the user documents, each with an `accountBalance` and profile/settings fields;
    - the UserWallet table, keyed by user and upper-cased symbol, with `amount`, `purchaseValue` and `averagePrice`;
    - the append-only CryptoTransaction log.
  - `buyCrypto` and `sellCrypto` become methods that update that object. So do `depositFunds`, `withdrawFunds`, `updateUserProfile`, `updateSettings` and `deleteAccount`.
  - Their new state is tied to pure functions about which lemmas are proved:
    - `Credit` and `Debit` for the wallet table;
    - `MergeProfile` and `MergeSettings` for the field merges.
  - The portfolio valuation, the transaction lookup by id and the statistics are functions:
    - the per-type totals are folds;
    - the monthly groups are a sorted-insert fold.
  - The counts of the account summary are a loop over groups that are proved to be one per type.
- **Route ledger.** Modules `RouteStore`, `TransactionRoutes`, `UserRoutes` and `CryptocurrencyRoutes`.
  - The state is one `Exchange` object holding:
    - the users, each with a cash `wallet.balance` and a `cryptoHoldings` array;
    - the catalog of cryptocurrencies with `currentPrice` and `availableSupply`;
    - the trade log.
  - Buy and sell move units between the supply and the holdings, and every handler checks its guards before it writes anything.
- **Validator.** Module `Validator` holds:
  - the request rule chains as predicates over optional fields;
  - the per-symbol minimum table;
  - the ordered checks of `validateTransaction`;
  - `sanitizeErrors`.

Some things a handler cannot compute are given to it as parameters:

- A CoinMarketCap quote is an `Option<Quote>` parameter; `None` stands for a failed lookup, which the handler answers with a server error.
- The clock reading is a `now: Date` parameter.
- The outcome of the express-validator chain in front of a handler is its `errors` parameter.
- The wallet-address regular expressions are a `patternTest` parameter.

Money and quantities are exact `real`s. A JavaScript division by zero is `Common.Quotient`'s `None`.

Where the code differs from the design description, the model follows the code:

- A controller sell leaves `purchaseValue` and `averagePrice` alone. It does not reduce the cost basis in proportion to the amount sold.
- A controller sell deletes the wallet once the amount is `<= 0`. A route sell splices the holding out only when it is exactly 0.
- Neither ledger requires a positive price. The controller buy and sell do not check the amount at all; their validator chains are not applied by the handlers.
- `profitPercentage` is `None` where `purchaseValue` is 0. The code produces NaN or Infinity there, not a guarded value.
- `sellCrypto` is not all-or-nothing:
  - It writes the wallet before it reads the user record.
  - So a sell by a user whose record is gone changes the wallet, then fails with a server error without crediting anything.
  - `SellCrypto` states this.
- `buyCrypto` loads the user record for every buy but uses it only when paying from the balance. So with any other payment method a missing record does not fail the buy (`BuyCrypto`).
- `validateTransaction` with an absent amount passes the `amount <= 0` check, because `undefined <= 0` is false. It then fails the minimum check if one applies.

models/UserWallet.js and models/CryptoTransaction.js are not part of this model. Their fields are the ones the controllers read and write.

## Model

| member | source | states |
|---|---|---|
| Common.Quotient | controllers/cryptoController.js:156 | the quotient exists exactly when the divisor is non-zero, and then it times the divisor gives back the dividend |
| Common.ToUpper | controllers/cryptoController.js:144-147 | same length; each character is upper-cased, with the letters a-z mapped and everything else kept |
| Common.ToUpperNormalizes | controllers/cryptoController.js:144-147 | the result is upper case, upper-casing twice is upper-casing once, and an upper-case symbol is left as it is |
| Validator.PurchaseErrors | utils/validator.js:35-39 | no error iff the symbol is non-empty, the amount is at least 0.000001 and the method is one of credit_card, bank_transfer, balance |
| Validator.SellErrors | utils/validator.js:42-45 | no error iff the symbol is non-empty and the amount is at least 0.000001 |
| Validator.DepositErrors | utils/validator.js:48-51 | no error iff the amount is at least 1 and the method is one of credit_card, bank_transfer, paypal |
| Validator.WithdrawErrors | utils/validator.js:54-58 | no error iff the amount is at least 1, the method is one of bank_transfer, paypal, crypto, and the account details are non-empty |
| Validator.SanitizeErrors | utils/validator.js:90-100 | null gives null; otherwise a list of the same length whose items keep only param and msg |
| Validator.SanitizeHidesValues | utils/validator.js:93-99 | two error lists that differ only outside param and msg sanitize to the same list |
| Validator.MinimumAmount | utils/validator.js:108-118 | every minimum is at least the default 0.000001 |
| Validator.MinimumTable | utils/validator.js:106-121 | the check holds iff the amount reaches 0.00001 for BTC, 0.0001 for ETH, 1 for XRP, ADA and DOGE, and 0.000001 for any other symbol |
| Validator.CryptoAmountImpliesRule | utils/validator.js:106-121 | an amount that passes is positive and passes the 0.000001 rule, and any larger amount passes too |
| Validator.ValidateTransaction | utils/validator.js:148-181 | an unknown type is refused first, then a non-positive amount; a valid verdict means the type is known, the amount is not non-positive, the minimum holds for a crypto type with a symbol, and a transfer's address matches |
| Validator.NonCryptoSkipsMinimum | utils/validator.js:156-180 | for deposit, withdraw or a request without a symbol, the verdict is valid iff the amount is not non-positive |
| Validator.BelowMinimumRejected | utils/validator.js:162-169 | a buy, sell or transfer with a symbol and a positive amount below that symbol's minimum is refused with the 'below minimum' message |
| Validator.TransferAddressCheck | utils/validator.js:139-177 | a transfer passing the minimum fails iff an address is given and the pattern rejects it; a symbol without a pattern accepts any address |
| Validator.NoFailingCheckIsValid | utils/validator.js:148-181 | when no check fails the verdict is valid |
| Validator.PurchaseRuleLooserThanMinimum | utils/validator.js:37-109 | 0.000001 BTC passes the purchase rule but is refused by validateTransaction's BTC minimum |
| Validator.ValidTradePassesAmountRule | utils/validator.js:162-169 | a buy or sell with a symbol that validateTransaction accepts also meets the 0.000001 amount rule |
| ControllerStore.UserWallets | controllers/userController.js:137 | exactly the wallets of that user, and no more wallets than the table has |
| ControllerStore.UserWalletsCount | controllers/userController.js:137 | each wallet of the user appears exactly as often as in the table, and no other wallet appears |
| ControllerStore.UserWalletsAppend | controllers/userController.js:137 | the find keeps table order: a wallet added at the end of the table comes last among its user's wallets and in no one else's |
| ControllerStore.OtherWallets | controllers/userController.js:186 | exactly the wallets of other users |
| ControllerStore.OtherTransactions | controllers/userController.js:183 | exactly the records of other users |
| ControllerStore.OtherWalletsOfWalletless | controllers/userController.js:176-186 | when the user has no wallet, deleting their wallets leaves the table as it was |
| ControllerStore.OtherTransactionsKeepIds | controllers/userController.js:183 | deleting a user's records keeps the record ids increasing and below the next id |
| ControllerStore.AppendKeepsIds | controllers/transactionController.js:65-73 | appending a record under the next id keeps the ids increasing |
| ControllerStore.SameEmailKeepsUnique | controllers/userController.js:115-119 | rewriting a user without changing the email keeps emails unique |
| ControllerStore.Database.Adjust | controllers/transactionController.js:60-62 | only that user's record changes, its balance moving by the delta; the wallets, the records and the next id stay, and the ledger stays consistent |
| ControllerStore.Database.Append | controllers/transactionController.js:65-73 | the record joins the end of the log under the next id, which advances by one; users and wallets stay, and the ids stay increasing |
| CryptoController.FirstIndex | controllers/cryptoController.js:144-147 | -1 when no wallet of that user has the symbol, otherwise the first such wallet |
| CryptoController.FindWallet | controllers/cryptoController.js:144-147 | the loop finds the first wallet of the user with the symbol, or reports that there is none |
| CryptoController.CreditForm | controllers/cryptoController.js:149-167 | a buy replaces the found wallet with amount plus the amount, purchaseValue plus the cost and averagePrice their quotient; with none, it appends one wallet with the amount, the cost and the price |
| CryptoController.DebitForm | controllers/cryptoController.js:236-245 | with no wallet nothing changes; a wallet left at `<= 0` is removed; otherwise only its amount drops by the amount, and purchaseValue and averagePrice stay |
| CryptoController.DebitShape | controllers/cryptoController.js:236-245 | selling equals acting on the wallet at the position the lookup finds: nothing without one, cut out at `<= 0`, reduced in amount otherwise |
| CryptoController.CreditKeepsUnique | controllers/cryptoController.js:144-167 | a buy keeps at most one wallet per user and symbol, and all symbols upper case |
| CryptoController.DebitKeepsUnique | controllers/cryptoController.js:236-245 | a sell keeps at most one wallet per user and symbol, and all symbols upper case |
| CryptoController.CreditView | controllers/cryptoController.js:149-167 | after a buy, the wallet found for the bought pair is the topped-up or opened one, and every other pair finds the same wallet as before |
| CryptoController.DebitView | controllers/cryptoController.js:236-245 | after a sell, the sold pair finds the reduced wallet or none, and every other pair finds the same wallet as before |
| CryptoController.DebitViewSold | controllers/cryptoController.js:236-245 | with one wallet per pair, the sold pair afterwards finds its wallet reduced by the amount, or none when `<= 0` was left or it had none |
| CryptoController.DebitViewOther | controllers/cryptoController.js:236-245 | any other pair finds after a sell exactly the wallet it found before |
| CryptoController.StoreCredit | controllers/cryptoController.js:144-176 | the wallet table becomes the buy's Credit of the old one, the users and records stay, and keys stay unique with upper-case symbols |
| CryptoController.StoreDebit | controllers/cryptoController.js:236-245 | given the found wallet's position, the wallet table becomes the sell's Debit of the old one; the users and records stay |
| CryptoController.AmountsStayPositive | controllers/cryptoController.js:149-245 | a buy of a positive amount and any sell keep every wallet's amount positive |
| CryptoController.WeightedAverageExample | controllers/cryptoController.js:151-156 | buying 1 at 100 and then 1 at 200 gives amount 2, purchaseValue 300 and averagePrice 150 |
| CryptoController.SellAllExample | controllers/cryptoController.js:236-241 | buying 2 and selling 2 leaves no wallet |
| CryptoController.BuyCrypto | controllers/cryptoController.js:113-199 | without a quote, or paying by balance with no user record, a server error; paying by balance with less than price times amount, refused; any refusal changes nothing; otherwise the wallet table is Credit of the old one and a buy record with totalValue price times amount is appended; a balance payment lowers the balance by exactly that and leaves it non-negative; other methods leave every user as it was |
| CryptoController.SellCrypto | controllers/cryptoController.js:204-272 | no wallet or too little held is refused before the quote is looked at, changing nothing; without a quote, a server error with nothing changed; otherwise the wallet table is Debit of the old one; with the user present, the balance rises by price times amount and a sell record is appended; with the user gone, only the wallet table changed; a non-negative balance stays non-negative for non-negative prices and amounts |
| CryptoController.Valuations | controllers/cryptoController.js:86-101 | succeeds iff every wallet's symbol has a quote, and then gives one valuation per wallet, in order |
| CryptoController.GetUserPortfolio | controllers/cryptoController.js:61-108 | no wallets gives an empty portfolio whatever the quotes; wallets and no quotes give a server error |
| CryptoController.PortfolioEntries | controllers/cryptoController.js:86-101 | a successful portfolio has one entry per wallet of the user, and entry i values wallet i at its quote |
| CryptoController.ValuationMeaning | controllers/cryptoController.js:87-100 | the entry keeps the coin and amount; value is amount times price; profit is value minus purchaseValue; the percentage exists iff purchaseValue is non-zero and then is profit over purchaseValue times 100 |
| CryptoController.OpenedAtPriceNoProfit | controllers/cryptoController.js:159-166 | a wallet just opened, valued at its own purchase price, shows no profit |
| TransactionController.DepositFunds | controllers/transactionController.js:50-83 | validation errors are answered with nothing changed; a missing user is a server error with nothing changed; otherwise the balance rises by the amount, a deposit record with totalValue the amount is appended, and the wallets stay |
| TransactionController.WithdrawFunds | controllers/transactionController.js:88-128 | as for deposits, and a balance below the amount is refused with nothing changed; a success lowers the balance by the amount, leaves it non-negative and appends a withdraw record whose payment method is the withdraw method |
| TransactionController.DepositThenWithdraw | controllers/transactionController.js:50-128 | depositing and then withdrawing the same amount both succeed for a user with a non-negative balance, restore every user record and only add the two records |
| TransactionController.RecordWithId | controllers/transactionController.js:25 | a found record is in the log with that id; none is found iff no record has the id |
| TransactionController.GetTransactionById | controllers/transactionController.js:23-45 | not found iff no record has the id; not authorized only when a record with the id belongs to someone else; a success is the caller's record with that id |
| TransactionController.RecordWithIdFinds | controllers/transactionController.js:25-30 | with increasing ids, looking up a record's id finds that record |
| TransactionController.RecordAccess | controllers/transactionController.js:23-37 | with increasing ids, a logged record is returned to its owner and refused to anyone else |
| TransactionController.Matching | controllers/transactionController.js:137 | exactly the records of that user and type |
| TransactionController.Grouped | controllers/transactionController.js:136-139 | the group stage yields at most one group, and none iff nothing matched |
| TransactionController.MatchingAppend | controllers/transactionController.js:136-139 | a new record joins the end of the matching records exactly when it has that user and type |
| TransactionController.SumAppend | controllers/transactionController.js:138 | the sum of totalValue over two runs of records is the sum of their sums |
| TransactionController.StatTotalIsSum | controllers/transactionController.js:136-179 | each reported total is the sum of totalValue over the user's records of that type, and 0 when there are none |
| TransactionController.DepositAddsToTotal | controllers/transactionController.js:65-139 | appending a deposit record raises the user's deposit total by its amount |
| TransactionController.OwnRecords | controllers/transactionController.js:161 | exactly the records of that user |
| TransactionController.AddToBounded | controllers/transactionController.js:160-173 | inserting a record from a month after every group's keeps all groups after that month |
| TransactionController.AddToKeepsOrder | controllers/transactionController.js:160-173 | inserting a record keeps the groups strictly ascending by year then month, and none of them empty |
| TransactionController.AddToCounts | controllers/transactionController.js:160-173 | inserting a record adds one to its month's count and its totalValue to that month's value, and changes no other month |
| TransactionController.MonthAbsent | controllers/transactionController.js:160-173 | a month before the first of ascending groups has count 0 and value 0 |
| TransactionController.GroupByMonthCounts | controllers/transactionController.js:160-173 | the grouped records are ascending with no empty group, and each month's count and value are those of the user's records in that month |
| TransactionController.CountAtPresent | controllers/transactionController.js:160-173 | with no empty group, a month has a positive count iff it has a group |
| TransactionController.MonthlyGroups | controllers/transactionController.js:160-173 | ascending, no empty group, counts and values per month equal those of the user's records, and a month has a group iff the user has a record in it |
| TransactionController.TransactionStats | controllers/transactionController.js:133-186 | the four totals are the per-type sums of totalValue over the user's records, and the monthly groups are ascending and non-empty |
| UserController.MergeProfileFields | controllers/userController.js:34-58 | each of name, email, phone, address and country changes only to a truthy value sent for it, and every truthy value lands; the balance and settings stay |
| UserController.MergeProfileIdempotent | controllers/userController.js:37-42 | applying the same profile update twice is applying it once, and empty or absent fields change nothing |
| UserController.MergeKeepsEmailsUnique | controllers/userController.js:45-58 | when no other user has the new email, the update keeps emails unique |
| UserController.UpdateUserProfile | controllers/userController.js:28-65 | validation errors are answered with no change; an email held by a different user is refused with no change, while one's own email is allowed; a missing record answers null; otherwise the user becomes the merged profile and is returned; wallets and records stay |
| UserController.MergeSettingsFields | controllers/userController.js:105-111 | a present flag is stored even when false, an absent one is kept; the currency is stored only when truthy; the merge is idempotent |
| UserController.UpdateSettings | controllers/userController.js:104-126 | only the user's settings become the merged settings and the user is returned; a missing user answers null with no change |
| UserController.CountOfTypeAppend | controllers/userController.js:145-148 | appending a record adds one to the count of its user and type only |
| UserController.GroupsForMeaning | controllers/userController.js:145-148 | over distinct types, the groups have distinct types, each group's count is its type's count and positive, and each type with a positive count has a group |
| UserController.GroupsOfAll | controllers/userController.js:145-148 | over a list naming every type once, a type has a group iff its count is positive, and each group carries its type's count |
| UserController.TypeGroupsMeaning | controllers/userController.js:145-148 | one group per type the user has records of, each counting exactly those records |
| UserController.FormatCounts | controllers/userController.js:151-154 | the loop's map has a key for exactly the grouped types, and with distinct types maps each to its group's count |
| UserController.GetAccountSummary | controllers/userController.js:131-166 | the summary holds the user or null, the number of the user's wallets, and for each type with records its count, with no key for a type without any |
| UserController.DeleteAccount | controllers/userController.js:171-196 | a user with any wallet is refused and nothing is deleted; otherwise exactly that user's records and user record go, other users' records and all wallets stay, and neither the user nor any wallet of theirs is left |
| RouteStore.NewTrader | models/User.js:1-14 | a new user has 1000 in cash, no holdings and no admin rights |
| RouteStore.NewTraderValid | models/User.js:6-11 | a new user's wallet has distinct, positive holdings |
| RouteStore.Exchange.SetWallet | routes/transactions.js:58 | only that user's wallet is replaced; the catalog, the trades and the next id stay, and a valid wallet keeps the exchange valid |
| RouteStore.Exchange.SetCrypto | routes/transactions.js:61-62 | only that catalog record is replaced; the users, the trades and the next id stay |
| RouteStore.Exchange.Record | routes/transactions.js:41 | the trade joins the end of the log and nothing else changes |
| TransactionRoutes.FirstHolding | routes/transactions.js:46-48 | -1 when no holding has the id, otherwise the first holding with it |
| TransactionRoutes.FindHolding | routes/transactions.js:46-48 | the findIndex loop finds the first holding with the id, or reports that there is none |
| TransactionRoutes.AddHoldingKeepsValid | routes/transactions.js:50-57 | adding a positive amount keeps one holding per id and every holding positive |
| TransactionRoutes.AddHoldingMeaning | routes/transactions.js:50-57 | the id's amount rises by the amount, every other id's amount stays, the other holdings keep their values and order, and exactly one holding is added iff there was none |
| TransactionRoutes.RemoveHoldingKeepsValid | routes/transactions.js:119-124 | taking at most what is held keeps one holding per id and every holding positive |
| TransactionRoutes.RemoveHoldingMeaning | routes/transactions.js:119-124 | the id's amount drops by the amount; the holding is gone iff exactly what was held was sold; other ids' amounts, values and order stay |
| TransactionRoutes.SplicedMeaning | routes/transactions.js:122-124 | cutting out a holding leaves its id unheld with amount 0, and every other id's amount and the others' order unchanged |
| TransactionRoutes.ReducedMeaning | routes/transactions.js:119 | setting a holding's amount keeps it where it was with the new amount, and every other id's amount and the others' order unchanged |
| TransactionRoutes.Bought | routes/transactions.js:46-57 | the buy's update of the holdings array is AddHolding of the old one |
| TransactionRoutes.Sold | routes/transactions.js:117-124 | the sell's reduce-then-splice update of the holdings array is RemoveHolding of the old one |
| TransactionRoutes.BuyRoute | routes/transactions.js:2-74 | a missing or non-positive amount, a missing user, a missing cryptocurrency, balance below amount times price, then supply below the amount are refused in that order with nothing changed, and passing all of them succeeds; success records a buy at the current price, lowers the balance by amount times price, adds the amount to the holding, lowers the supply by it, keeps holding plus supply and the price |
| TransactionRoutes.SellRoute | routes/transactions.js:77-141 | the same guards, with no holding or less held than the amount refused; passing them succeeds; success records a sell at the current price, raises the balance by amount times price, takes the amount from the holding, raises the supply by it, keeps holding plus supply and the price |
| UserRoutes.AddFunds | routes/users.js:20-41 | a missing or non-positive amount is refused before the user lookup, and a missing user after it, both with nothing changed; succeeds iff both pass; the answer is the wallet with the balance raised by exactly the amount, so strictly, and the same holdings; the user's other fields, the catalog and the trades are unchanged |
| CryptocurrencyRoutes.GetCryptocurrency | routes/cryptocurrencies.js:13-27 | found iff the id is in the catalog, and then it is that record; otherwise not found |
| CryptocurrencyRoutes.CreateCryptocurrency | routes/cryptocurrencies.js:30-49 | one record under a fresh id with exactly the supplied fields and lastUpdated the clock; nothing else changes |
| CryptocurrencyRoutes.UpdatePrice | routes/cryptocurrencies.js:52-73 | an unknown id is refused with nothing changed; otherwise only that record's currentPrice becomes the given value and lastUpdated the clock |
| CryptocurrencyRoutes.MergeInfoFields | routes/cryptocurrencies.js:85-92 | a field changes only to a truthy value sent for it, every truthy value lands, and lastUpdated is the clock even for an empty body |
| CryptocurrencyRoutes.ZeroIsIgnored | routes/cryptocurrencies.js:87-90 | a price or supply of 0, and empty strings, leave the record as it was apart from lastUpdated |
| CryptocurrencyRoutes.UpdateInfo | routes/cryptocurrencies.js:76-103 | an unknown id is refused with nothing changed; otherwise only that record is replaced by the merge, and every other record stays |

## Left out

- CoinMarketCap requests and `getMarketData` / `getCoinDetails`: network I/O. Their answer is a quote parameter of the handlers that need one.
- MongoDB persistence: replaced by one in-memory object per ledger.
  - `find`, `sort`, `limit` and `populate` are left out.
  - The aggregation pipelines are folds over the log.
  - `getUserTransactions`, the recent transactions of the account summary, `GET /api/users/me`, `getUserProfile` and the catalog listing only read and sort the store, so they are not modelled.
- The statistics pipelines match a string user id against stored object ids, and in MongoDB that match may find nothing. The model gives the evidently intended per-user sums instead.
- The counts come back in an unspecified order from MongoDB. `TypeGroups` fixes the order buy, sell, deposit, withdraw.
- JWT authentication, the admin guard, bcrypt and `changePassword`: foreign cryptographic and library calls. The caller's id is a parameter.
- Schema-level `required` and `unique` validation, object-id cast errors and the error-handler middleware: Mongoose and response plumbing, outside this model.
- Server start-up and the package-upgrade script: process plumbing.
- The express-validator chains run in front of the handlers. The handlers see only their result, the `errors` parameter.
  - The registration, login, profile, password, reset and two-factor chains are not modelled.
  - The e-mail and phone checks they use are library code.
- The wallet-address regular expressions: a `patternTest` parameter. The model keeps only the rule that a symbol without a pattern accepts any address.
- IEEE-754 rounding, `parseFloat`, and the string coercion of request fields: amounts and prices are exact numbers.
  - Examples: `balance += "5"` concatenating, and `!amount` on a string.
- NaN and Infinity: a division by zero yields `None`.
- `toUpperCase` beyond ASCII: only the letters a-z are mapped.
- The exception `symbol.toUpperCase()` throws on an absent symbol: the symbol is a plain string parameter.
- The `minimums` table in `validateCryptoAmount` and the `patterns` table in `validateWalletAddress` are object literals, so a symbol such as `constructor` resolves to one of `Object.prototype`'s keys. For `minimums` that key is used as the minimum; for `patterns` it is truthy without a `test` method, so the call throws. The model treats every symbol outside either table as absent: the default minimum, and any address accepted.
- The separate `save()` calls of one handler, and their interleaving with other requests: each handler is one atomic step, apart from the ordering inside `sellCrypto` (the wallet is written before the user is read), which the model keeps.
- The `Transaction` model's authentication helpers: not needed by the ledger.
- SellCrypto: its balance guarantee is stated only for non-negative prices, amounts and starting balances, because the controller never checks the sign of either.
- BuyRoute, SellRoute: request ids are taken to be canonical. The source finds the cryptocurrency with `findById`, which parses the id, but matches holdings by comparing `holding.cryptoId.toString()` with the raw request string. So an id written in another spelling, such as upper-case hex, finds the catalog record but misses the holding: a buy then pushes a second holding for the same cryptocurrency, and a sell answers 'Insufficient cryptocurrency balance'. The model does not capture this.
