/** The catalog routes: lookup by id, and the admin routes that create a
    cryptocurrency, set its price, and update its information field by
    field. The clock is the `now` parameter. */
module CryptocurrencyRoutes {
  import opened Common
  import opened RouteStore

  /** GET /api/cryptocurrencies/:id. */
  function GetCryptocurrency(catalog: map<CryptoId, Cryptocurrency>, id: CryptoId): (r: Result<Cryptocurrency, RouteFailure>)
    ensures r.Ok? <==> id in catalog
    ensures r.Ok? ==> r.value == catalog[id]
    ensures r.Err? ==> r.error == CryptoNotFound
  {
    if id in catalog then Ok(catalog[id]) else Err(CryptoNotFound)
  }

  /** POST /api/cryptocurrencies: one new record under a fresh id holding
      exactly the supplied fields, stamped with the clock by the schema
      default. */
  method CreateCryptocurrency(ex: Exchange, name: string, symbol: string, currentPrice: real,
                              availableSupply: real, description: Option<string>,
                              imageUrl: Option<string>, now: Date)
    returns (id: CryptoId, c: Cryptocurrency)
    requires ex.Valid()
    modifies ex
    ensures ex.Valid()
    ensures id == old(ex.nextCryptoId) && id !in old(ex.catalog)
    ensures c == Cryptocurrency(name, symbol, currentPrice, availableSupply, description, imageUrl, now)
    ensures ex.catalog == old(ex.catalog)[id := c]
    ensures ex.nextCryptoId == old(ex.nextCryptoId) + 1
    ensures ex.users == old(ex.users) && ex.trades == old(ex.trades)
  {
    id := ex.nextCryptoId;
    c := Cryptocurrency(name, symbol, currentPrice, availableSupply, description, imageUrl, now);
    ex.catalog := ex.catalog[id := c];
    ex.nextCryptoId := ex.nextCryptoId + 1;
  }

  /** PUT /api/cryptocurrencies/:id/price: the price is set whatever it is. */
  method UpdatePrice(ex: Exchange, id: CryptoId, currentPrice: real, now: Date)
    returns (r: Result<Cryptocurrency, RouteFailure>)
    requires ex.Valid()
    modifies ex
    ensures ex.Valid()
    ensures id !in old(ex.catalog) ==> r == Err(CryptoNotFound) && unchanged(ex)
    ensures id in old(ex.catalog) ==>
      && r == Ok(old(ex.catalog[id]).(currentPrice := currentPrice, lastUpdated := now))
      && ex.catalog == old(ex.catalog)[id := r.value]
    ensures ex.users == old(ex.users) && ex.trades == old(ex.trades) && ex.nextCryptoId == old(ex.nextCryptoId)
  {
    if id !in ex.catalog {
      return Err(CryptoNotFound);
    }
    var c := ex.catalog[id].(currentPrice := currentPrice, lastUpdated := now);
    ex.catalog := ex.catalog[id := c];
    r := Ok(c);
  }

  /** The body of PUT /api/cryptocurrencies/:id; an absent field is `None`. */
  datatype InfoRequest = InfoRequest(
    name: Option<string>, symbol: Option<string>,
    currentPrice: Option<real>, availableSupply: Option<real>,
    description: Option<string>, imageUrl: Option<string>)

  /** Each field is overwritten only by a truthy value, and `lastUpdated`
      always becomes the clock reading. */
  function MergeInfo(c: Cryptocurrency, q: InfoRequest, now: Date): Cryptocurrency
  {
    Cryptocurrency(
      if Truthy(q.name) then q.name.value else c.name,
      if Truthy(q.symbol) then q.symbol.value else c.symbol,
      if TruthyNumber(q.currentPrice) then q.currentPrice.value else c.currentPrice,
      if TruthyNumber(q.availableSupply) then q.availableSupply.value else c.availableSupply,
      if Truthy(q.description) then q.description else c.description,
      if Truthy(q.imageUrl) then q.imageUrl else c.imageUrl,
      now)
  }

  /** A field changes only to a truthy value sent for it, a truthy value
      always lands, and the timestamp is refreshed even by an empty body. */
  lemma MergeInfoFields(c: Cryptocurrency, q: InfoRequest, now: Date)
    ensures var d := MergeInfo(c, q, now);
      && (d.name != c.name ==> Truthy(q.name) && d.name == q.name.value)
      && (Truthy(q.name) ==> d.name == q.name.value)
      && (d.symbol != c.symbol ==> Truthy(q.symbol) && d.symbol == q.symbol.value)
      && (Truthy(q.symbol) ==> d.symbol == q.symbol.value)
      && (d.currentPrice != c.currentPrice ==> TruthyNumber(q.currentPrice) && d.currentPrice == q.currentPrice.value)
      && (TruthyNumber(q.currentPrice) ==> d.currentPrice == q.currentPrice.value)
      && (d.availableSupply != c.availableSupply ==> TruthyNumber(q.availableSupply) && d.availableSupply == q.availableSupply.value)
      && (TruthyNumber(q.availableSupply) ==> d.availableSupply == q.availableSupply.value)
      && (d.description != c.description ==> Truthy(q.description) && d.description == q.description)
      && (Truthy(q.description) ==> d.description == q.description)
      && (d.imageUrl != c.imageUrl ==> Truthy(q.imageUrl) && d.imageUrl == q.imageUrl)
      && (Truthy(q.imageUrl) ==> d.imageUrl == q.imageUrl)
      && d.lastUpdated == now
    ensures MergeInfo(c, InfoRequest(None, None, None, None, None, None), now) == c.(lastUpdated := now)
  {
  }

  /** The supply or the price cannot be set to 0 through this route: a 0
      is falsy and keeps the old value. */
  lemma ZeroIsIgnored(c: Cryptocurrency, now: Date)
    ensures MergeInfo(c, InfoRequest(None, None, Some(0.0), Some(0.0), Some(""), Some("")), now) == c.(lastUpdated := now)
  {
  }

  /** PUT /api/cryptocurrencies/:id. */
  method UpdateInfo(ex: Exchange, id: CryptoId, q: InfoRequest, now: Date)
    returns (r: Result<Cryptocurrency, RouteFailure>)
    requires ex.Valid()
    modifies ex
    ensures ex.Valid()
    ensures id !in old(ex.catalog) ==> r == Err(CryptoNotFound) && unchanged(ex)
    ensures id in old(ex.catalog) ==>
      && r == Ok(MergeInfo(old(ex.catalog[id]), q, now))
      && ex.catalog == old(ex.catalog)[id := r.value]
    ensures ex.users == old(ex.users) && ex.trades == old(ex.trades) && ex.nextCryptoId == old(ex.nextCryptoId)
  {
    if id !in ex.catalog {
      return Err(CryptoNotFound);
    }
    var c := ex.catalog[id];
    if Truthy(q.name) { c := c.(name := q.name.value); }
    if Truthy(q.symbol) { c := c.(symbol := q.symbol.value); }
    if TruthyNumber(q.currentPrice) { c := c.(currentPrice := q.currentPrice.value); }
    if TruthyNumber(q.availableSupply) { c := c.(availableSupply := q.availableSupply.value); }
    if Truthy(q.description) { c := c.(description := q.description); }
    if Truthy(q.imageUrl) { c := c.(imageUrl := q.imageUrl); }
    c := c.(lastUpdated := now);
    ex.catalog := ex.catalog[id := c];
    r := Ok(c);
  }
}
