/** Small vocabulary shared by both ledgers: optional request fields, results,
    the calendar reading a handler is given, JavaScript truthiness and the
    ASCII part of String.prototype.toUpperCase. */
module Common {

  /** A request field or a store lookup that may be absent. */
  datatype Option<T> = None | Some(value: T)

  /** A handler's answer: the value it sends back, or the reason it refused. */
  datatype Result<T, E> = Ok(value: T) | Err(error: E)

  /** The clock reading (`Date.now`) a handler is given; grouping only needs
      the calendar year and month. */
  datatype Date = Date(year: int, month: int, day: int)

  type UserId = nat

  /** JavaScript `a / b` on exact numbers: `None` stands for the NaN or
      Infinity the source gets when `b` is 0. */
  function Quotient(a: real, b: real): (q: Option<real>)
    ensures q.Some? <==> b != 0.0
    ensures q.Some? ==> q.value * b == a
  {
    if b == 0.0 then None else Some(a / b)
  }

  /** `price * amount`: what a trade of `amount` units at `price` is worth. */
  function Total(price: real, amount: real): real
  {
    price * amount
  }

  /** `if (s)` on an optional string: present and not empty. */
  predicate Truthy(s: Option<string>)
  {
    s.Some? && s.value != ""
  }

  /** `if (x)` on an optional number: present and not zero. */
  predicate TruthyNumber(x: Option<real>)
  {
    x.Some? && x.value != 0.0
  }

  predicate IsUpperChar(c: char)
  {
    !('a' <= c <= 'z')
  }

  function UpperChar(c: char): (u: char)
    ensures IsUpperChar(u)
    ensures IsUpperChar(c) ==> u == c
  {
    if 'a' <= c <= 'z' then (c as int - 32) as char else c
  }

  predicate IsUpper(s: string)
  {
    forall i :: 0 <= i < |s| ==> IsUpperChar(s[i])
  }

  /** `s.toUpperCase()` restricted to the ASCII letters. */
  function ToUpper(s: string): (r: string)
    ensures |r| == |s|
    ensures forall i :: 0 <= i < |s| ==> r[i] == UpperChar(s[i])
  {
    if s == [] then [] else [UpperChar(s[0])] + ToUpper(s[1..])
  }

  /** Upper-casing yields an upper-case key, and a key already in upper case
      is left alone; so the wallet key of `btc` and of `BTC` is the same. */
  lemma ToUpperNormalizes(s: string)
    ensures IsUpper(ToUpper(s))
    ensures ToUpper(ToUpper(s)) == ToUpper(s)
    ensures IsUpper(s) ==> ToUpper(s) == s
  {
  }
}
