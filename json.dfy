/**
 * The decoded JSON answer of the server, and the `Convert` and cast operations the response
 * decoders apply to its values. A JSON object is a `map<string, Value>`; numbers are the
 * integers the server sends (amounts are whole satoshis).
 */
module Json {
  import opened Wrappers
  import opened Clr
  import Money

  datatype Value =
    | Null
    | Bool(b: bool)
    | Number(n: int)
    | Text(s: string)
    | Object(fields: map<string, Value>)

  type JsonObject = map<string, Value>

  /** The largest `decimal`, 2^96 - 1. */
  const MaxDecimal: int := 0xFFFF_FFFF_FFFF_FFFF_FFFF_FFFF

  /** A string holding a plain decimal integer, as `long.Parse` reads it. */
  function ParseInteger(s: string): (r: Result<int, Exception>)
    ensures r.Success? <==> IsDecimalString(s)
    ensures r.Success? ==> r.value == DecimalValue(s)
    ensures r.Failure? ==> r.error == FormatException
  {
    if IsDecimalString(s) then Success(DecimalValue(s)) else Failure(FormatException)
  }

  /** `Convert.ToInt64(object)`: null is 0, a Boolean 1 or 0, a number or numeric string must fit in 64 bits. */
  function ToInt64(v: Value): (r: Result<Int64, Exception>)
    ensures v.Null? ==> r == Success(0)
    ensures v.Number? ==> (r.Success? <==> MinInt64 <= v.n <= MaxInt64) && (r.Success? ==> r.value == v.n)
    ensures v.Number? && r.Failure? ==> r.error == OverflowException
    ensures v.Object? ==> r == Failure(InvalidCastException)
  {
    match v
    case Null => Success(0)
    case Bool(b) => Success(if b then 1 else 0)
    case Number(n) => if MinInt64 <= n <= MaxInt64 then Success(n) else Failure(OverflowException)
    case Text(s) =>
      var n :- ParseInteger(s);
      if MinInt64 <= n <= MaxInt64 then Success(n) else Failure(OverflowException)
    case Object(_) => Failure(InvalidCastException)
  }

  /** `Convert.ToInt32(object)`: as `ToInt64`, within 32 bits. */
  function ToInt32(v: Value): (r: Result<Int32, Exception>)
    ensures v.Null? ==> r == Success(0)
    ensures v.Number? ==> (r.Success? <==> MinInt32 <= v.n <= MaxInt32) && (r.Success? ==> r.value == v.n)
    ensures v.Number? && r.Failure? ==> r.error == OverflowException
    ensures v.Object? ==> r == Failure(InvalidCastException)
  {
    match v
    case Null => Success(0)
    case Bool(b) => Success(if b then 1 else 0)
    case Number(n) => if MinInt32 <= n <= MaxInt32 then Success(n) else Failure(OverflowException)
    case Text(s) =>
      var n :- ParseInteger(s);
      if MinInt32 <= n <= MaxInt32 then Success(n) else Failure(OverflowException)
    case Object(_) => Failure(InvalidCastException)
  }

  /** `Convert.ToDecimal(object)`: as `ToInt64`, within the range of `decimal`. */
  function ToDecimal(v: Value): (r: Result<real, Exception>)
    ensures v.Null? ==> r == Success(0.0)
    ensures v.Number? ==> (r.Success? <==> -MaxDecimal <= v.n <= MaxDecimal) && (r.Success? ==> r.value == v.n as real)
    ensures v.Object? ==> r == Failure(InvalidCastException)
  {
    match v
    case Null => Success(0.0)
    case Bool(b) => Success(if b then 1.0 else 0.0)
    case Number(n) => if -MaxDecimal <= n <= MaxDecimal then Success(n as real) else Failure(OverflowException)
    case Text(s) =>
      var n :- ParseInteger(s);
      if -MaxDecimal <= n <= MaxDecimal then Success(n as real) else Failure(OverflowException)
    case Object(_) => Failure(InvalidCastException)
  }

  /** The `(string)` cast: null stays null, a string is itself, anything else is an InvalidCastException. */
  function StringCast(v: Value): (r: Result<Option<string>, Exception>)
    ensures r.Success? <==> v.Null? || v.Text?
    ensures v.Text? ==> r == Success(Some(v.s))
    ensures v.Null? ==> r == Success(None)
    ensures r.Failure? ==> r.error == InvalidCastException
  {
    match v
    case Null => Success(None)
    case Text(s) => Success(Some(s))
    case _ => Failure(InvalidCastException)
  }

  /** `as IDictionary<string, object>`: the object, or null for any other value. */
  function AsObject(v: Value): (r: Option<JsonObject>)
    ensures r.Some? <==> v.Object?
    ensures v.Object? ==> r.value == v.fields
  {
    if v.Object? then Some(v.fields) else None
  }

  /** An amount sent as satoshis, read as coins: the decimal value divided by 100000000. */
  function Satoshis(v: Value): (r: Result<real, Exception>)
    ensures r.Success? <==> ToDecimal(v).Success?
    ensures r.Success? ==> r.value * 100000000.0 == ToDecimal(v).value
  {
    var d :- ToDecimal(v);
    Success(d / 100000000.0)
  }

  /** A wire integer read as coins is a whole number of satoshis, and scales back to the same integer. */
  lemma SatoshisOfInteger(n: int)
    requires -MaxDecimal <= n <= MaxDecimal
    ensures Satoshis(Number(n)) == Success(n as real / 100000000.0)
    ensures Money.IsSatoshiAligned(Satoshis(Number(n)).value)
  {
    Money.SatoshiCount(n);
  }
}
