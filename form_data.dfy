/**
 * The amounts the client sends in its request forms. An amount in coins is sent as a
 * whole number of satoshis: multiplied by 100000000, cut toward zero by the `(long)`
 * conversion, and written in decimal. Two fields of the automated-bets form convert to
 * `long` before multiplying, which drops every fractional coin and wraps the product at
 * 64 bits (`WholeCoinField`); the automated-bets form is built that way, as written, and
 * `StakeFields` is the all-satoshi form those two fields evidently meant.
 */
module FormData {
  import opened Wrappers
  import opened Clr
  import opened Money
  import Json
  import Settings

  /** A request form: field names and values (a value may be null). */
  type Form = seq<(string, Option<string>)>

  /** `((long)(x * 100000000)).ToString()`: the amount in satoshis, truncated toward zero; too large an amount overflows. */
  function SatoshiField(x: real): (r: Result<string, Exception>)
    ensures r.Success? <==> MinInt64 <= TruncateToInteger(x * 100000000.0) <= MaxInt64
    ensures r.Failure? ==> r.error == OverflowException
  {
    var n :- CastToInt64(x * 100000000.0);
    Success(DecimalString(n))
  }

  /**
   * The server reads a satoshi field back, with the rule the client itself uses for
   * amounts in answers, as the amount cut to whole satoshis: so an aligned amount arrives
   * unchanged.
   */
  lemma SatoshiFieldRoundTrip(x: real)
    requires SatoshiField(x).Success?
    ensures Json.Satoshis(Json.Text(SatoshiField(x).value)) == Success(TruncateSatoshis(x))
    ensures IsSatoshiAligned(x) ==> Json.Satoshis(Json.Text(SatoshiField(x).value)) == Success(x)
  {
    var n := TruncateToInteger(x * 100000000.0);
    DecimalStringRoundTrip(n);
    assert Json.ToDecimal(Json.Text(DecimalString(n))) == Success(n as real);
    if x < 0.0 {
      assert x * -100000000.0 == -(x * 100000000.0);
      assert n as real / 100000000.0 == (-n) as real / -100000000.0;
    }
    TruncateSatoshisSpec(x);
  }

  /** A whole number of coins, as the satoshi count of an unchecked 64-bit product reads back. */
  function WholeCoinsRead(x: real): real
  {
    Wrap64(TruncateToInteger(x) * 100000000) as real / 100000000.0
  }

  /**
   * `((long)x * 100000000).ToString()`, as lines 248-249 of the automated-bets form write
   * it: the amount is cut to whole coins first, and the product is unchecked 64-bit. The
   * server reads back the whole coins, wrapped.
   */
  function WholeCoinField(x: real): (r: Result<string, Exception>)
    ensures r.Success? <==> MinInt64 <= TruncateToInteger(x) <= MaxInt64
    ensures r.Failure? ==> r.error == OverflowException
    ensures r.Success? ==> Json.Satoshis(Json.Text(r.value)) == Success(WholeCoinsRead(x))
  {
    var n :- CastToInt64(x);
    var m := Wrap64(n * 100000000);
    DecimalStringRoundTrip(m);
    assert Json.ToDecimal(Json.Text(DecimalString(m))) == Success(m as real);
    Success(DecimalString(m))
  }

  /** On a whole number of coins whose satoshi count fits, the two conversions send the same text. */
  lemma WholeCoinFieldAgreesOnWholeCoins(x: real)
    requires x == x.Floor as real
    requires SatoshiField(x).Success?
    ensures WholeCoinField(x) == SatoshiField(x)
  {
    assert TruncateToInteger(x) == x.Floor;
    assert TruncateToInteger(x * 100000000.0) == x.Floor * 100000000;
  }

  /**
   * Where the two conversions part: a starting stake of half a coin is sent by
   * `WholeCoinField` as 0 satoshis, while `SatoshiField` sends the 50000000 satoshis meant.
   */
  lemma WholeCoinFieldDropsFraction()
    ensures WholeCoinField(-0.5) == Success(DecimalString(0))
    ensures Json.Satoshis(Json.Text(WholeCoinField(-0.5).value)) == Success(0.0)
    ensures SatoshiField(-0.5) == Success(DecimalString(-50000000))
    ensures Json.Satoshis(Json.Text(SatoshiField(-0.5).value)) == Success(-0.5)
  {
    assert TruncateToInteger(-0.5) == 0;
    assert TruncateToInteger(-0.5 * 100000000.0) == -50000000;
    DecimalStringRoundTrip(0);
    assert Json.ToDecimal(Json.Text(DecimalString(0))) == Success(0.0);
    SatoshiFieldRoundTrip(-0.5);
    assert TruncateSatoshis(-0.5) == -0.5 by {
      assert (-0.5 * -100000000.0).Floor == 50000000;
    }
  }

  /** The form of a single bet: the stake in satoshis and the two ends of the range. */
  function PlaceBetForm(sessionCookie: Option<string>, payIn: real, guessLow: Int64, guessHigh: Int64): (r: Result<Form, Exception>)
    ensures r.Success? <==> SatoshiField(payIn).Success?
    ensures r.Success? ==> |r.value| == 5 && r.value[2] == ("PayIn", Some(SatoshiField(payIn).value))
  {
    var payInField :- SatoshiField(payIn);
    Success([("a", Some("PlaceBet")), ("s", sessionCookie), ("PayIn", Some(payInField)),
             ("Low", Some(DecimalString(guessLow))), ("High", Some(DecimalString(guessHigh)))])
  }

  /** The form of a withdrawal: the amount in satoshis (0 withdraws everything) and the address. */
  function WithdrawForm(sessionCookie: Option<string>, amount: real, address: Option<string>): (r: Result<Form, Exception>)
    ensures r.Success? <==> SatoshiField(amount).Success?
    ensures r.Success? ==> |r.value| == 4 && r.value[2] == ("Amount", Some(SatoshiField(amount).value))
  {
    var amountField :- SatoshiField(amount);
    Success([("a", Some("Withdraw")), ("s", sessionCookie), ("Amount", Some(amountField)), ("Address", address)])
  }

  /** The five amounts of an automated batch, in form order. */
  datatype StakeAmounts = StakeAmounts(basePayIn: real, maxPayIn: real, stopMaxBalance: real, stopMinBalance: real, startingPayIn: real)

  function StakeAmountsOf(settings: Settings.AutomatedBetsSettings): StakeAmounts
    reads settings
  {
    StakeAmounts(settings.BasePayIn(), settings.MaxAllowedPayIn(), settings.StopMaxBalance, settings.StopMinBalance, settings.StartingPayIn())
  }

  /** A form field that the server reads back as `amount` cut to satoshis. */
  predicate CarriesAmount(field: (string, Option<string>), name: string, amount: real)
  {
    field.0 == name && field.1.Some? && Json.Satoshis(Json.Text(field.1.value)) == Success(TruncateSatoshis(amount))
  }

  /** One amount field, in satoshis. */
  function AmountField(name: string, amount: real): (r: Result<(string, Option<string>), Exception>)
    ensures r.Success? <==> SatoshiField(amount).Success?
    ensures r.Failure? ==> r.error == OverflowException
    ensures r.Success? ==> CarriesAmount(r.value, name, amount)
  {
    var text :- SatoshiField(amount);
    SatoshiFieldRoundTrip(amount);
    Success((name, Some(text)))
  }

  /** A form field that the server reads back as `amount` cut to whole coins, wrapped at 64 bits. */
  predicate CarriesWholeCoins(field: (string, Option<string>), name: string, amount: real)
  {
    field.0 == name && field.1.Some? && Json.Satoshis(Json.Text(field.1.value)) == Success(WholeCoinsRead(amount))
  }

  /** One amount field, in whole coins. */
  function WholeCoinAmountField(name: string, amount: real): (r: Result<(string, Option<string>), Exception>)
    ensures r.Success? <==> WholeCoinField(amount).Success?
    ensures r.Failure? ==> r.error == OverflowException
    ensures r.Success? ==> CarriesWholeCoins(r.value, name, amount)
  {
    var text :- WholeCoinField(amount);
    Success((name, Some(text)))
  }

  /**
   * The amount fields of the automated-bets form as written, in form order: the first
   * three in satoshis, the last two cut to whole coins first. It fails only on overflow.
   */
  function StakeFieldsAsWritten(a: StakeAmounts): (r: Result<Form, Exception>)
    ensures r.Success? <==> (SatoshiField(a.basePayIn).Success? && SatoshiField(a.maxPayIn).Success? && SatoshiField(a.stopMaxBalance).Success?
      && WholeCoinField(a.stopMinBalance).Success? && WholeCoinField(a.startingPayIn).Success?)
    ensures r.Failure? ==> r.error == OverflowException
    ensures r.Success? ==> (|r.value| == 5
      && CarriesAmount(r.value[0], "BasePayIn", a.basePayIn) && CarriesAmount(r.value[1], "MaxPayIn", a.maxPayIn)
      && CarriesAmount(r.value[2], "StopMaxBalance", a.stopMaxBalance)
      && CarriesWholeCoins(r.value[3], "StopMinBalance", a.stopMinBalance)
      && CarriesWholeCoins(r.value[4], "StartingPayIn", a.startingPayIn))
  {
    var basePayIn :- AmountField("BasePayIn", a.basePayIn);
    var maxPayIn :- AmountField("MaxPayIn", a.maxPayIn);
    var stopMaxBalance :- AmountField("StopMaxBalance", a.stopMaxBalance);
    var stopMinBalance :- WholeCoinAmountField("StopMinBalance", a.stopMinBalance);
    var startingPayIn :- WholeCoinAmountField("StartingPayIn", a.startingPayIn);
    Success([basePayIn, maxPayIn, stopMaxBalance, stopMinBalance, startingPayIn])
  }

  /** As written, the starting stake -0.5 reaches the server as 0, so the server and the replay start from different stakes. */
  lemma StakeFieldsAsWrittenLoseStartingStake()
    ensures var r := StakeFieldsAsWritten(StakeAmounts(-1.0, 0.0, 0.0, 0.0, -0.5));
      r.Success? && Json.Satoshis(Json.Text(r.value[4].1.value)) == Success(0.0)
  {
    WholeCoinFieldDropsFraction();
    assert TruncateToInteger(-1.0 * 100000000.0) == -100000000;
    assert TruncateToInteger(0.0 * 100000000.0) == 0;
  }

  /**
   * The fields as written, with 100000000000 coins as the lowest balance: the whole-coin
   * product wraps at 64 bits and the server reads a negative balance, where the satoshi
   * conversion refuses the amount with an `OverflowException`.
   */
  lemma StakeFieldsAsWrittenWrapStopMinBalance()
    ensures var r := StakeFieldsAsWritten(StakeAmounts(0.0, 0.0, 0.0, 100000000000.0, 0.0));
      r.Success? && Json.Satoshis(Json.Text(r.value[3].1.value)).value < 0.0
    ensures StakeFields(StakeAmounts(0.0, 0.0, 0.0, 100000000000.0, 0.0)) == Failure(OverflowException)
  {
    assert TruncateToInteger(0.0 * 100000000.0) == 0;
    assert TruncateToInteger(100000000000.0) == 100000000000;
    assert TruncateToInteger(100000000000.0 * 100000000.0) == 10000000000000000000;
  }

  /**
   * The amount fields of the automated-bets form, every one in satoshis. It fails only on
   * overflow, and the server reads each field back as its amount cut to satoshis.
   */
  function StakeFields(a: StakeAmounts): (r: Result<Form, Exception>)
    ensures r.Success? <==> (SatoshiField(a.basePayIn).Success? && SatoshiField(a.maxPayIn).Success? && SatoshiField(a.stopMaxBalance).Success?
      && SatoshiField(a.stopMinBalance).Success? && SatoshiField(a.startingPayIn).Success?)
    ensures r.Failure? ==> r.error == OverflowException
    ensures r.Success? ==> (|r.value| == 5
      && CarriesAmount(r.value[0], "BasePayIn", a.basePayIn) && CarriesAmount(r.value[1], "MaxPayIn", a.maxPayIn)
      && CarriesAmount(r.value[2], "StopMaxBalance", a.stopMaxBalance) && CarriesAmount(r.value[3], "StopMinBalance", a.stopMinBalance)
      && CarriesAmount(r.value[4], "StartingPayIn", a.startingPayIn))
  {
    var basePayIn :- AmountField("BasePayIn", a.basePayIn);
    var maxPayIn :- AmountField("MaxPayIn", a.maxPayIn);
    var stopMaxBalance :- AmountField("StopMaxBalance", a.stopMaxBalance);
    var stopMinBalance :- AmountField("StopMinBalance", a.stopMinBalance);
    var startingPayIn :- AmountField("StartingPayIn", a.startingPayIn);
    Success([basePayIn, maxPayIn, stopMaxBalance, stopMinBalance, startingPayIn])
  }

  /**
   * The two forms differ only where a whole-coin amount has a fraction: with whole-coin
   * lowest balance and starting stake, the fields as written are the satoshi fields.
   */
  lemma StakeFieldsAgreeOnWholeCoins(a: StakeAmounts)
    requires a.stopMinBalance == a.stopMinBalance.Floor as real && a.startingPayIn == a.startingPayIn.Floor as real
    requires StakeFields(a).Success?
    ensures StakeFieldsAsWritten(a) == StakeFields(a)
  {
    WholeCoinFieldAgreesOnWholeCoins(a.stopMinBalance);
    WholeCoinFieldAgreesOnWholeCoins(a.startingPayIn);
  }
}
