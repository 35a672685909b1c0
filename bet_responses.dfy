/**
 * The answers to a single bet and to an automated batch. Both first look for a rejection
 * flag, in a fixed order, and otherwise decode the bet only when every field it needs is
 * present. A batch arrives compact: one bet id, the bet count and the totals; the per-bet
 * arrays are allocated here and filled in later by the batch replay.
 */
module BetResponses {
  import opened Wrappers
  import opened Clr
  import opened Json
  import opened ResponseBase

  /** Why the server refused a bet, in the order the decoders test for it. */
  datatype BetRejection = ChanceTooHigh | ChanceTooLow | InsufficientFunds | NoPossibleProfit | MaxPayoutExceeded

  function RejectionKey(f: BetRejection): string
  {
    match f
    case ChanceTooHigh => "ChanceTooHigh"
    case ChanceTooLow => "ChanceTooLow"
    case InsufficientFunds => "InsufficientFunds"
    case NoPossibleProfit => "NoPossibleProfit"
    case MaxPayoutExceeded => "MaxPayoutExceeded"
  }

  /** The position of a rejection in the order of the tests. */
  function Rank(f: BetRejection): nat
  {
    match f
    case ChanceTooHigh => 0
    case ChanceTooLow => 1
    case InsufficientFunds => 2
    case NoPossibleProfit => 3
    case MaxPayoutExceeded => 4
  }

  /**
   * The rejection the decoders record: the first, in test order, whose key is present.
   * There is none exactly when no rejection key is present.
   */
  function FirstRejection(resp: JsonObject): (r: Option<BetRejection>)
    ensures r.None? ==> forall f: BetRejection :: RejectionKey(f) !in resp
    ensures r.Some? ==> RejectionKey(r.value) in resp
    ensures r.Some? ==> forall f: BetRejection :: Rank(f) < Rank(r.value) ==> RejectionKey(f) !in resp
  {
    if "ChanceTooHigh" in resp then Some(ChanceTooHigh)
    else if "ChanceTooLow" in resp then Some(ChanceTooLow)
    else if "InsufficientFunds" in resp then Some(InsufficientFunds)
    else if "NoPossibleProfit" in resp then Some(NoPossibleProfit)
    else if "MaxPayoutExceeded" in resp then Some(MaxPayoutExceeded)
    else None
  }

  /** The five rejection flags of a bet response. */
  datatype BetFlags = BetFlags(chanceTooHigh: bool, chanceTooLow: bool, insufficientFunds: bool, noPossibleProfit: bool, maxPayoutExceeded: bool)

  function Flag(flags: BetFlags, f: BetRejection): bool
  {
    match f
    case ChanceTooHigh => flags.chanceTooHigh
    case ChanceTooLow => flags.chanceTooLow
    case InsufficientFunds => flags.insufficientFunds
    case NoPossibleProfit => flags.noPossibleProfit
    case MaxPayoutExceeded => flags.maxPayoutExceeded
  }

  /** The flags a recorded rejection sets: that one flag, or none; so at most one flag is ever set. */
  function FlagsOf(r: Option<BetRejection>): (flags: BetFlags)
    ensures forall f :: Flag(flags, f) <==> r == Some(f)
  {
    BetFlags(r == Some(ChanceTooHigh), r == Some(ChanceTooLow), r == Some(InsufficientFunds),
      r == Some(NoPossibleProfit), r == Some(MaxPayoutExceeded))
  }

  const NoFlags: BetFlags := BetFlags(false, false, false, false, false)

  // ---------------------------------------------------------------------------
  // PlaceBetResponse

  /** The fields of a single bet as the server reports them. */
  datatype BetFields = BetFields(betId: Int64, payOut: real, secret: Int64, startingBalance: real, serverSeed: Option<string>)

  const NoBet: BetFields := BetFields(0, 0.0, 0, 0.0, None)

  predicate HasBetKeys(resp: JsonObject)
  {
    "BetId" in resp && "PayOut" in resp && "Secret" in resp && "StartingBalance" in resp && "ServerSeed" in resp
  }

  /** The bet fields, converted in the order the decoder reads them; amounts are read as satoshis. */
  function DecodeBetFields(resp: JsonObject): (r: Result<BetFields, Exception>)
    requires HasBetKeys(resp)
    ensures r.Success? <==> (ToInt64(resp["BetId"]).Success? && Satoshis(resp["PayOut"]).Success? && ToInt64(resp["Secret"]).Success?
      && Satoshis(resp["StartingBalance"]).Success? && StringCast(resp["ServerSeed"]).Success?)
    ensures r.Success? ==> r.value.payOut * 100000000.0 == ToDecimal(resp["PayOut"]).value
    ensures r.Success? ==> r.value.startingBalance * 100000000.0 == ToDecimal(resp["StartingBalance"]).value
    ensures r.Success? ==> r.value.betId == ToInt64(resp["BetId"]).value && r.value.secret == ToInt64(resp["Secret"]).value
  {
    var betId :- ToInt64(resp["BetId"]);
    var payOut :- Satoshis(resp["PayOut"]);
    var secret :- ToInt64(resp["Secret"]);
    var startingBalance :- Satoshis(resp["StartingBalance"]);
    var serverSeed :- StringCast(resp["ServerSeed"]);
    Success(BetFields(betId, payOut, secret, startingBalance, serverSeed))
  }

  datatype BetView = BetView(base: BaseFields, flags: BetFlags, bet: BetFields)

  const FreshBet: BetView := BetView(FreshBase, NoFlags, NoBet)

  /**
   * The decoding of a bet answer into a new response. It succeeds when the message cast and,
   * if the bet is decoded, its conversions succeed. The bet is decoded exactly when no
   * rejection key is present and all five bet keys are; success is then set, and otherwise
   * success comes only from the generic "success" key.
   */
  function DecodeBet(resp: JsonObject): (r: Result<BetView, Exception>)
    ensures r.Success? <==> DecodeBase(resp).Success? && (FirstRejection(resp).None? && HasBetKeys(resp) ==> DecodeBetFields(resp).Success?)
    ensures r.Success? ==> r.value.flags == FlagsOf(FirstRejection(resp))
    ensures r.Success? ==> (r.value.base.success <==> "success" in resp || (FirstRejection(resp).None? && HasBetKeys(resp)))
    ensures r.Success? && FirstRejection(resp).None? && HasBetKeys(resp) ==> r.value.bet == DecodeBetFields(resp).value
    ensures r.Success? && !(FirstRejection(resp).None? && HasBetKeys(resp)) ==> r.value.bet == NoBet
  {
    var base :- DecodeBase(resp);
    var rejection := FirstRejection(resp);
    if rejection.None? && HasBetKeys(resp) then
      var bet :- DecodeBetFields(resp);
      Success(BetView(base.(success := true), NoFlags, bet))
    else
      Success(BetView(base, FlagsOf(rejection), NoBet))
  }

  /** `DecodeBet`, one outcome per path of the decoder. */
  lemma DecodeBetPaths(resp: JsonObject)
    ensures DecodeBase(resp).Failure? ==> DecodeBet(resp) == Failure(DecodeBase(resp).error)
    ensures DecodeBase(resp).Success? && !(FirstRejection(resp).None? && HasBetKeys(resp))
      ==> DecodeBet(resp) == Success(BetView(DecodeBase(resp).value, FlagsOf(FirstRejection(resp)), NoBet))
    ensures DecodeBase(resp).Success? && FirstRejection(resp).None? && HasBetKeys(resp) && DecodeBetFields(resp).Failure?
      ==> DecodeBet(resp) == Failure(DecodeBetFields(resp).error)
    ensures DecodeBase(resp).Success? && FirstRejection(resp).None? && HasBetKeys(resp) && DecodeBetFields(resp).Success?
      ==> DecodeBet(resp) == Success(BetView(DecodeBase(resp).value.(success := true), NoFlags, DecodeBetFields(resp).value))
  {
  }

  class PlaceBetResponse {
    var Success: bool
    var ErrorMessage: Option<string>
    var RateLimited: bool
    var TotpFailure: bool
    var ChanceTooHigh: bool
    var ChanceTooLow: bool
    var InsufficientFunds: bool
    var NoPossibleProfit: bool
    var MaxPayoutExceeded: bool
    var BetId: Int64
    var PayOut: real
    var Secret: Int64
    var StartingBalance: real
    var ServerSeed: Option<string>

    function View(): BetView
      reads this
    {
      BetView(BaseFields(Success, ErrorMessage, RateLimited, TotpFailure),
        BetFlags(ChanceTooHigh, ChanceTooLow, InsufficientFunds, NoPossibleProfit, MaxPayoutExceeded),
        BetFields(BetId, PayOut, Secret, StartingBalance, ServerSeed))
    }

    constructor()
      ensures View() == FreshBet
    {
      Success, ErrorMessage, RateLimited, TotpFailure := false, None, false, false;
      ChanceTooHigh, ChanceTooLow, InsufficientFunds, NoPossibleProfit, MaxPayoutExceeded := false, false, false, false, false;
      BetId, PayOut, Secret, StartingBalance, ServerSeed := 0, 0.0, 0, 0.0, None;
    }

    /**
     * Decodes the answer into this new response. An exception from a cast or conversion
     * leaves the decoder (the response is then discarded); otherwise the response holds
     * `DecodeBet(resp)`.
     */
    method SetRawResponse(resp: JsonObject) returns (thrown: Option<Exception>)
      requires View() == FreshBet
      modifies this
      ensures thrown.None? ==> DecodeBet(resp) == Result.Success(View())
      ensures thrown.Some? ==> DecodeBet(resp) == Failure(thrown.value)
    {
      DecodeBetPaths(resp);
      var base := DecodeBase(resp);
      if base.Failure? {
        return Some(base.error);
      }
      SetBase(base.value);
      var rejected := RecordRejection(resp);
      if !rejected && HasBetKeys(resp) {
        Success := true;
        var bet := DecodeBetFields(resp);
        if bet.Failure? {
          return Some(bet.error);
        }
        SetBet(bet.value);
      }
      return None;
    }

    /** Records the common fields. */
    method SetBase(base: BaseFields)
      modifies this
      ensures View() == old(View()).(base := base)
    {
      Success, ErrorMessage, RateLimited, TotpFailure := base.success, base.errorMessage, base.rateLimited, base.totpFailure;
    }

    /** Records the bet. */
    method SetBet(bet: BetFields)
      modifies this
      ensures View() == old(View()).(bet := bet)
    {
      BetId, PayOut, Secret, StartingBalance, ServerSeed := bet.betId, bet.payOut, bet.secret, bet.startingBalance, bet.serverSeed;
    }

    /** The rejection tests, in order: the first rejection key present sets its flag. */
    method RecordRejection(resp: JsonObject) returns (rejected: bool)
      requires View().flags == NoFlags
      modifies this
      ensures rejected <==> FirstRejection(resp).Some?
      ensures View() == old(View()).(flags := FlagsOf(FirstRejection(resp)))
    {
      rejected := true;
      if "ChanceTooHigh" in resp {
        ChanceTooHigh := true;
      } else if "ChanceTooLow" in resp {
        ChanceTooLow := true;
      } else if "InsufficientFunds" in resp {
        InsufficientFunds := true;
      } else if "NoPossibleProfit" in resp {
        NoPossibleProfit := true;
      } else if "MaxPayoutExceeded" in resp {
        MaxPayoutExceeded := true;
      } else {
        rejected := false;
      }
    }
  }

  // ---------------------------------------------------------------------------
  // PlaceAutomatedBetsResponse

  /** The compact batch summary: one bet id, the number of bets, the seed and the totals. */
  datatype BatchFields = BatchFields(betId: Int64, betCount: Int32, serverSeed: Option<string>, totalPayIn: real, totalPayOut: real, startingBalance: real)

  predicate HasBatchKeys(resp: JsonObject)
  {
    "BetId" in resp && "PayIn" in resp && "PayOut" in resp && "Seed" in resp && "BetCount" in resp && "StartingBalance" in resp
  }

  /**
   * The batch summary, converted in the order the decoder reads it. A negative bet count
   * fails when the id array is built, with an ArgumentOutOfRangeException.
   */
  function DecodeBatchFields(resp: JsonObject): (r: Result<BatchFields, Exception>)
    requires HasBatchKeys(resp)
    ensures r.Success? <==> (ToInt64(resp["BetId"]).Success? && ToInt32(resp["BetCount"]).Success?
      && StringCast(resp["Seed"]).Success? && Satoshis(resp["PayIn"]).Success? && Satoshis(resp["PayOut"]).Success?
      && Satoshis(resp["StartingBalance"]).Success? && ToInt32(resp["BetCount"]).value >= 0)
    ensures r.Success? ==> r.value.betCount >= 0
    ensures r.Success? ==> r.value.betId == ToInt64(resp["BetId"]).value && r.value.betCount == ToInt32(resp["BetCount"]).value
    ensures r.Success? ==> r.value.totalPayIn * 100000000.0 == ToDecimal(resp["PayIn"]).value
    ensures r.Success? ==> r.value.totalPayOut * 100000000.0 == ToDecimal(resp["PayOut"]).value
    ensures r.Success? ==> r.value.startingBalance * 100000000.0 == ToDecimal(resp["StartingBalance"]).value
    ensures ToInt64(resp["BetId"]).Success? && ToInt32(resp["BetCount"]).Success? && ToInt32(resp["BetCount"]).value < 0
      && StringCast(resp["Seed"]).Success? && Satoshis(resp["PayIn"]).Success? && Satoshis(resp["PayOut"]).Success?
      && Satoshis(resp["StartingBalance"]).Success?
      ==> r == Failure(ArgumentOutOfRangeException)
  {
    var betId :- ToInt64(resp["BetId"]);
    var betCount :- ToInt32(resp["BetCount"]);
    var serverSeed :- StringCast(resp["Seed"]);
    var totalPayIn :- Satoshis(resp["PayIn"]);
    var totalPayOut :- Satoshis(resp["PayOut"]);
    var startingBalance :- Satoshis(resp["StartingBalance"]);
    if betCount < 0 then Failure(ArgumentOutOfRangeException)
    else Success(BatchFields(betId, betCount, serverSeed, totalPayIn, totalPayOut, startingBalance))
  }

  /** A batch response, with each per-bet array as its contents, or `None` while it is null. */
  datatype BatchView = BatchView(
    base: BaseFields,
    flags: BetFlags,
    betCount: Int32,
    serverSeed: Option<string>,
    totalPayIn: real,
    totalPayOut: real,
    startingBalance: real,
    betIds: Option<seq<Int64>>,
    secrets: Option<seq<Int64>>,
    payIns: Option<seq<real>>,
    payOuts: Option<seq<real>>)

  const FreshBatch: BatchView := BatchView(FreshBase, NoFlags, 0, None, 0.0, 0.0, 0.0, None, None, None, None)

  /** `n` copies of `x`. */
  function Repeat<T>(x: T, n: nat): (r: seq<T>)
    ensures |r| == n && forall i :: 0 <= i < n ==> r[i] == x
  {
    if n == 0 then [] else Repeat(x, n - 1) + [x]
  }

  /** The view right after a successful batch decode: every id is the one bet id, every other array is zeros. */
  function DecodedBatch(base: BaseFields, f: BatchFields): (v: BatchView)
    requires f.betCount >= 0
    ensures v.betIds == Some(Repeat<Int64>(f.betId, f.betCount)) && v.secrets == Some(Repeat<Int64>(0, f.betCount))
    ensures v.payIns == Some(Repeat<real>(0.0, f.betCount)) && v.payOuts == Some(Repeat<real>(0.0, f.betCount))
  {
    BatchView(base.(success := true), NoFlags, f.betCount, f.serverSeed, f.totalPayIn, f.totalPayOut, f.startingBalance,
      Some(Repeat<Int64>(f.betId, f.betCount)), Some(Repeat<Int64>(0, f.betCount)), Some(Repeat<real>(0.0, f.betCount)), Some(Repeat<real>(0.0, f.betCount)))
  }

  /**
   * The decoding of a batch answer into a new response. The summary is decoded exactly when
   * no rejection key is present and all six summary keys are; success is then set and the
   * four arrays have the bet count as their length. Otherwise the arrays stay null and
   * success comes only from the generic "success" key.
   */
  function DecodeBatch(resp: JsonObject): (r: Result<BatchView, Exception>)
    ensures r.Success? <==> DecodeBase(resp).Success? && (FirstRejection(resp).None? && HasBatchKeys(resp) ==> DecodeBatchFields(resp).Success?)
    ensures r.Success? ==> r.value.flags == FlagsOf(FirstRejection(resp))
    ensures r.Success? ==> (r.value.base.success <==> "success" in resp || (FirstRejection(resp).None? && HasBatchKeys(resp)))
    ensures r.Success? ==> (r.value.betIds.Some? <==> FirstRejection(resp).None? && HasBatchKeys(resp))
    ensures r.Success? && r.value.betIds.Some? ==> r.value == DecodedBatch(r.value.base, DecodeBatchFields(resp).value)
    ensures r.Success? && r.value.betIds.None? ==> r.value.serverSeed.None? && r.value.secrets.None? && r.value.payIns.None? && r.value.payOuts.None?
  {
    var base :- DecodeBase(resp);
    var rejection := FirstRejection(resp);
    if rejection.None? && HasBatchKeys(resp) then
      var f :- DecodeBatchFields(resp);
      Success(DecodedBatch(base, f))
    else
      Success(BatchView(base, FlagsOf(rejection), 0, None, 0.0, 0.0, 0.0, None, None, None, None))
  }

  /** The batch answer with its sequence of bets spelled out. */
  lemma DecodeBatchExample()
    ensures var resp := map["BetId" := Number(7), "PayIn" := Number(-300), "PayOut" := Number(0), "Seed" := Text("00ff"),
      "BetCount" := Number(3), "StartingBalance" := Number(1000)];
      DecodeBatch(resp).Success?
      && DecodeBatch(resp).value.betIds == Some([7, 7, 7])
      && DecodeBatch(resp).value.totalPayIn == -0.000003
      && DecodeBatch(resp).value.base.success
  {
    var resp := map["BetId" := Number(7), "PayIn" := Number(-300), "PayOut" := Number(0), "Seed" := Text("00ff"),
      "BetCount" := Number(3), "StartingBalance" := Number(1000)];
    assert FirstRejection(resp).None?;
    assert DecodeBatch(resp).value.betIds.value == [7, 7, 7];
  }

  /** `DecodeBatch`, one outcome per path of the decoder. */
  lemma DecodeBatchPaths(resp: JsonObject)
    ensures DecodeBase(resp).Failure? ==> DecodeBatch(resp) == Failure(DecodeBase(resp).error)
    ensures DecodeBase(resp).Success? && !(FirstRejection(resp).None? && HasBatchKeys(resp))
      ==> DecodeBatch(resp) == Success(BatchView(DecodeBase(resp).value, FlagsOf(FirstRejection(resp)), 0, None, 0.0, 0.0, 0.0, None, None, None, None))
    ensures DecodeBase(resp).Success? && FirstRejection(resp).None? && HasBatchKeys(resp) && DecodeBatchFields(resp).Failure?
      ==> DecodeBatch(resp) == Failure(DecodeBatchFields(resp).error)
    ensures DecodeBase(resp).Success? && FirstRejection(resp).None? && HasBatchKeys(resp) && DecodeBatchFields(resp).Success?
      ==> DecodeBatch(resp) == Success(DecodedBatch(DecodeBase(resp).value, DecodeBatchFields(resp).value))
  {
  }

  /** What a nullable array holds: `None` while it is null. */
  function Contents<T>(a: array?<T>): (r: Option<seq<T>>)
    reads a
    ensures r.Some? <==> a != null
    ensures a != null ==> r.value == a[..]
  {
    if a == null then None else Some(a[..])
  }

  /** The per-bet arrays of a new batch: `betCount` copies of the bet id, and zeros. */
  method AllocateBets(betId: Int64, betCount: nat) returns (ids: array<Int64>, secrets: array<Int64>, payIns: array<real>, payOuts: array<real>)
    ensures fresh(ids) && fresh(secrets) && fresh(payIns) && fresh(payOuts)
    ensures ids != secrets && payIns != payOuts
    ensures ids[..] == Repeat<Int64>(betId, betCount) && secrets[..] == Repeat<Int64>(0, betCount)
    ensures payIns[..] == Repeat<real>(0.0, betCount) && payOuts[..] == Repeat<real>(0.0, betCount)
  {
    ids := new Int64[betCount](_ => betId);
    secrets := new Int64[betCount](_ => 0);
    payIns := new real[betCount](_ => 0.0);
    payOuts := new real[betCount](_ => 0.0);
    assert ids[..] == Repeat<Int64>(betId, betCount);
    assert secrets[..] == Repeat<Int64>(0, betCount);
    assert payIns[..] == Repeat<real>(0.0, betCount);
    assert payOuts[..] == Repeat<real>(0.0, betCount);
  }

  class PlaceAutomatedBetsResponse {
    var Success: bool
    var ErrorMessage: Option<string>
    var RateLimited: bool
    var TotpFailure: bool
    var ChanceTooHigh: bool
    var ChanceTooLow: bool
    var InsufficientFunds: bool
    var NoPossibleProfit: bool
    var MaxPayoutExceeded: bool
    var BetIds: array?<Int64>
    var PayIns: array?<real>
    var PayOuts: array?<real>
    var Secrets: array?<Int64>
    var BetCount: Int32
    var TotalPayIn: real
    var TotalPayOut: real
    var ServerSeed: Option<string>
    var StartingBalance: real

    /** The arrays exist together, hold one entry per bet, and are four different arrays; a seed comes only with them. */
    predicate Valid()
      reads this
    {
      && (BetIds != null <==> Secrets != null) && (BetIds != null <==> PayIns != null) && (BetIds != null <==> PayOuts != null)
      && (BetIds != null ==>
            && BetIds.Length == BetCount && Secrets.Length == BetCount
            && PayIns.Length == BetCount && PayOuts.Length == BetCount
            && BetIds != Secrets && PayIns != PayOuts)
      && (ServerSeed.Some? ==> BetIds != null)
    }

    function Base(): BaseFields
      reads this
    {
      BaseFields(Success, ErrorMessage, RateLimited, TotpFailure)
    }

    function Flags(): BetFlags
      reads this
    {
      BetFlags(ChanceTooHigh, ChanceTooLow, InsufficientFunds, NoPossibleProfit, MaxPayoutExceeded)
    }

    function View(): BatchView
      reads this, BetIds, Secrets, PayIns, PayOuts
    {
      BatchView(Base(), Flags(), BetCount, ServerSeed, TotalPayIn, TotalPayOut, StartingBalance,
        Contents(BetIds), Contents(Secrets), Contents(PayIns), Contents(PayOuts))
    }

    constructor()
      ensures Valid() && View() == FreshBatch
    {
      Success, ErrorMessage, RateLimited, TotpFailure := false, None, false, false;
      ChanceTooHigh, ChanceTooLow, InsufficientFunds, NoPossibleProfit, MaxPayoutExceeded := false, false, false, false, false;
      BetIds, PayIns, PayOuts, Secrets := null, null, null, null;
      BetCount, TotalPayIn, TotalPayOut, ServerSeed, StartingBalance := 0, 0.0, 0.0, None, 0.0;
    }

    /**
     * Decodes the answer into this new response. An exception leaves the decoder (the
     * response is then discarded); otherwise the response holds `DecodeBatch(resp)`, in
     * newly allocated arrays.
     */
    method SetRawResponse(resp: JsonObject) returns (thrown: Option<Exception>)
      requires Valid() && View() == FreshBatch
      modifies this
      ensures thrown.None? ==> Valid() && DecodeBatch(resp) == Result.Success(View())
      ensures thrown.Some? ==> DecodeBatch(resp) == Failure(thrown.value)
      ensures BetIds != null ==> fresh(BetIds) && fresh(Secrets) && fresh(PayIns) && fresh(PayOuts)
    {
      DecodeBatchPaths(resp);
      var base := DecodeBase(resp);
      if base.Failure? {
        return Some(base.error);
      }
      SetBase(base.value);
      var rejected := RecordRejection(resp);
      if !rejected && HasBatchKeys(resp) {
        Success := true;
        var f := DecodeBatchFields(resp);
        if f.Failure? {
          return Some(f.error);
        }
        SetSummary(f.value);
        var ids, secrets, payIns, payOuts := AllocateBets(f.value.betId, f.value.betCount);
        SetArrays(ids, secrets, payIns, payOuts);
      }
      return None;
    }

    /** Records the common fields. */
    method SetBase(base: BaseFields)
      modifies this
      ensures View() == old(View()).(base := base)
    {
      Success, ErrorMessage, RateLimited, TotpFailure := base.success, base.errorMessage, base.rateLimited, base.totpFailure;
    }

    /** The rejection tests, in order: the first rejection key present sets its flag. */
    method RecordRejection(resp: JsonObject) returns (rejected: bool)
      requires View().flags == NoFlags
      modifies this
      ensures rejected <==> FirstRejection(resp).Some?
      ensures View() == old(View()).(flags := FlagsOf(FirstRejection(resp)))
    {
      rejected := true;
      if "ChanceTooHigh" in resp {
        ChanceTooHigh := true;
      } else if "ChanceTooLow" in resp {
        ChanceTooLow := true;
      } else if "InsufficientFunds" in resp {
        InsufficientFunds := true;
      } else if "NoPossibleProfit" in resp {
        NoPossibleProfit := true;
      } else if "MaxPayoutExceeded" in resp {
        MaxPayoutExceeded := true;
      } else {
        rejected := false;
      }
    }

    /** Records the batch summary. */
    method SetSummary(f: BatchFields)
      modifies this
      ensures View() == old(View()).(betCount := f.betCount, serverSeed := f.serverSeed,
        totalPayIn := f.totalPayIn, totalPayOut := f.totalPayOut, startingBalance := f.startingBalance)
      ensures unchanged(`BetIds, `Secrets, `PayIns, `PayOuts)
    {
      BetCount, ServerSeed, TotalPayIn, TotalPayOut, StartingBalance := f.betCount, f.serverSeed, f.totalPayIn, f.totalPayOut, f.startingBalance;
    }

    /** Installs newly allocated per-bet arrays. */
    method SetArrays(ids: array<Int64>, secrets: array<Int64>, payIns: array<real>, payOuts: array<real>)
      modifies this
      ensures View() == old(View()).(betIds := Some(ids[..]), secrets := Some(secrets[..]), payIns := Some(payIns[..]), payOuts := Some(payOuts[..]))
      ensures BetIds == ids && Secrets == secrets && PayIns == payIns && PayOuts == payOuts
    {
      BetIds, Secrets, PayIns, PayOuts := ids, secrets, payIns, payOuts;
    }
  }
}
