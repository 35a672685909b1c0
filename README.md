# 999dice client core, modelled in Dafny

This project models the core of the .NET client library for the 999dice.com gambling
site. The model covers:

- **Money rules.** Amounts are cut to whole satoshis. The chance to win and the payout
  multiplier are derived from a guess range and the 0.1% house edge.
- **Call checks.** The client validates every API call's arguments before it sends anything.
- **Request forms.** Calls are sent as forms, and every amount is sent as an integer count
  of satoshis.
- **Answer decoding.** The server's JSON answers are decoded into response objects. Each
  answer kind has its own refusal flags, and a numeric conversion that fails throws.
- **Session bookkeeping.** After each call the client updates its `SessionInfo`: the bet
  count, the win count, the totals paid in and out, and the balance.
- **Automated-bet settings.** Stakes are always stored as negative values ("costs"). The
  increase percentages are rounded to six decimal places.
- **Batch replay.** After a batch of automated bets, the client rebuilds every secret of
  the batch from the server seed, the bet id and the client seed. It does this by hashing
  and rejection-sampling the digest. It then replays the stake progression to fill in
  every stake and payout, and finally updates the session.

Modules, one per concern of the source:

- `Clr`: the .NET pieces the client relies on. These are 64-bit wrap-around, the `(long)`
  conversion of a decimal, `long.ToString()`, ASCII encoding, `BitConverter` and the
  exceptions.
- `Json`: JSON values and the `Convert.To*` and `(string)` casts.
- `StringExtension`: the client's `IsNullOrWhiteSpace`.
- `Money`: `TruncateSatoshis` and the chance and payout helpers.
- `Settings`: the `AutomatedBetsSettings` class.
- `Session`: the `SessionInfo` class.
- The responses, one module each: `ResponseBase`, `BetResponses`, `AccountResponses` and
  `SessionResponse`.
- `Validation`: the argument checks.
- `FormData`: the request forms.
- `Fairness`: the hex seed, the hash input and the digest scan.
- `Progression`: a value-level reference replay of a stake progression.
- `DiceWebApi`: the `Process` overloads, including the imperative batch replay over the
  response's arrays.
- `ApiCalls`: the public calls (`PlaceBet`, `PlaceAutomatedBets`, `GetBalance`,
  `Withdraw`, `WithdrawAll`, `BeginSession`) and the `Request` wrapper.

Conventions:

- A C# `decimal` is a Dafny `real`. A `long` is `Clr.Int64`. A `string` that may be null
  is an `Option<string>`.
- An exception is a returned `Exception` value. This applies to the `(long)` overflow,
  casts, parsing, and the null dereference of a missing seed.
- The web service is a function parameter. It maps a form to either a JSON object or a
  `WebException` message. SHA-512 is also a function parameter.

## Model

| member | source | states |
|---|---|---|
| Clr.Wrap64 | DiceWebAPI.cs:387-390 | the unchecked 64-bit result is congruent to the exact sum modulo 2^64 and equals it when it fits |
| Clr.Wrap64Add | DiceWebAPI.cs:387-389 | wrapping after every `++` gives the same count as wrapping once at the end |
| Clr.TruncateToInteger | DiceWebAPI.cs:225 | the `(long)` conversion of a decimal cuts toward zero: the result lies within one of x, on x's side of zero |
| Clr.CastToInt64 | DiceWebAPI.cs:225 | the conversion succeeds exactly when the truncated value fits in 64 bits, and otherwise throws OverflowException |
| Clr.DecimalStringRoundTrip | DiceWebAPI.cs:226-227 | the text `long.ToString()` writes is well formed and reads back as the same number |
| Clr.BoolString | DiceWebAPI.cs:240-241 | `bool.ToString()` writes `True` exactly for true |
| Clr.AsciiBytes | DiceWebAPI.cs:337 | ASCII encoding keeps the length and maps every 7-bit character to its own code |
| Clr.GetBytesRoundTrip | DiceWebAPI.cs:332 | `BitConverter.GetBytes(long)` is an 8-byte encoding that `ToInt64` reads back to the same value |
| Json.ParseInteger | DiceResponse.cs:353 | a numeric string converts exactly when it is well-formed decimal text, and then to its value; otherwise FormatException |
| Json.ToInt64 | DiceResponse.cs:353 | `Convert.ToInt64` gives 0 for null and the number when it fits; otherwise it throws OverflowException, or InvalidCastException for an object |
| Json.ToInt32 | DiceResponse.cs:453 | `Convert.ToInt32`: like ToInt64 but with 32-bit bounds, a number out of range throwing OverflowException |
| Json.ToDecimal | DiceResponse.cs:354 | `Convert.ToDecimal` gives 0 for null and the number when it is within decimal range; an object is InvalidCastException |
| Json.StringCast | DiceResponse.cs:50 | `(string)` succeeds exactly on null and strings and returns the text unchanged; anything else is InvalidCastException |
| Json.Satoshis | DiceResponse.cs:354 | an amount in satoshis is read as coins: the result times 10^8 is the converted number |
| Json.SatoshisOfInteger | DiceResponse.cs:354 | a whole number of satoshis read as coins is satoshi-aligned |
| StringExtension.TrimStart | StringExtension.cs:12 | the result is a suffix of the input that does not start with white space, and only white space was dropped |
| StringExtension.TrimEnd | StringExtension.cs:12 | the result is a prefix of the input that does not end with white space, and only white space was dropped |
| StringExtension.Trim | StringExtension.cs:12 | the trimmed text is empty exactly when the input is all white space, and otherwise starts and ends with a non-space character |
| StringExtension.TrimSplit | StringExtension.cs:12 | trimming the start and then the end leaves nothing exactly when the whole string is white space |
| StringExtension.IsNullOrWhiteSpace | StringExtension.cs:8-15 | true exactly for null or all-white-space text, so any non-space character makes it false |
| StringExtension.ZeroWidthIsBlank | StringExtension.cs:12 | a byte order mark and a zero width space count as blank under the .NET 3.5 `Trim()`, a medium mathematical space does not |
| Money.Abs | DiceWebAPI.cs:464 | the magnitude is non-negative and equals x or -x |
| Money.TruncateSatoshis | DiceWebAPI.cs:455-460 | the result lies between 0 and the amount, on the amount's side of zero |
| Money.TruncateSatoshisSpec | DiceWebAPI.cs:455-460 | the result is a whole number of satoshis, less than one satoshi from the amount, and an aligned amount is returned unchanged |
| Money.TruncateSatoshisIdempotent | DiceWebAPI.cs:455-460 | truncating twice is truncating once |
| Money.TruncateSatoshisOdd | DiceWebAPI.cs:455-460 | truncation is symmetric around zero: it cuts toward zero for both signs |
| Money.TruncateSatoshisExample | DiceWebAPI.cs:455-460 | the ninth decimal is dropped for both signs |
| Money.Odds | DiceWebAPI.cs:479 | a valid range covers between 1 and 1000000 outcomes, counting both ends |
| Money.ChanceToWin | DiceWebAPI.cs:477-481 | the chance is the count of winning outcomes over 1000000, and lies in (0, 1] for a valid range |
| Money.PayoutMultiplier | DiceWebAPI.cs:482-485 | multiplier times chance equals the 0.999 house payout, and a valid range gives a multiplier between 0.999 and 999000 |
| Money.StakePayout | DiceWebAPI.cs:466-468 | the payout on a non-negative stake is at most stake times multiplier, and less than one satoshi below it |
| Money.WinPayout | DiceWebAPI.cs:462-469 | a win pays between 0 and the truncated stake magnitude times the multiplier, less than one satoshi below that product |
| Money.WinPayoutAligned | DiceWebAPI.cs:462-469 | every payout is a whole number of satoshis |
| Money.WinPayoutKeepsHouseEdge | DiceWebAPI.cs:462-469 | the expected payout, payout times chance, never exceeds 0.999 times the stake: the house keeps its edge |
| Money.WinPayoutIgnoresSign | DiceWebAPI.cs:464 | a stake and its negation pay the same |
| Money.WinProfit | DiceWebAPI.cs:470-476 | the profit is the payout less the truncated stake magnitude |
| Money.CalculatePayoutMultiplier | DiceWebAPI.cs:477-485 | fails with DivideByZeroException exactly when the odds are 0; otherwise multiplier times chance is 0.999, between 0.999 and 999000 for a valid range |
| Money.CalculateWinPayout | DiceWebAPI.cs:462-469 | fails with DivideByZeroException exactly when the odds are 0; otherwise the win payout, a whole number of satoshis |
| Money.CalculateWinProfit | DiceWebAPI.cs:470-476 | fails with DivideByZeroException exactly when the odds are 0; otherwise the payout less the truncated stake magnitude |
| Money.EvenMoneyExample | DiceWebAPI.cs:477-485 | half the range has chance 0.5 and multiplier 1.998; a 1-coin stake pays 1.998 with profit 0.998 |
| Settings.NonPositive | AutomatedBetsSettings.cs:67 | a stored stake is never positive and has the magnitude of the value given |
| Settings.RoundHalfEven | AutomatedBetsSettings.cs:114 | the integer chosen is within one half of x, and an integral x is kept |
| Settings.Round6 | AutomatedBetsSettings.cs:114 | `decimal.Round(value, 6)` has six decimals, is within half a millionth of the value, and keeps an already-rounded value |
| Settings.Round6Nearest | AutomatedBetsSettings.cs:114 | no other six-decimal number is closer to the value |
| Settings.Round6TiesToEven | AutomatedBetsSettings.cs:114 | a value exactly halfway rounds to an even millionth (banker's rounding) |
| Settings.Round6Examples | AutomatedBetsSettings.cs:114 | 0.0000025 rounds to 0.000002, 0.0000035 rounds to 0.000004, and the rule is symmetric for negatives |
| Settings.StartingPayInView | AutomatedBetsSettings.cs:94 | an unset (zero) starting stake reads as the base stake, and any other value reads as itself |
| Settings.WriteBackIsIdempotent | AutomatedBetsSettings.cs:90-132 | writing back what a getter returned changes nothing: the setters' normalisations are idempotent |
| Settings.AutomatedBetsSettings.constructor | AutomatedBetsSettings.cs:6-52 | new settings hold every field at its default and satisfy the class invariant |
| Settings.AutomatedBetsSettings.BasePayIn | AutomatedBetsSettings.cs:59-64 | the base stake read back is never positive |
| Settings.AutomatedBetsSettings.SetBasePayIn | AutomatedBetsSettings.cs:65-68 | only the base stake changes, to the negated magnitude, and the invariant is kept |
| Settings.AutomatedBetsSettings.MaxAllowedPayIn | AutomatedBetsSettings.cs:74-79 | the stake limit read back is never positive |
| Settings.AutomatedBetsSettings.SetMaxAllowedPayIn | AutomatedBetsSettings.cs:80-83 | only the stake limit changes, to the negated magnitude, and the invariant is kept |
| Settings.AutomatedBetsSettings.StartingPayIn | AutomatedBetsSettings.cs:90-95 | the starting stake falls back to the base stake while unset, and is never positive |
| Settings.AutomatedBetsSettings.SetStartingPayIn | AutomatedBetsSettings.cs:96-99 | only the stored starting stake changes, to the negated magnitude, and the invariant is kept |
| Settings.AutomatedBetsSettings.IncreaseOnWinPercent | AutomatedBetsSettings.cs:106-111 | the stored percentage has at most six decimals |
| Settings.AutomatedBetsSettings.SetIncreaseOnWinPercent | AutomatedBetsSettings.cs:112-115 | only the win percentage changes, to the value rounded to six decimals |
| Settings.AutomatedBetsSettings.IncreaseOnLosePercent | AutomatedBetsSettings.cs:122-127 | the stored percentage has at most six decimals |
| Settings.AutomatedBetsSettings.SetIncreaseOnLosePercent | AutomatedBetsSettings.cs:128-131 | only the lose percentage changes, to the value rounded to six decimals |
| Settings.AutomatedBetsSettings.Rules | DiceWebAPI.cs:359-379 | settings that keep the class invariant, a valid range and non-negative increases give well-formed replay rules (non-positive stakes and limit, a valid range) |
| Session.WithFigures | SessionInfo.cs:66-140 | changing one currency's figures leaves the other currencies and every identifying field unchanged |
| Session.SessionInfo.constructor | SessionInfo.cs:201-206 | a new session holds the cookie, account id and batch size it was given, with no activity in any currency |
| Session.SessionInfo.Figures | SessionInfo.cs:66-140 | a currency's figures are read from the session state |
| Session.SessionInfo.SetFigures | SessionInfo.cs:66-140 | only the figures of the given currency change |
| Session.SessionInfo.SetAccountCookie | SessionInfo.cs:36-47 | only the account cookie changes |
| Session.SessionInfo.SetEmail | SessionInfo.cs:143-157 | only the e-mail address changes |
| Session.SessionInfo.SetEmergencyAddress | SessionInfo.cs:158-172 | only the emergency address changes |
| ResponseBase.DecodeBase | DiceResponse.cs:46-57 | decoding fails only when "error" holds a non-string; each flag is set exactly when its key is present, and the error message is the "error" text |
| BetResponses.FirstRejection | DiceResponse.cs:336-345 | the refusal reported is present in the answer, and no higher-priority refusal key is; none is reported only when no refusal key is present |
| BetResponses.FlagsOf | DiceResponse.cs:336-345 | exactly one flag is set, the one for the reported refusal, or none |
| BetResponses.DecodeBetFields | DiceResponse.cs:353-357 | the bet's fields decode exactly when each conversion succeeds; amounts are satoshis read as coins |
| BetResponses.DecodeBet | DiceResponse.cs:332-359 | a single-bet answer sets its refusal flags, and sets success and the bet fields only when no refusal is present and all five keys are; otherwise the bet stays empty |
| BetResponses.DecodeBetPaths | DiceResponse.cs:332-359 | the decoding takes one of four paths: a base failure, a refusal or missing keys, a conversion failure, or success |
| BetResponses.PlaceBetResponse.constructor | DiceResponse.cs:332 | a new response holds the default view |
| BetResponses.PlaceBetResponse.SetRawResponse | DiceResponse.cs:332-359 | decoding in place yields the value decoding, or throws exactly its exception |
| BetResponses.PlaceBetResponse.SetBase | DiceResponse.cs:46-57 | only the common fields change |
| BetResponses.PlaceBetResponse.SetBet | DiceResponse.cs:352-357 | only the bet fields change |
| BetResponses.PlaceBetResponse.RecordRejection | DiceResponse.cs:336-345 | only the flags change, to those of the first refusal present, and the method reports whether there was one |
| BetResponses.DecodeBatchFields | DiceResponse.cs:452-457 | the batch summary decodes exactly when each conversion succeeds and the bet count is not negative; amounts are satoshis read as coins |
| BetResponses.DecodedBatch | DiceResponse.cs:458-461 | the arrays all have the bet count's length: every id is the batch's BetId, and secrets, stakes and payouts are zero |
| BetResponses.DecodeBatch | DiceResponse.cs:430-463 | a batch answer sets its refusal flags; the arrays exist exactly when no refusal is present and all six keys are, and then hold the decoded batch |
| BetResponses.DecodeBatchExample | DiceResponse.cs:444-461 | a three-bet answer decodes successfully to three copies of its BetId, with the total stake read as coins |
| BetResponses.DecodeBatchPaths | DiceResponse.cs:430-463 | the decoding takes one of four paths: a base failure, a refusal or missing keys, a conversion failure, or success |
| BetResponses.AllocateBets | DiceResponse.cs:458-461 | the four fresh arrays hold the repeated id and zeros |
| BetResponses.PlaceAutomatedBetsResponse.constructor | DiceResponse.cs:430 | a new response holds the default view and no arrays |
| BetResponses.PlaceAutomatedBetsResponse.SetRawResponse | DiceResponse.cs:430-463 | decoding in place yields the value decoding, with fresh arrays, or throws exactly its exception |
| BetResponses.PlaceAutomatedBetsResponse.SetBase | DiceResponse.cs:46-57 | only the common fields change |
| BetResponses.PlaceAutomatedBetsResponse.RecordRejection | DiceResponse.cs:434-443 | only the flags change, to those of the first refusal present |
| BetResponses.PlaceAutomatedBetsResponse.SetSummary | DiceResponse.cs:451-457 | only the summary fields change, and the arrays are untouched |
| BetResponses.PlaceAutomatedBetsResponse.SetArrays | DiceResponse.cs:458-461 | the response now holds the given arrays and their contents |
| AccountResponses.DecodeWithdraw | DiceResponse.cs:182-195 | TooSmall, then InsufficientFunds, then Pending decide; only Pending sets success and the pending amount, and a refusal leaves the amount at 0 |
| AccountResponses.WithdrawResponse.constructor | DiceResponse.cs:182 | a new response holds the default view |
| AccountResponses.WithdrawResponse.SetRawResponse | DiceResponse.cs:182-195 | decoding in place yields the value decoding, or throws exactly its exception |
| AccountResponses.DecodeBalance | DiceResponse.cs:241-250 | a "Balance" key sets success and the balance, read as coins; without it the balance stays 0 |
| AccountResponses.GetBalanceResponse.constructor | DiceResponse.cs:241 | a new response holds the default view |
| AccountResponses.GetBalanceResponse.SetRawResponse | DiceResponse.cs:241-250 | decoding in place yields the value decoding, or throws exactly its exception |
| SessionResponse.LoopCurrency | DiceResponse.cs:105-121 | loop steps 0, 1 and 2 visit BTC, Doge and LTC |
| SessionResponse.CurrencySource | DiceResponse.cs:107-118 | BTC figures come from the answer itself, and Doge and LTC figures from their nested objects when present |
| SessionResponse.CurrencyFigures | DiceResponse.cs:124-137 | each figure is replaced exactly when its key is present, with the converted value; absent keys keep the old figure |
| SessionResponse.ApplyCurrenciesSpec | DiceResponse.cs:101-138 | the currency loop succeeds exactly when every step does, and each currency ends with its own step's figures |
| SessionResponse.InitialSession | DiceResponse.cs:90-99 | the new session takes the cookie, account id and batch size; optional keys set the account cookie, e-mail and emergency address; every currency starts with no activity |
| SessionResponse.DecodeSession | DiceResponse.cs:66-140 | InvalidApiKey, LoginRequired and LoginInvalid refuse in that order; a session is built exactly when no refusal is present and the three keys are |
| SessionResponse.DecodedSessionSpec | DiceResponse.cs:85-138 | the decoded session carries the answer's account id and batch size, and each currency's figures from its own source |
| SessionResponse.BuildSession | DiceResponse.cs:85-138 | builds a fresh session object holding the decoded session, or throws exactly the decoding's exception |
| SessionResponse.BeginSessionResponse.constructor | DiceResponse.cs:59-64 | a new response holds the default view |
| SessionResponse.BeginSessionResponse.SetRawResponse | DiceResponse.cs:66-140 | decoding in place yields the value decoding, with a fresh session, or throws exactly its exception |
| Validation.ValidateApiKey | DiceWebAPI.cs:405-409 | throws ArgumentNullException exactly when the key is null or white space |
| Validation.ValidateApiKeyAnd | DiceWebAPI.cs:410-414 | throws ArgumentNullException exactly when either string is null or white space |
| Validation.ValidateSession | DiceWebAPI.cs:415-419 | throws ArgumentNullException exactly when there is no session |
| Validation.ValidateSessionAnd | DiceWebAPI.cs:420-424 | throws ArgumentNullException exactly when there is no session or the string is blank |
| Validation.ValidateSessionAnd2 | DiceWebAPI.cs:425-431 | throws ArgumentNullException exactly when there is no session or either string is blank |
| Validation.ValidateRange | DiceWebAPI.cs:432-438 | passes exactly for a session and 0 <= low <= high < 1000000; a missing session is reported before a bad range |
| Validation.ValidateSettings | DiceWebAPI.cs:439-446 | settings are checked first, then the session and range, then at least one bet and non-negative increases, each with its own exception |
| Validation.ValidateStakeLimit | DiceWebAPI.cs:447-451 | a stake limit that is set and smaller in magnitude than the base stake is refused |
| Validation.ValidatedRangeHasChance | DiceWebAPI.cs:432-438 | a range that passes validation has a chance in (0, 1] and a multiplier of at least 0.999 |
| Validation.ValidatedSettingsWellFormed | DiceWebAPI.cs:439-446 | settings that pass validation give well-formed replay rules |
| FormData.SatoshiField | DiceWebAPI.cs:225 | an amount is sent when its satoshi count fits in 64 bits, and otherwise the conversion throws OverflowException |
| FormData.SatoshiFieldRoundTrip | DiceWebAPI.cs:225 | the sent field reads back, as the client reads amounts, to the amount cut to satoshis, and to the amount itself when aligned |
| FormData.WholeCoinField | DiceWebAPI.cs:248-249 | the as-written conversion succeeds exactly when the whole-coin part fits in 64 bits, throws OverflowException otherwise, and the server reads back the whole coins with the 64-bit product wrapped |
| FormData.WholeCoinFieldAgreesOnWholeCoins | DiceWebAPI.cs:236-249 | on a whole number of coins that fits, the as-written and the satoshi conversion send the same text |
| FormData.WholeCoinFieldDropsFraction | DiceWebAPI.cs:248-249 | half a coin is sent as 0 by the as-written conversion, but as -50000000 satoshis by the intended one |
| FormData.PlaceBetForm | DiceWebAPI.cs:219-229 | the bet form exists exactly when the stake converts, and carries the stake in satoshis in its PayIn field |
| FormData.WithdrawForm | DiceWebAPI.cs:148-157 | the withdrawal form exists exactly when the amount converts, and carries it in satoshis in its Amount field |
| FormData.WholeCoinAmountField | DiceWebAPI.cs:248 | one whole-coin field fails only on overflow, and otherwise is read back as the wrapped whole coins |
| FormData.StakeFieldsAsWritten | DiceWebAPI.cs:236-249 | the five amount fields as written succeed exactly when the three satoshi and the two whole-coin conversions succeed, fail only with OverflowException, and are read back as BasePayIn, MaxPayIn and StopMaxBalance cut to satoshis and StopMinBalance and StartingPayIn cut to wrapped whole coins |
| FormData.StakeFieldsAsWrittenLoseStartingStake | DiceWebAPI.cs:248-249 | as written, a starting stake of -0.5 reaches the server as 0 |
| FormData.StakeFieldsAsWrittenWrapStopMinBalance | DiceWebAPI.cs:248 | as written, a lowest balance of 100000000000 coins wraps and reaches the server as a negative balance, where the satoshi conversion throws OverflowException |
| FormData.AmountField | DiceWebAPI.cs:236 | one amount field fails only on overflow, and otherwise carries its amount |
| FormData.StakeFields | DiceWebAPI.cs:236-249 | the five amount fields with every amount in satoshis succeed exactly when every amount converts, fail only on overflow, and each reads back as its own amount cut to satoshis |
| FormData.StakeFieldsAgreeOnWholeCoins | DiceWebAPI.cs:236-249 | when the lowest balance and the starting stake are whole coins, the fields as written equal the satoshi fields |
| Fairness.ParseHexByte | DiceWebAPI.cs:331 | two hex digits parse to 16*hi+lo; one digit padded with number white space also parses; anything else is FormatException |
| Fairness.DecodeHex | DiceWebAPI.cs:329-331 | the seed has half as many bytes as the text has characters, each byte parsed from its own pair; it succeeds exactly when every pair parses |
| Fairness.DecodeServerSeed | DiceWebAPI.cs:329-331 | the loop over the pairs computes DecodeHex |
| Fairness.EncodeHex | DiceWebAPI.cs:329-331 | the reference encoding writes each byte as two hex digits |
| Fairness.DecodeEncodeHex | DiceWebAPI.cs:329-331 | decoding a hex encoding gives back the bytes |
| Fairness.DecimalStringIsAscii | DiceWebAPI.cs:337 | a bet id's text is pure ASCII, so encoding it loses nothing |
| Fairness.HashInput | DiceWebAPI.cs:337-338 | the hash input is the id text, then the seed, then 8 bytes that read back as the client seed |
| Fairness.HashInputDeterminesBetId | DiceWebAPI.cs:337-338 | different bet ids give different hash inputs for the same seeds |
| Fairness.Chunk | DiceWebAPI.cs:347 | three digest bytes form a 24-bit number |
| Fairness.ScanFromSpec | DiceWebAPI.cs:343-355 | the scan finds nothing exactly when no chunk from the offset on is below 16000000, and otherwise gives the first such chunk modulo 1000000 |
| Fairness.ScanDigestSpec | DiceWebAPI.cs:345-354 | the secret is the first accepted chunk modulo 1000000, a value in [0, 999999] |
| Fairness.ScanChunks | DiceWebAPI.cs:345-354 | the loop over the offsets computes ScanDigest |
| Fairness.AcceptedChunksEven | DiceWebAPI.cs:348-350 | every secret is reached by exactly 16 accepted chunk values, so the rejection sampling is unbiased |
| Progression.IncreaseGrowsStake | DiceWebAPI.cs:367 | a non-negative increase never shrinks a stake's cost |
| Progression.Escalate | DiceWebAPI.cs:360-375 | after a win the stake resets or grows by the win percentage; after a loss it resets (on ResetOnLose, or at the limit with ResetOnLoseMaxBet) or grows by the lose percentage |
| Progression.Clamp | DiceWebAPI.cs:376-379 | the next stake is no larger than the limit or the balance allows, and is one of the stake, the limit or the whole balance |
| Progression.PayOut | DiceWebAPI.cs:359-363 | a bet pays nothing unless it wins, and never pays a negative amount |
| Progression.Replay | DiceWebAPI.cs:333-380 | the reference replay records one stake and one payout per secret |
| Progression.CountWins | DiceWebAPI.cs:387-389 | the number of wins is at most the number of bets |
| Progression.ReplayBalance | DiceWebAPI.cs:358-363 | the replay's final balance is the starting balance plus the stakes and the payouts |
| Progression.ReplayPrefix | DiceWebAPI.cs:335-380 | replaying a prefix of the secrets gives the prefix of the records |
| Progression.ReplayEntry | DiceWebAPI.cs:357-363 | bet k stakes the running stake and is paid the win payout exactly when it wins; the first bet stakes the starting stake |
| Progression.StakeRecurrence | DiceWebAPI.cs:364-379 | each later stake is derived from the previous one and its outcome, never exceeds the running balance, and respects the limit |
| Progression.SettleKeepsSolvent | DiceWebAPI.cs:357-379 | with well-formed rules, settling a bet keeps the next stake a cost the balance can cover, and the balance non-negative |
| Progression.EscalateNonPositive | DiceWebAPI.cs:364-375 | the next stake stays a cost |
| Progression.NonPositiveIncrease | DiceWebAPI.cs:367 | increasing a cost by a non-negative percentage keeps it a cost |
| Progression.ReplayKeepsSolvent | DiceWebAPI.cs:333-380 | a whole replay that starts solvent stays solvent |
| DiceWebApi.AfterBatch | DiceWebAPI.cs:387-393 | after a batch: the counts grow by the bets and wins, the balance is the server's starting balance plus the totals, and the totals grow by the batch totals; nothing else changes |
| DiceWebApi.AfterBet | DiceWebAPI.cs:311-316 | after a bet: one more bet, one more win exactly when the secret is in range, the balance is the starting balance plus payout and stake; nothing else changes |
| DiceWebApi.OneBetBatchIsOneBet | DiceWebAPI.cs:304-324 | a one-bet batch updates the session exactly as the single bet with the same figures does |
| DiceWebApi.BatchBalanceIsReplayBalance | DiceWebAPI.cs:381-391 | when the server's totals agree with the replay, the session balance is the replay's final balance |
| DiceWebApi.AfterBalance | DiceWebAPI.cs:268-273 | a successful balance answer replaces the balance; a failed one changes nothing |
| DiceWebApi.AfterWithdraw | DiceWebAPI.cs:274-279 | a successful withdrawal lowers the balance by the pending amount; a failed one changes nothing |
| DiceWebApi.WithdrawalMovesBalance | DiceWebAPI.cs:274-279 | a pending withdrawal moves the balance by the pending amount read from the answer, and a refused one changes nothing |
| DiceWebApi.BalanceAnswerSetsBalance | DiceWebAPI.cs:268-273 | a "Balance" answer sets the balance to the reported satoshis read as coins, and touches nothing else |
| DiceWebApi.ProcessGetBalance | DiceWebAPI.cs:268-273 | the session moves to AfterBalance |
| DiceWebApi.ProcessWithdraw | DiceWebAPI.cs:274-279 | the session moves to AfterWithdraw |
| DiceWebApi.ProcessBeginSession | DiceWebAPI.cs:256-261 | a successful login records the username in the new session, and nothing else changes |
| DiceWebApi.ProcessPlaceBet | DiceWebAPI.cs:304-324 | a successful bet moves the session to AfterBet; a failed one leaves it unchanged |
| DiceWebApi.NextStake | DiceWebAPI.cs:364-379 | computes the reference next stake |
| DiceWebApi.SettleBet | DiceWebAPI.cs:357-379 | one bet records its stake, and its payout when it wins, and returns the new balance and the next stake |
| DiceWebApi.FindSecret | DiceWebAPI.cs:337-355 | the secret found is the bet's reference secret, in [0, 999999], and none is found exactly when the digest has no accepted chunk |
| DiceWebApi.ArraySum | DiceWebAPI.cs:381-382 | the loop computes the sum of the array |
| DiceWebApi.CountBatchWins | DiceWebAPI.cs:387-389 | the win count grows by the number of winning secrets, with 64-bit wrap-around |
| DiceWebApi.RecordBatchTotals | DiceWebAPI.cs:390-393 | the bet count, balance and totals are set as the source sets them, with 64-bit wrap-around |
| DiceWebApi.RecordBatch | DiceWebAPI.cs:384-398 | the session moves to AfterBatch |
| DiceWebApi.ReplayStep | DiceWebAPI.cs:336-379 | one step of the replay extends the replayed prefix by one bet, or reports that the bet's digest has no accepted chunk and leaves the arrays unchanged |
| DiceWebApi.ReplayBets | DiceWebAPI.cs:335-380 | the arrays end up holding each bet's reference secret and exactly the reference replay, or the replay stops at the first bet whose digest has no accepted chunk |
| DiceWebApi.ProcessAutomatedBets | DiceWebAPI.cs:325-401 | only the secrets, stakes and payouts of the response change, and nothing changes when the answer failed or the seed throws; a missing or bad seed throws; otherwise the arrays hold the reference secrets and replay, the totals are compared, and the session moves to AfterBatch |
| ApiCalls.RequestBet | DiceWebAPI.cs:70-87 | a fresh response holds the decoded answer, or the WebException message; a decoding exception leaves the call |
| ApiCalls.RequestBatch | DiceWebAPI.cs:70-87 | as RequestBet, and the fresh arrays start with zero payouts |
| ApiCalls.RequestBalance | DiceWebAPI.cs:70-87 | as RequestBet, for a balance answer |
| ApiCalls.RequestWithdraw | DiceWebAPI.cs:70-87 | as RequestBet, for a withdrawal answer |
| ApiCalls.RequestSession | DiceWebAPI.cs:70-87 | as RequestBet, for a login answer, with a fresh session |
| ApiCalls.AutomatedBetsForm | DiceWebAPI.cs:230-252 | the form exists exactly when the amount fields as written convert and otherwise throws OverflowException; it holds 15 fields in the client's order, with the amount fields at positions 2, 8, 11, 12 and 13, the range and bet limit reading back as the settings' values, and the four flags as `True`/`False` |
| ApiCalls.AutomatedBetsFields | DiceWebAPI.cs:232-251 | the fields are laid out in the client's order, amount fields at positions 2, 8, 11, 12 and 13 |
| ApiCalls.PostAutomatedBets | DiceWebAPI.cs:569-570 | the batch answer to the automated form is decoded into a fresh, valid response, or the exception is returned |
| ApiCalls.PlaceBet | DiceWebAPI.cs:559-564 | validation first; the stake is sent as a cost; the response is the decoded answer to the bet form; the session moves to AfterBet on success and is unchanged otherwise |
| ApiCalls.PlaceAutomatedBets | DiceWebAPI.cs:565-571 | validation first; the client seed is read before the request; the response is the decoded answer to the form as written, with only the secrets, stakes and payouts filled in; on a replay the arrays hold the reference secrets and replay from that seed, and the session moves to AfterBatch; otherwise the session is unchanged |
| ApiCalls.GetBalance | DiceWebAPI.cs:511-515 | a missing session throws; otherwise the response is the decoded answer to the balance form and the session moves to AfterBalance |
| ApiCalls.Withdraw | DiceWebAPI.cs:520-524 | validation first; the response is the decoded answer to the withdrawal form and the session moves to AfterWithdraw |
| ApiCalls.WithdrawAll | DiceWebAPI.cs:516-519 | a withdrawal of 0 satoshis, which asks for the whole balance |
| ApiCalls.BeginSession | DiceWebAPI.cs:500-504 | validation first; the response carries the decoded login answer, and a successful login's session records the username |

## Left out

- HTTP, the JSON serializer and the UTF-8 decoding of the reply are not modelled. The
  service is a function parameter from a form to either a JSON object or a `WebException`
  message.
- `WebStatusCode` and `RawResponse` are not modelled.
- The asynchronous variants (`*Async`, `RequestAsync`) and `DiceAsyncResult` are not
  modelled. They repeat the synchronous logic.
- `PauseUpdates`, `UnpauseUpdates` and the `INotifyPropertyChanged` notifications of
  `SessionInfo` are not modelled. Change notification is UI plumbing with no effect on the
  state; `NotifyPropertyChangedBase.cs` is not part of this model.
- SHA-512 is a function parameter from bytes to a 64-byte digest. The hash function itself
  is not modelled.
- C# `decimal` is an exact rational here. The model omits its 28-digit precision, the
  rounding of the divisions `/ 100000000M` and `HousePayout / chance`, and the
  `OverflowException` of decimal arithmetic. `(long)` overflow and the decimal range of
  `Convert.ToDecimal` are modelled.
- JSON numbers are integers, which is what the service sends. Fractional numbers, and the
  white space, `+` and culture rules of converting numeric strings, are not modelled.
- The other calls are not modelled: `CreateUser`, `ChangePassword`, `GetServerSeedHash`,
  `SetClientSeed`, `UpdateEmail`, `UpdateEmergencyAddress` and `GetDepositAddress`. The
  same goes for their responses and `Process` overloads, and for the `BeginSession(apiKey)`
  and `BeginSession(apiKey, accountCookie)` variants. Each is a pass-through form plus at
  most one session field assignment, of the shape `ProcessWithdraw` already covers.
- The `IncreaseOnWinPercent` and `IncreaseOnLosePercent` fields of the automated form
  (DiceWebAPI.cs:242-243) are not modelled. They use culture-dependent `decimal.ToString()`,
  whose text also depends on the stored scale of the decimal, which an exact rational does
  not keep. `ApiCalls.AutomatedBetsForm` holds every other field, in the client's order.
- The `Currency` property of the responses is not modelled, and no modelled operation
  reads it. The settings' currency is stored, but the automated form does not send it.
- The currency indexer `Session[Currencies.X]` that the login decoding uses does not exist
  in the `SessionInfo.cs` shown, which is an older version. Per-currency figures are
  modelled as the decoding uses them, one record per currency.
- The state a response object is left in when its decoding throws is not modelled. The
  exception leaves `Request`, so that object is never returned.
- DiceWebApi.ProcessAutomatedBets: the `while (!found)` loop spins forever when no 3-byte
  chunk of the digest is below 16000000. The model returns the `Spins` outcome with the
  bet's index instead of diverging.
- DiceWebApi.ProcessAutomatedBets: it requires zero payouts in the response's arrays, as
  every freshly decoded batch has.
- The `Debug.Assert`s on the batch totals (DiceWebAPI.cs:381-382) are not modelled as
  failures. The outcome reports whether the totals agree with the replay, and
  `BatchBalanceIsReplayBalance` says what agreement means.
- StringExtension.IsWhiteSpace: is the white-space table of `String.Trim()` in .NET 3.5, the
  framework named at StringExtension.cs:6. From .NET Framework 4 on, `Trim()` removes the
  `char.IsWhiteSpace` characters instead: it no longer removes U+200B and U+FEFF, and it
  removes U+202F and U+205F (and, in .NET Framework 4.x, U+180E). Running the client on a
  later framework is not modelled.
- Fairness.ParseHexByte: does not model two text-level details of .NET.
  - The .NET Framework number parser also accepts trailing NUL characters: `"A\0"` parses
    as 10, where the model throws FormatException.
  - `String.Length` and `Substring` count UTF-16 code units, while a Dafny string counts
    scalar values. A seed holding a character outside the Basic Multilingual Plane is
    therefore split differently by `Fairness.DecodeHex`.
  - Neither difference arises for a hex seed.
- Money.PayoutMultiplier: requires odds other than 0, because the client calls it only on a
  range that `Validate` accepted. `Money.CalculatePayoutMultiplier` models the public helper,
  which throws `DivideByZeroException` for odds 0 (for example low 5, high 4).
- Money.StakePayout: requires odds other than 0, for the same reason. The throw is modelled
  by `Money.CalculateWinPayout`.
- Money.WinPayout: requires odds other than 0, for the same reason. The throw is modelled by
  `Money.CalculateWinPayout`.
- Money.WinProfit: requires odds other than 0, for the same reason. The throw is modelled by
  `Money.CalculateWinProfit`.
- `Validate(decimal, decimal)` (DiceWebAPI.cs:447-451) is modelled as
  `Validation.ValidateStakeLimit`, but no call uses it: the source never calls it.
- In three places the code may not do what was meant, and the model follows the code.
  - Every bet of a batch gets the batch's single `BetId` (DiceResponse.cs:458).
    Consecutive ids, starting from `BetId`, may have been meant, since each bet's secret is
    derived from its own id.
  - `CalculatePayoutMultiplier` (DiceWebAPI.cs:482-485) returns `HousePayout / chance`
    without rounding. A multiplier cut down to six decimals may have been meant, so that
    rounding never favours the bettor. The model uses the exact quotient.
  - The automated form sends `StopMinBalance` and `StartingPayIn` as whole coins (see
    Findings). They were evidently meant to be sent in satoshis like the other amounts. The
    calls use `StakeFieldsAsWritten`; `StakeFields` is the corrected form, and
    `StakeFieldsAgreeOnWholeCoins` says where the two agree.

## Findings

| source | as written | input that shows it | evidently intended | confidence | as-written member | corrected member |
|---|---|---|---|---|---|---|
| DiceWebAPI.cs:248-249 | `((long)settings.StopMinBalance*100000000)` and `((long)settings.StartingPayIn*100000000)` cut the amount to whole coins before converting to satoshis, unlike the other amount fields | StartingPayIn = -0.5 is sent as "0" instead of "-50000000", so the server's first stake differs from the stake the client replays from | `((long)(x*100000000))`, as on lines 236, 244 and 247 | not executed | FormData.StakeFieldsAsWrittenLoseStartingStake | FormData.StakeFields |
| DiceWebAPI.cs:248 | `((long)settings.StopMinBalance*100000000)` multiplies in unchecked 64-bit arithmetic | StopMinBalance = 100000000000 wraps to a negative satoshi count instead of throwing OverflowException as the other amount fields do | `((long)(x*100000000))`, which throws on overflow | not executed | FormData.StakeFieldsAsWrittenWrapStopMinBalance | FormData.StakeFields |
