/**
 * The argument checks the API runs before it sends a request. Each check either passes
 * (`None`) or names the exception it throws. Strings and objects may be null: a string is
 * an `Option<string>`, an object a nullable reference.
 */
module Validation {
  import opened Wrappers
  import opened Clr
  import opened Money
  import opened StringExtension
  import Session
  import Settings
  import Progression

  /** An API key is required: null, empty or blank throws ArgumentNullException. */
  function ValidateApiKey(apiKey: Option<string>): (thrown: Option<Exception>)
    ensures thrown.Some? <==> IsNullOrWhiteSpace(apiKey)
    ensures thrown.Some? ==> thrown.value == ArgumentNullException
  {
    if IsNullOrWhiteSpace(apiKey) then Some(ArgumentNullException) else None
  }

  /** An API key and a second string (account cookie or user name) are both required. */
  function ValidateApiKeyAnd(apiKey: Option<string>, other: Option<string>): (thrown: Option<Exception>)
    ensures thrown.Some? <==> IsNullOrWhiteSpace(apiKey) || IsNullOrWhiteSpace(other)
    ensures thrown.Some? ==> thrown.value == ArgumentNullException
  {
    if IsNullOrWhiteSpace(apiKey) || IsNullOrWhiteSpace(other) then Some(ArgumentNullException) else None
  }

  /** A session is required. */
  function ValidateSession(session: Session.SessionInfo?): (thrown: Option<Exception>)
    ensures thrown.Some? <==> session == null
    ensures thrown.Some? ==> thrown.value == ArgumentNullException
  {
    if session == null then Some(ArgumentNullException) else None
  }

  /** A session and a non-blank string (an address) are required. */
  function ValidateSessionAnd(session: Session.SessionInfo?, other: Option<string>): (thrown: Option<Exception>)
    ensures thrown.Some? <==> session == null || IsNullOrWhiteSpace(other)
    ensures thrown.Some? ==> thrown.value == ArgumentNullException
  {
    if session == null || IsNullOrWhiteSpace(other) then Some(ArgumentNullException) else None
  }

  /** A session and two non-blank strings (user name and password) are required. */
  function ValidateSessionAnd2(session: Session.SessionInfo?, other1: Option<string>, other2: Option<string>): (thrown: Option<Exception>)
    ensures thrown.Some? <==> session == null || IsNullOrWhiteSpace(other1) || IsNullOrWhiteSpace(other2)
    ensures thrown.Some? ==> thrown.value == ArgumentNullException
  {
    if session == null || IsNullOrWhiteSpace(other1) || IsNullOrWhiteSpace(other2) then Some(ArgumentNullException) else None
  }

  /**
   * A bet needs a session and a range with 0 <= low <= high < 1000000: a missing session
   * throws ArgumentNullException, a bad range ArgumentOutOfRangeException.
   */
  function ValidateRange(session: Session.SessionInfo?, guessLow: Int64, guessHigh: Int64): (thrown: Option<Exception>)
    ensures thrown.None? <==> session != null && ValidRange(guessLow, guessHigh)
    ensures session == null ==> thrown == Some(ArgumentNullException)
    ensures session != null && !ValidRange(guessLow, guessHigh) ==> thrown == Some(ArgumentOutOfRangeException)
  {
    if session == null then Some(ArgumentNullException)
    else if guessLow < 0 || guessLow > guessHigh || guessHigh >= GuessSpan then Some(ArgumentOutOfRangeException)
    else None
  }

  /** Whether settings pass their own checks: at least one bet and no negative increase. */
  predicate AcceptableSettings(settings: Settings.AutomatedBetsSettings)
    reads settings
  {
    settings.MaxBets >= 1 && settings.IncreaseOnWinPercent() >= 0.0 && settings.IncreaseOnLosePercent() >= 0.0
  }

  /**
   * An automated batch needs settings (checked first), then a session and a valid range,
   * then at least one bet and non-negative increases.
   */
  function ValidateSettings(session: Session.SessionInfo?, settings: Settings.AutomatedBetsSettings?): (thrown: Option<Exception>)
    reads settings
    ensures thrown.None? <==> settings != null && session != null && ValidRange(settings.GuessLow, settings.GuessHigh) && AcceptableSettings(settings)
    ensures settings == null ==> thrown == Some(ArgumentNullException)
    ensures settings != null && session == null ==> thrown == Some(ArgumentNullException)
    ensures settings != null && session != null && !ValidRange(settings.GuessLow, settings.GuessHigh) ==> thrown == Some(ArgumentOutOfRangeException)
    ensures settings != null && session != null && ValidRange(settings.GuessLow, settings.GuessHigh) && !AcceptableSettings(settings)
      ==> thrown == Some(ArgumentOutOfRangeException)
  {
    if settings == null then Some(ArgumentNullException)
    else
      var rangeCheck := ValidateRange(session, settings.GuessLow, settings.GuessHigh);
      if rangeCheck.Some? then rangeCheck
      else if settings.MaxBets < 1 || settings.IncreaseOnWinPercent() < 0.0 || settings.IncreaseOnLosePercent() < 0.0 then
        Some(ArgumentOutOfRangeException)
      else None
  }

  /** A maximum stake, when set (non-zero), may not be smaller in magnitude than the base stake. */
  function ValidateStakeLimit(maxAllowedPayIn: real, basePayIn: real): (thrown: Option<Exception>)
    ensures thrown.Some? <==> maxAllowedPayIn != 0.0 && maxAllowedPayIn > basePayIn
    ensures thrown.Some? ==> thrown.value == ArgumentOutOfRangeException
  {
    if maxAllowedPayIn != 0.0 && maxAllowedPayIn > basePayIn then Some(ArgumentOutOfRangeException) else None
  }

  /** A range that passes validation has a chance in (0, 1] and a defined payout multiplier. */
  lemma ValidatedRangeHasChance(session: Session.SessionInfo?, guessLow: Int64, guessHigh: Int64)
    requires ValidateRange(session, guessLow, guessHigh).None?
    ensures Odds(guessLow, guessHigh) == guessHigh - guessLow + 1
    ensures 0.0 < ChanceToWin(guessLow, guessHigh) <= 1.0
    ensures HousePayout <= PayoutMultiplier(guessLow, guessHigh)
  {
  }

  /** Settings that pass validation, and that the setters have normalised, are well formed for the replay. */
  lemma ValidatedSettingsWellFormed(session: Session.SessionInfo?, settings: Settings.AutomatedBetsSettings?)
    requires ValidateSettings(session, settings).None?
    requires settings != null && settings.Valid()
    ensures Progression.WellFormed(settings.Rules())
  {
  }
}
