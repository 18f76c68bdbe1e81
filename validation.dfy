/**
 * The wizard's validators: structural checks of manually entered host and
 * MAC, the polling-interval check of the options flow, and the connectivity
 * check that classifies a device probe.
 */
module Validation {
  import opened Wrappers
  import opened FlowTypes

  // ---------------------------------------------------------------------
  // The MAC pattern  ^([0-9A-Fa-f]{2}([-:])){5}([0-9A-Fa-f]{2})$
  // ---------------------------------------------------------------------

  predicate IsHexDigit(c: char) {
    '0' <= c <= '9' || 'A' <= c <= 'F' || 'a' <= c <= 'f'
  }

  predicate IsMacSeparator(c: char) {
    c == '-' || c == ':'
  }

  /**
   * `([0-9A-Fa-f]{2}([-:])){n}` matched at the start of `s`: what is left of
   * `s` after the n groups, or None when they do not match. Each group has a
   * fixed width, so there is nothing to backtrack over.
   */
  function MatchSeparatedPairs(s: string, n: nat): Option<string>
    decreases n
  {
    if n == 0 then Some(s)
    else if |s| >= 3 && IsHexDigit(s[0]) && IsHexDigit(s[1]) && IsMacSeparator(s[2])
    then MatchSeparatedPairs(s[3..], n - 1)
    else None
  }

  /**
   * `([0-9A-Fa-f]{2})$` matched at the start of `s`. Python's `$` matches at
   * the end of the string and also just before a newline that ends it.
   */
  predicate MatchFinalPair(s: string) {
    |s| >= 2 && IsHexDigit(s[0]) && IsHexDigit(s[1]) && (|s| == 2 || (|s| == 3 && s[2] == '\n'))
  }

  /** `_MAC_PATTERN.match(s)` succeeds. */
  predicate MacPatternMatches(s: string) {
    match MatchSeparatedPairs(s, 5)
    case None => false
    case Some(rest) => MatchFinalPair(rest)
  }

  /** Group k of a MAC address: two hex digits then a separator, at 3k. */
  ghost predicate GroupAt(s: string, k: nat) {
    3 * k + 3 <= |s| && IsHexDigit(s[3 * k]) && IsHexDigit(s[3 * k + 1]) && IsMacSeparator(s[3 * k + 2])
  }

  /** Six hex pairs, the first five each followed by `-` or `:`, chosen pair by pair. */
  ghost predicate SixHexPairs(s: string) {
    |s| == 17 && (forall k: nat :: k < 5 ==> GroupAt(s, k)) && IsHexDigit(s[15]) && IsHexDigit(s[16])
  }

  lemma GroupShift(s: string, k: nat)
    requires |s| >= 3
    ensures GroupAt(s[3..], k) <==> GroupAt(s, k + 1)
  {
  }

  /** The n separated groups match exactly when the first 3n characters are n groups. */
  lemma {:induction false} MatchSeparatedPairsSpec(s: string, n: nat)
    ensures MatchSeparatedPairs(s, n) ==
      if 3 * n <= |s| && (forall k: nat :: k < n ==> GroupAt(s, k)) then Some(s[3 * n..]) else None
  {
    if n > 0 {
      if |s| >= 3 && IsHexDigit(s[0]) && IsHexDigit(s[1]) && IsMacSeparator(s[2]) {
        MatchSeparatedPairsSpec(s[3..], n - 1);
        forall k: nat | k < n - 1 ensures GroupAt(s[3..], k) <==> GroupAt(s, k + 1) {
          GroupShift(s, k);
        }
        if 3 * n <= |s| && (forall k: nat :: k < n ==> GroupAt(s, k)) {
          assert s[3..][3 * (n - 1)..] == s[3 * n..];
        } else if 3 * n <= |s| {
          var k: nat :| k < n && !GroupAt(s, k);
          assert GroupAt(s, 0);
          GroupShift(s, k - 1);
        }
      } else {
        assert !GroupAt(s, 0);
      }
    }
  }

  /**
   * The pattern accepts exactly a canonical MAC (six hex pairs, separators
   * chosen independently) or such a MAC followed by one newline.
   */
  lemma MacPatternIff(s: string)
    ensures MacPatternMatches(s) <==>
      SixHexPairs(s) || (|s| == 18 && s[17] == '\n' && SixHexPairs(s[..17]))
  {
    MatchSeparatedPairsSpec(s, 5);
    if |s| >= 17 {
      MatchSeparatedPairsSpec(s[..17], 5);
      forall k: nat | k < 5 ensures GroupAt(s[..17], k) <==> GroupAt(s, k) {
        assert s[..17][3 * k] == s[3 * k] && s[..17][3 * k + 1] == s[3 * k + 1] && s[..17][3 * k + 2] == s[3 * k + 2];
      }
    }
  }

  /** A canonical MAC is accepted; mixed separators and lower case are fine. */
  lemma MacPatternAcceptsExamples()
    ensures MacPatternMatches("AA:BB:CC:DD:EE:FF")
    ensures MacPatternMatches("aa-BB:cc-DD:ee-FF")
  {
  }

  /** A canonical MAC followed by one newline is accepted too. */
  lemma MacPatternAcceptsTrailingNewline()
    ensures MacPatternMatches("AA:BB:CC:DD:EE:FF\n")
  {
  }

  /** Five groups, a trailing separator and dots are refused. */
  lemma MacPatternRefusesExamples()
    ensures !MacPatternMatches("AA:BB:CC:DD:EE")
    ensures !MacPatternMatches("AA:BB:CC:DD:EE:FF:")
    ensures !MacPatternMatches("AA.BB.CC.DD.EE.FF")
  {
    assert MatchSeparatedPairs("AA:BB:CC:DD:EE", 5) == None;
    assert MatchSeparatedPairs("AA:BB:CC:DD:EE:FF:", 5) == Some("FF:");
    assert MatchSeparatedPairs("AA.BB.CC.DD.EE.FF", 5) == None;
  }

  // ---------------------------------------------------------------------
  // Manual input
  // ---------------------------------------------------------------------

  /** What the manual-entry form submits (host, type, key and add-another have schema defaults). */
  datatype ManualInput = ManualInput(
    name: Option<string>,
    host: string,
    devType: string,
    apiKey: string,
    mac: Option<string>,
    addAnother: bool)

  /**
   * Structural validation of the manual form. `isIp` stands for
   * `ipaddress.ip_address` not raising ValueError.
   */
  function ValidateManualInput(input: ManualInput, isIp: string -> bool): (errors: Errors)
    ensures errors.Keys <= {HostField, MacField}
    ensures HostField in errors <==> input.host != "" && !isIp(input.host)
    ensures MacField in errors <==> Truthy(input.mac) && !MacPatternMatches(input.mac.value)
    ensures HostField in errors ==> errors[HostField] == InvalidHost
    ensures MacField in errors ==> errors[MacField] == InvalidMac
  {
    var hostErrors: Errors := if input.host != "" && !isIp(input.host) then map[HostField := InvalidHost] else map[];
    if Truthy(input.mac) && !MacPatternMatches(input.mac.value)
    then hostErrors[MacField := InvalidMac]
    else hostErrors
  }

  /**
   * The MAC field is accepted (absent, empty or well formed) exactly when it
   * is not a non-empty string other than a canonical MAC, optionally newline-terminated.
   */
  lemma ManualMacErrorIff(input: ManualInput, isIp: string -> bool)
    ensures MacField !in ValidateManualInput(input, isIp) <==>
      !Truthy(input.mac) || SixHexPairs(input.mac.value) ||
      (|input.mac.value| == 18 && input.mac.value[17] == '\n' && SixHexPairs(input.mac.value[..17]))
  {
    if input.mac.Some? {
      MacPatternIff(input.mac.value);
    }
  }

  // ---------------------------------------------------------------------
  // Polling interval and connectivity
  // ---------------------------------------------------------------------

  /**
   * Validates a polling interval. `parseFloat` stands for Python's `float()`:
   * None when it raises ValueError, the parsed number otherwise.
   */
  function ValidatePooling(value: string, parseFloat: string -> Option<real>): (errors: Errors)
    ensures errors.Keys <= {UpdatePoolingField}
    ensures parseFloat(value).None? ==> errors == map[UpdatePoolingField := InvalidValue]
    ensures parseFloat(value) == Some(0.0) ==> errors == map[UpdatePoolingField := InvalidZero]
    ensures parseFloat(value).Some? && parseFloat(value).value != 0.0 ==> errors == map[]
    ensures errors == map[] <==> parseFloat(value).Some? && parseFloat(value).value != 0.0
  {
    match parseFloat(value)
    case None => OneErrorNotEmpty(UpdatePoolingField, InvalidValue); map[UpdatePoolingField := InvalidValue]
    case Some(v) =>
      if v == 0.0 then OneErrorNotEmpty(UpdatePoolingField, InvalidZero); map[UpdatePoolingField := InvalidZero]
      else map[]
  }

  /** Negative intervals are not refused: only zero and non-numbers are. */
  lemma NegativePoolingAccepted(value: string, parseFloat: string -> Option<real>)
    requires parseFloat(value).Some? && parseFloat(value).value < 0.0
    ensures ValidatePooling(value, parseFloat) == map[]
  {
  }

  /**
   * Connectivity check of one device: `probe` stands for fetching the device
   * information with the record's host and key.
   */
  function ValidateInput(device: DeviceRecord, probe: DeviceRecord -> FetchOutcome): (errors: Errors)
    ensures probe(device) == Fetched ==> errors == map[]
    ensures probe(device) == FetchedFalse ==> errors == map[ApiKeyField := WrongApiKey]
    ensures probe(device) == Raised ==> errors == map[HostField := CannotConnect]
    ensures errors == map[] <==> probe(device) == Fetched
  {
    match probe(device)
    case Fetched => map[]
    case FetchedFalse => OneErrorNotEmpty(ApiKeyField, WrongApiKey); map[ApiKeyField := WrongApiKey]
    case Raised => OneErrorNotEmpty(HostField, CannotConnect); map[HostField := CannotConnect]
  }
}
