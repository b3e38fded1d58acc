/**
 * The listener's configuration: the declared options with their defaults,
 * and the validation that turns the user's parameters into a configuration
 * or a configuration error.
 */
module Configuration {
  import opened Wrappers
  import opened JavaInts

  type String = seq<char>

  /** The user's parameters, as the listener context holds them: option name to text. */
  type Parameters = map<String, String>

  // Option names.
  const API_URL_PARAM: String := "datadogUrl"
  const LOG_INTAKE_URL_PARAM: String := "logIntakeUrl"
  const API_KEY_PARAM: String := "apiKey"
  const METRICS_MAX_BATCH_SIZE: String := "metricsMaxBatchSize"
  const LOGS_BATCH_SIZE: String := "logsBatchSize"
  const SEND_RESULTS_AS_LOGS: String := "sendResultsAsLogs"
  const INCLUDE_SUB_RESULTS: String := "includeSubresults"
  const EXCLUDE_LOGS_RESPONSE_CODE_REGEX: String := "excludeLogsResponseCodeRegex"
  const SAMPLERS_REGEX: String := "samplersRegex"
  const CUSTOM_TAGS: String := "customTags"

  // Defaults.
  const DEFAULT_API_URL: String := "https://api.datadoghq.com/api/"
  const DEFAULT_LOG_INTAKE_URL: String := "https://http-intake.logs.datadoghq.com/v1/input/"
  const DEFAULT_METRICS_MAX_BATCH_SIZE: Int32 := 200
  const DEFAULT_LOGS_BATCH_SIZE: Int32 := 500
  const DEFAULT_SEND_RESULTS_AS_LOGS: bool := true
  const DEFAULT_INCLUDE_SUB_RESULTS: bool := false
  const DEFAULT_EXCLUDE_LOGS_RESPONSE_CODE_REGEX: String := ""
  const DEFAULT_SAMPLERS_REGEX: String := ""
  const DEFAULT_CUSTOM_TAGS: String := ""

  /**
   * A parsed configuration. The two regular expressions are kept as their
   * source text; compiling them is the regex library's business.
   */
  datatype DatadogConfiguration = DatadogConfiguration(
    apiKey: String,
    apiUrl: String,
    logIntakeUrl: String,
    metricsMaxBatchSize: Int32,
    logsBatchSize: Int32,
    sendResultsAsLogs: bool,
    includeSubResults: bool,
    samplersRegex: String,
    excludeLogsResponseCodeRegex: String,
    customTags: seq<String>)

  /** The configuration exception, one variant per check, carrying the rejected text. */
  datatype ConfigurationError =
    | MissingApiKey
    | InvalidMetricsMaxBatchSize(text: String)
    | InvalidLogsBatchSize(text: String)
    | InvalidSendResultsAsLogs(text: String)
    | InvalidIncludeSubResults(text: String)

  /** The exception's message. */
  function Message(e: ConfigurationError): String
  {
    match e
    case MissingApiKey => "apiKey needs to be configured."
    case InvalidMetricsMaxBatchSize(t) => "Invalid 'metricsMaxBatchSize'. Value '" + t + "' is not an integer."
    case InvalidLogsBatchSize(t) => "Invalid 'logsBatchSize'. Value '" + t + "' is not an integer."
    case InvalidSendResultsAsLogs(t) => "Invalid 'sendResultsAsLogs'. Value '" + t + "' is not a boolean."
    case InvalidIncludeSubResults(t) => "Invalid 'includeSubResults'. Value '" + t + "' is not a boolean."
  }

  /** `getParameter(name, default)`: the supplied text, or the default when the option is absent. */
  function GetParameter(params: Parameters, name: String, default: String): String
  {
    if name in params then params[name] else default
  }

  // ----- Integer.parseUnsignedInt, base 10 -----

  predicate IsDigit(c: char) { '0' <= c <= '9' }

  predicate AllDigits(s: String) { forall i :: 0 <= i < |s| ==> IsDigit(s[i]) }

  /** The number a string of decimal digits denotes. */
  function DigitsValue(s: String): (n: nat)
    requires AllDigits(s)
  {
    if s == [] then 0 else 10 * DigitsValue(s[..|s| - 1]) + (s[|s| - 1] as int - '0' as int)
  }

  /** The digits of an unsigned integer: one optional leading '+', then at least one digit. */
  function UnsignedDigits(s: String): Option<String>
  {
    var digits := if |s| > 0 && s[0] == '+' then s[1..] else s;
    if |digits| > 0 && AllDigits(digits) then Some(digits) else None
  }

  /**
   * `Integer.parseUnsignedInt`: None where Java throws NumberFormatException.
   * Values from 2^31 to 2^32 - 1 are accepted and come back as negative
   * `int`s, as in Java.
   */
  function ParseUnsignedInt(s: String): (r: Option<Int32>)
    ensures r.Some? <==> UnsignedDigits(s).Some? && DigitsValue(UnsignedDigits(s).value) < TWO_32
    ensures r.Some? ==> (r.value - DigitsValue(UnsignedDigits(s).value)) % TWO_32 == 0
    ensures r.Some? && DigitsValue(UnsignedDigits(s).value) < 0x8000_0000 ==>
      r.value == DigitsValue(UnsignedDigits(s).value)
  {
    match UnsignedDigits(s)
    case None => None
    case Some(digits) =>
      var n := DigitsValue(digits);
      if n < TWO_32 then Some(WrapInt(n)) else None
  }

  /** The decimal text of a natural number, as `String.valueOf` writes it. */
  function Decimal(n: nat): (s: String)
    ensures |s| > 0 && AllDigits(s)
  {
    if n < 10 then [('0' as int + n) as char]
    else Decimal(n / 10) + [('0' as int + n % 10) as char]
  }

  /** Reading back the decimal text of a number gives the number. */
  lemma {:induction false} DecimalRoundTrip(n: nat)
    ensures DigitsValue(Decimal(n)) == n
  {
    if n >= 10 {
      var s := Decimal(n);
      assert s[..|s| - 1] == Decimal(n / 10);
      DecimalRoundTrip(n / 10);
    }
  }

  /** `parseUnsignedInt(String.valueOf(n))` gives back n for every non-negative `int`. */
  lemma ParseUnsignedIntOfDecimal(n: nat)
    requires n < 0x8000_0000
    ensures ParseUnsignedInt(Decimal(n)) == Some(n)
  {
    DecimalRoundTrip(n);
    assert Decimal(n)[0] != '+';
  }

  // ----- booleans -----

  /** `toLowerCase` on ASCII letters. */
  function LowerAscii(s: String): (r: String)
    ensures |r| == |s|
    ensures forall i :: 0 <= i < |s| ==>
      r[i] == (if 'A' <= s[i] <= 'Z' then (s[i] as int + 32) as char else s[i])
  {
    if s == [] then []
    else LowerAscii(s[..|s| - 1]) + [if 'A' <= s[|s| - 1] <= 'Z' then (s[|s| - 1] as int + 32) as char else s[|s| - 1]]
  }

  /** The check the source makes before `Boolean.parseBoolean`: "true" or "false" in any case. */
  predicate IsBooleanText(s: String)
  {
    LowerAscii(s) == "true" || LowerAscii(s) == "false"
  }

  /** `String.valueOf` of a boolean. */
  function BooleanText(b: bool): String
  {
    if b then "true" else "false"
  }

  /** `Boolean.parseBoolean`: true exactly for "true" in any case. */
  predicate ParseBoolean(s: String)
  {
    LowerAscii(s) == "true"
  }

  // ----- custom tags -----

  /** The pieces of `s` between commas, empty pieces included (a regex split with no limit). */
  function SplitOnComma(s: String): (pieces: seq<String>)
    ensures |pieces| > 0
    ensures forall i :: 0 <= i < |pieces| ==> ',' !in pieces[i]
  {
    if s == [] then [""]
    else
      var init := SplitOnComma(s[..|s| - 1]);
      if s[|s| - 1] == ',' then init + [""]
      else init[..|init| - 1] + [init[|init| - 1] + [s[|s| - 1]]]
  }

  /** Pieces joined back with commas. */
  function JoinWithComma(pieces: seq<String>): String
    requires |pieces| > 0
  {
    if |pieces| == 1 then pieces[0] else JoinWithComma(pieces[..|pieces| - 1]) + "," + pieces[|pieces| - 1]
  }

  /** Splitting on commas loses nothing: joining the pieces gives the string back. */
  lemma {:induction false} SplitJoinRoundTrip(s: String)
    ensures JoinWithComma(SplitOnComma(s)) == s
  {
    if s != [] {
      var init := s[..|s| - 1];
      var c := s[|s| - 1];
      var p := SplitOnComma(init);
      SplitJoinRoundTrip(init);
      if c == ',' {
        assert s == init + [c];
      } else {
        var q := p[..|p| - 1] + [p[|p| - 1] + [c]];
        assert SplitOnComma(s) == q;
        if |p| == 1 {
          assert s == init + [c];
        } else {
          assert q[..|q| - 1] == p[..|p| - 1];
          assert JoinWithComma(q) == JoinWithComma(p[..|p| - 1]) + "," + (p[|p| - 1] + [c]);
          assert JoinWithComma(p) == JoinWithComma(p[..|p| - 1]) + "," + p[|p| - 1];
          assert s == init + [c];
        }
      }
    }
  }

  /** `split` drops the empty pieces at the end. */
  function DropTrailingEmpty(pieces: seq<String>): (r: seq<String>)
    ensures r <= pieces
    ensures |r| > 0 ==> r[|r| - 1] != ""
    ensures forall i :: |r| <= i < |pieces| ==> pieces[i] == ""
  {
    if pieces == [] || pieces[|pieces| - 1] != "" then pieces
    else DropTrailingEmpty(pieces[..|pieces| - 1])
  }

  /** The custom tags: comma-separated pieces when there is a comma, else the whole text if non-empty. */
  function ParseCustomTags(s: String): (tags: seq<String>)
    ensures s == "" ==> tags == []
    ensures s != "" && ',' !in s ==> tags == [s]
    ensures ',' in s ==> tags == DropTrailingEmpty(SplitOnComma(s))
    ensures forall i :: 0 <= i < |tags| ==> ',' !in tags[i]
  {
    if ',' in s then DropTrailingEmpty(SplitOnComma(s))
    else if s == "" then []
    else [s]
  }

  // ----- the options and their validation -----

  /** `getPluginArguments`: the ten options shown to the user, each with its default (None for null). */
  function PluginArguments(): (args: seq<(String, Option<String>)>)
    ensures |args| == 10
    ensures forall i, j :: 0 <= i < j < |args| ==> args[i].0 != args[j].0
  {
    [ (API_KEY_PARAM, None),
      (API_URL_PARAM, Some(DEFAULT_API_URL)),
      (LOG_INTAKE_URL_PARAM, Some(DEFAULT_LOG_INTAKE_URL)),
      (METRICS_MAX_BATCH_SIZE, Some(Decimal(DEFAULT_METRICS_MAX_BATCH_SIZE))),
      (LOGS_BATCH_SIZE, Some(Decimal(DEFAULT_LOGS_BATCH_SIZE))),
      (SEND_RESULTS_AS_LOGS, Some(BooleanText(DEFAULT_SEND_RESULTS_AS_LOGS))),
      (INCLUDE_SUB_RESULTS, Some(BooleanText(DEFAULT_INCLUDE_SUB_RESULTS))),
      (EXCLUDE_LOGS_RESPONSE_CODE_REGEX, Some(DEFAULT_EXCLUDE_LOGS_RESPONSE_CODE_REGEX)),
      (SAMPLERS_REGEX, Some(DEFAULT_SAMPLERS_REGEX)),
      (CUSTOM_TAGS, Some(DEFAULT_CUSTOM_TAGS)) ]
  }

  /**
   * `parseConfiguration`: the checks run in order (apiKey, metricsMaxBatchSize,
   * logsBatchSize, sendResultsAsLogs, includeSubresults) and the first that
   * fails decides the error.
   */
  function ParseConfiguration(params: Parameters): Result<DatadogConfiguration, ConfigurationError>
  {
    if API_KEY_PARAM !in params then Failure(MissingApiKey)
    else
      var metricsMaxBatchSize := GetParameter(params, METRICS_MAX_BATCH_SIZE, Decimal(DEFAULT_METRICS_MAX_BATCH_SIZE));
      var logsBatchSize := GetParameter(params, LOGS_BATCH_SIZE, Decimal(DEFAULT_LOGS_BATCH_SIZE));
      var sendResultsAsLogs := GetParameter(params, SEND_RESULTS_AS_LOGS, BooleanText(DEFAULT_SEND_RESULTS_AS_LOGS));
      var includeSubResults := GetParameter(params, INCLUDE_SUB_RESULTS, BooleanText(DEFAULT_INCLUDE_SUB_RESULTS));
      if ParseUnsignedInt(metricsMaxBatchSize).None? then Failure(InvalidMetricsMaxBatchSize(metricsMaxBatchSize))
      else if ParseUnsignedInt(logsBatchSize).None? then Failure(InvalidLogsBatchSize(logsBatchSize))
      else if !IsBooleanText(sendResultsAsLogs) then Failure(InvalidSendResultsAsLogs(sendResultsAsLogs))
      else if !IsBooleanText(includeSubResults) then Failure(InvalidIncludeSubResults(includeSubResults))
      else
        Success(DatadogConfiguration(
          params[API_KEY_PARAM],
          GetParameter(params, API_URL_PARAM, DEFAULT_API_URL),
          GetParameter(params, LOG_INTAKE_URL_PARAM, DEFAULT_LOG_INTAKE_URL),
          ParseUnsignedInt(metricsMaxBatchSize).value,
          ParseUnsignedInt(logsBatchSize).value,
          ParseBoolean(sendResultsAsLogs),
          ParseBoolean(includeSubResults),
          GetParameter(params, SAMPLERS_REGEX, DEFAULT_SAMPLERS_REGEX),
          GetParameter(params, EXCLUDE_LOGS_RESPONSE_CODE_REGEX, DEFAULT_EXCLUDE_LOGS_RESPONSE_CODE_REGEX),
          ParseCustomTags(GetParameter(params, CUSTOM_TAGS, DEFAULT_CUSTOM_TAGS))))
  }

  /** The configuration every absent option falls back to, for a given API key. */
  function Defaults(apiKey: String): DatadogConfiguration
  {
    DatadogConfiguration(apiKey, DEFAULT_API_URL, DEFAULT_LOG_INTAKE_URL,
      DEFAULT_METRICS_MAX_BATCH_SIZE, DEFAULT_LOGS_BATCH_SIZE,
      DEFAULT_SEND_RESULTS_AS_LOGS, DEFAULT_INCLUDE_SUB_RESULTS,
      DEFAULT_SAMPLERS_REGEX, DEFAULT_EXCLUDE_LOGS_RESPONSE_CODE_REGEX, [])
  }

  /** The text of a boolean is accepted and parses back to that boolean. */
  lemma BooleanTextRoundTrip(b: bool)
    ensures IsBooleanText(BooleanText(b)) && ParseBoolean(BooleanText(b)) == b
  {
    assert LowerAscii("true") == "true";
    assert LowerAscii("false") == "false";
  }

  /** Without an API key, parsing fails with the missing-key error whatever else is given. */
  lemma MissingApiKeyFails(params: Parameters)
    requires API_KEY_PARAM !in params
    ensures ParseConfiguration(params) == Failure(MissingApiKey)
  {
  }

  /**
   * The first failing check decides the error: apiKey, then
   * metricsMaxBatchSize, then logsBatchSize, then sendResultsAsLogs, then
   * includeSubresults.
   */
  lemma ParseErrorPrecedence(params: Parameters)
    requires API_KEY_PARAM in params
    ensures var m := GetParameter(params, METRICS_MAX_BATCH_SIZE, Decimal(DEFAULT_METRICS_MAX_BATCH_SIZE));
      ParseUnsignedInt(m).None? ==> ParseConfiguration(params) == Failure(InvalidMetricsMaxBatchSize(m))
    ensures var m := GetParameter(params, METRICS_MAX_BATCH_SIZE, Decimal(DEFAULT_METRICS_MAX_BATCH_SIZE));
      var l := GetParameter(params, LOGS_BATCH_SIZE, Decimal(DEFAULT_LOGS_BATCH_SIZE));
      ParseUnsignedInt(m).Some? && ParseUnsignedInt(l).None? ==>
        ParseConfiguration(params) == Failure(InvalidLogsBatchSize(l))
    ensures var m := GetParameter(params, METRICS_MAX_BATCH_SIZE, Decimal(DEFAULT_METRICS_MAX_BATCH_SIZE));
      var l := GetParameter(params, LOGS_BATCH_SIZE, Decimal(DEFAULT_LOGS_BATCH_SIZE));
      var s := GetParameter(params, SEND_RESULTS_AS_LOGS, BooleanText(DEFAULT_SEND_RESULTS_AS_LOGS));
      ParseUnsignedInt(m).Some? && ParseUnsignedInt(l).Some? && !IsBooleanText(s) ==>
        ParseConfiguration(params) == Failure(InvalidSendResultsAsLogs(s))
    ensures var m := GetParameter(params, METRICS_MAX_BATCH_SIZE, Decimal(DEFAULT_METRICS_MAX_BATCH_SIZE));
      var l := GetParameter(params, LOGS_BATCH_SIZE, Decimal(DEFAULT_LOGS_BATCH_SIZE));
      var s := GetParameter(params, SEND_RESULTS_AS_LOGS, BooleanText(DEFAULT_SEND_RESULTS_AS_LOGS));
      var i := GetParameter(params, INCLUDE_SUB_RESULTS, BooleanText(DEFAULT_INCLUDE_SUB_RESULTS));
      ParseUnsignedInt(m).Some? && ParseUnsignedInt(l).Some? && IsBooleanText(s) && !IsBooleanText(i) ==>
        ParseConfiguration(params) == Failure(InvalidIncludeSubResults(i))
    ensures var m := GetParameter(params, METRICS_MAX_BATCH_SIZE, Decimal(DEFAULT_METRICS_MAX_BATCH_SIZE));
      var l := GetParameter(params, LOGS_BATCH_SIZE, Decimal(DEFAULT_LOGS_BATCH_SIZE));
      var s := GetParameter(params, SEND_RESULTS_AS_LOGS, BooleanText(DEFAULT_SEND_RESULTS_AS_LOGS));
      var i := GetParameter(params, INCLUDE_SUB_RESULTS, BooleanText(DEFAULT_INCLUDE_SUB_RESULTS));
      ParseConfiguration(params).Success? <==>
        ParseUnsignedInt(m).Some? && ParseUnsignedInt(l).Some? && IsBooleanText(s) && IsBooleanText(i)
  {
  }

  /** Parameters in which every option other than the API key reads as its default. */
  predicate ReadsAsDefaults(p: Parameters)
  {
    && GetParameter(p, API_URL_PARAM, DEFAULT_API_URL) == DEFAULT_API_URL
    && GetParameter(p, LOG_INTAKE_URL_PARAM, DEFAULT_LOG_INTAKE_URL) == DEFAULT_LOG_INTAKE_URL
    && GetParameter(p, METRICS_MAX_BATCH_SIZE, Decimal(DEFAULT_METRICS_MAX_BATCH_SIZE)) == Decimal(DEFAULT_METRICS_MAX_BATCH_SIZE)
    && GetParameter(p, LOGS_BATCH_SIZE, Decimal(DEFAULT_LOGS_BATCH_SIZE)) == Decimal(DEFAULT_LOGS_BATCH_SIZE)
    && GetParameter(p, SEND_RESULTS_AS_LOGS, BooleanText(DEFAULT_SEND_RESULTS_AS_LOGS)) == BooleanText(DEFAULT_SEND_RESULTS_AS_LOGS)
    && GetParameter(p, INCLUDE_SUB_RESULTS, BooleanText(DEFAULT_INCLUDE_SUB_RESULTS)) == BooleanText(DEFAULT_INCLUDE_SUB_RESULTS)
    && GetParameter(p, SAMPLERS_REGEX, DEFAULT_SAMPLERS_REGEX) == DEFAULT_SAMPLERS_REGEX
    && GetParameter(p, EXCLUDE_LOGS_RESPONSE_CODE_REGEX, DEFAULT_EXCLUDE_LOGS_RESPONSE_CODE_REGEX) == DEFAULT_EXCLUDE_LOGS_RESPONSE_CODE_REGEX
    && GetParameter(p, CUSTOM_TAGS, DEFAULT_CUSTOM_TAGS) == DEFAULT_CUSTOM_TAGS
  }

  /** Parameters that read as the defaults parse to the default configuration. */
  lemma ParsesToDefaults(p: Parameters)
    requires API_KEY_PARAM in p && ReadsAsDefaults(p)
    ensures ParseConfiguration(p) == Success(Defaults(p[API_KEY_PARAM]))
  {
    ParseUnsignedIntOfDecimal(DEFAULT_METRICS_MAX_BATCH_SIZE);
    ParseUnsignedIntOfDecimal(DEFAULT_LOGS_BATCH_SIZE);
    BooleanTextRoundTrip(DEFAULT_SEND_RESULTS_AS_LOGS);
    BooleanTextRoundTrip(DEFAULT_INCLUDE_SUB_RESULTS);
  }

  /** With only an API key, parsing succeeds and every other option takes its default. */
  lemma OnlyApiKeyGivesDefaults(apiKey: String)
    ensures ParseConfiguration(map[API_KEY_PARAM := apiKey]) == Success(Defaults(apiKey))
  {
    ParsesToDefaults(map[API_KEY_PARAM := apiKey]);
  }

  /**
   * Valid values supplied for every option come back unchanged from the
   * configuration: texts as given, numbers as written, booleans as written.
   */
  lemma SuppliedValuesComeBack(apiKey: String, apiUrl: String, logIntakeUrl: String,
                               metricsMaxBatchSize: nat, logsBatchSize: nat,
                               sendResultsAsLogs: bool, includeSubResults: bool,
                               samplersRegex: String, excludeRegex: String)
    requires metricsMaxBatchSize < 0x8000_0000 && logsBatchSize < 0x8000_0000
    ensures ParseConfiguration(map[
        API_KEY_PARAM := apiKey, API_URL_PARAM := apiUrl, LOG_INTAKE_URL_PARAM := logIntakeUrl,
        METRICS_MAX_BATCH_SIZE := Decimal(metricsMaxBatchSize), LOGS_BATCH_SIZE := Decimal(logsBatchSize),
        SEND_RESULTS_AS_LOGS := BooleanText(sendResultsAsLogs),
        INCLUDE_SUB_RESULTS := BooleanText(includeSubResults),
        SAMPLERS_REGEX := samplersRegex, EXCLUDE_LOGS_RESPONSE_CODE_REGEX := excludeRegex])
      == Success(DatadogConfiguration(apiKey, apiUrl, logIntakeUrl, metricsMaxBatchSize, logsBatchSize,
                                      sendResultsAsLogs, includeSubResults, samplersRegex, excludeRegex, []))
  {
    var p := map[
        API_KEY_PARAM := apiKey, API_URL_PARAM := apiUrl, LOG_INTAKE_URL_PARAM := logIntakeUrl,
        METRICS_MAX_BATCH_SIZE := Decimal(metricsMaxBatchSize), LOGS_BATCH_SIZE := Decimal(logsBatchSize),
        SEND_RESULTS_AS_LOGS := BooleanText(sendResultsAsLogs),
        INCLUDE_SUB_RESULTS := BooleanText(includeSubResults),
        SAMPLERS_REGEX := samplersRegex, EXCLUDE_LOGS_RESPONSE_CODE_REGEX := excludeRegex];
    assert GetParameter(p, API_URL_PARAM, DEFAULT_API_URL) == apiUrl;
    assert GetParameter(p, LOG_INTAKE_URL_PARAM, DEFAULT_LOG_INTAKE_URL) == logIntakeUrl;
    assert GetParameter(p, METRICS_MAX_BATCH_SIZE, Decimal(DEFAULT_METRICS_MAX_BATCH_SIZE)) == Decimal(metricsMaxBatchSize);
    assert GetParameter(p, LOGS_BATCH_SIZE, Decimal(DEFAULT_LOGS_BATCH_SIZE)) == Decimal(logsBatchSize);
    assert GetParameter(p, SEND_RESULTS_AS_LOGS, BooleanText(DEFAULT_SEND_RESULTS_AS_LOGS)) == BooleanText(sendResultsAsLogs);
    assert GetParameter(p, INCLUDE_SUB_RESULTS, BooleanText(DEFAULT_INCLUDE_SUB_RESULTS)) == BooleanText(includeSubResults);
    assert GetParameter(p, SAMPLERS_REGEX, DEFAULT_SAMPLERS_REGEX) == samplersRegex;
    assert GetParameter(p, EXCLUDE_LOGS_RESPONSE_CODE_REGEX, DEFAULT_EXCLUDE_LOGS_RESPONSE_CODE_REGEX) == excludeRegex;
    assert GetParameter(p, CUSTOM_TAGS, DEFAULT_CUSTOM_TAGS) == "";
    ParsesSupplied(p, metricsMaxBatchSize, logsBatchSize, sendResultsAsLogs, includeSubResults);
  }

  /** Parameters whose numbers and booleans are written as valid texts parse to those values, and texts come back as given. */
  lemma ParsesSupplied(p: Parameters, metricsMaxBatchSize: nat, logsBatchSize: nat,
                       sendResultsAsLogs: bool, includeSubResults: bool)
    requires API_KEY_PARAM in p
    requires metricsMaxBatchSize < 0x8000_0000 && logsBatchSize < 0x8000_0000
    requires GetParameter(p, METRICS_MAX_BATCH_SIZE, Decimal(DEFAULT_METRICS_MAX_BATCH_SIZE)) == Decimal(metricsMaxBatchSize)
    requires GetParameter(p, LOGS_BATCH_SIZE, Decimal(DEFAULT_LOGS_BATCH_SIZE)) == Decimal(logsBatchSize)
    requires GetParameter(p, SEND_RESULTS_AS_LOGS, BooleanText(DEFAULT_SEND_RESULTS_AS_LOGS)) == BooleanText(sendResultsAsLogs)
    requires GetParameter(p, INCLUDE_SUB_RESULTS, BooleanText(DEFAULT_INCLUDE_SUB_RESULTS)) == BooleanText(includeSubResults)
    ensures ParseConfiguration(p) == Success(DatadogConfiguration(
      p[API_KEY_PARAM],
      GetParameter(p, API_URL_PARAM, DEFAULT_API_URL),
      GetParameter(p, LOG_INTAKE_URL_PARAM, DEFAULT_LOG_INTAKE_URL),
      metricsMaxBatchSize, logsBatchSize, sendResultsAsLogs, includeSubResults,
      GetParameter(p, SAMPLERS_REGEX, DEFAULT_SAMPLERS_REGEX),
      GetParameter(p, EXCLUDE_LOGS_RESPONSE_CODE_REGEX, DEFAULT_EXCLUDE_LOGS_RESPONSE_CODE_REGEX),
      ParseCustomTags(GetParameter(p, CUSTOM_TAGS, DEFAULT_CUSTOM_TAGS))))
  {
    ParseUnsignedIntOfDecimal(metricsMaxBatchSize);
    ParseUnsignedIntOfDecimal(logsBatchSize);
    BooleanTextRoundTrip(sendResultsAsLogs);
    BooleanTextRoundTrip(includeSubResults);
  }

  /** The parameters that declare each option's default, plus an API key. */
  function ArgumentDefaults(args: seq<(String, Option<String>)>, apiKey: String): Parameters
  {
    if args == [] then map[API_KEY_PARAM := apiKey]
    else
      var rest := ArgumentDefaults(args[..|args| - 1], apiKey);
      var (name, default) := args[|args| - 1];
      if default.Some? && name != API_KEY_PARAM then rest[name := default.value] else rest
  }

  /** Each declared default, under a distinct name other than the API key, is what the parameters hold. */
  lemma {:induction false} ArgumentDefaultsLookup(args: seq<(String, Option<String>)>, apiKey: String, i: nat)
    requires forall j, k :: 0 <= j < k < |args| ==> args[j].0 != args[k].0
    requires i < |args| && args[i].1.Some? && args[i].0 != API_KEY_PARAM
    ensures args[i].0 in ArgumentDefaults(args, apiKey)
    ensures ArgumentDefaults(args, apiKey)[args[i].0] == args[i].1.value
  {
    var init := args[..|args| - 1];
    if i < |args| - 1 {
      assert init[i] == args[i];
      ArgumentDefaultsLookup(init, apiKey, i);
    }
  }

  /** Supplying every declared default explicitly parses to the same configuration as leaving them out. */
  lemma DeclaredDefaultsAgreeWithParsing(apiKey: String)
    ensures ParseConfiguration(ArgumentDefaults(PluginArguments(), apiKey)) == Success(Defaults(apiKey))
  {
    var args := PluginArguments();
    var p := ArgumentDefaults(args, apiKey);
    assert API_KEY_PARAM in p && p[API_KEY_PARAM] == apiKey by {
      ApiKeyKept(args, apiKey);
    }
    forall i | 1 <= i < 10
      ensures args[i].0 in p && p[args[i].0] == args[i].1.value
    {
      ArgumentDefaultsLookup(args, apiKey, i);
    }
    assert args[1].0 == API_URL_PARAM && args[2].0 == LOG_INTAKE_URL_PARAM;
    assert args[3].0 == METRICS_MAX_BATCH_SIZE && args[4].0 == LOGS_BATCH_SIZE;
    assert args[5].0 == SEND_RESULTS_AS_LOGS && args[6].0 == INCLUDE_SUB_RESULTS;
    assert args[7].0 == EXCLUDE_LOGS_RESPONSE_CODE_REGEX && args[8].0 == SAMPLERS_REGEX;
    assert args[9].0 == CUSTOM_TAGS;
    ParsesToDefaults(p);
  }

  /** The API key given alongside the declared defaults is never overwritten. */
  lemma {:induction false} ApiKeyKept(args: seq<(String, Option<String>)>, apiKey: String)
    ensures API_KEY_PARAM in ArgumentDefaults(args, apiKey)
    ensures ArgumentDefaults(args, apiKey)[API_KEY_PARAM] == apiKey
  {
    if args != [] {
      ApiKeyKept(args[..|args| - 1], apiKey);
    }
  }

  /** One character appended: a comma opens a new piece, any other character extends the last one. */
  lemma SplitOnCommaStep(s: String, c: char)
    ensures var init := SplitOnComma(s);
      SplitOnComma(s + [c]) ==
        if c == ',' then init + [""] else init[..|init| - 1] + [init[|init| - 1] + [c]]
  {
    assert (s + [c])[..|s|] == s;
  }

  /** Trailing empty pieces are dropped: "a,b,," gives the tags "a" and "b". */
  lemma TrailingCommasDropped()
    ensures ParseCustomTags("a,b,,") == ["a", "b"]
  {
    SplitExample();
    DropExample(["a", "b", "", ""]);
    assert "a,b,,"[1] == ',';
  }

  lemma SplitExample()
    ensures SplitOnComma("a,b,,") == ["a", "b", "", ""]
  {
    SplitABComma();
    SplitOnCommaStep("a,b,", ',');
    assert "a,b," + [','] == "a,b,,";
  }

  lemma SplitA()
    ensures SplitOnComma("a") == ["a"]
  {
    SplitOnCommaStep("", 'a');
    assert "" + ['a'] == "a";
  }

  lemma SplitAComma()
    ensures SplitOnComma("a,") == ["a", ""]
  {
    SplitA();
    SplitOnCommaStep("a", ',');
    assert "a" + [','] == "a,";
  }

  lemma SplitAB()
    ensures SplitOnComma("a,b") == ["a", "b"]
  {
    SplitAComma();
    SplitOnCommaStep("a,", 'b');
    assert "a," + ['b'] == "a,b";
    assert "" + ['b'] == "b";
    assert ["a", ""][..1] == ["a"];
  }

  lemma SplitABComma()
    ensures SplitOnComma("a,b,") == ["a", "b", ""]
  {
    SplitAB();
    SplitOnCommaStep("a,b", ',');
    assert "a,b" + [','] == "a,b,";
  }

  lemma DropExample(pieces: seq<String>)
    requires pieces == ["a", "b", "", ""]
    ensures DropTrailingEmpty(pieces) == ["a", "b"]
  {
    assert pieces[|pieces| - 1] == "";
    assert pieces[..3] == ["a", "b", ""];
    assert DropTrailingEmpty(pieces) == DropTrailingEmpty(["a", "b", ""]);
    assert ["a", "b", ""][..2] == ["a", "b"];
    assert ["a", "b"][1] != "" by { assert |["a", "b"][1]| == 1; }
  }

  /** A leading empty piece is kept: ",a" gives the tags "" and "a". */
  lemma LeadingEmptyTagKept()
    ensures ParseCustomTags(",a") == ["", "a"]
  {
    SplitCommaA();
    assert ",a"[0] == ',';
  }

  lemma SplitComma()
    ensures SplitOnComma(",") == ["", ""]
  {
    SplitOnCommaStep("", ',');
    assert "" + [','] == ",";
  }

  lemma SplitCommaA()
    ensures SplitOnComma(",a") == ["", "a"]
  {
    SplitComma();
    SplitOnCommaStep(",", 'a');
    assert "," + ['a'] == ",a";
    assert "" + ['a'] == "a";
    assert ["", ""][..1] == [""];
  }
}
