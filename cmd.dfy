/** The log-level choice of `setupLogger` (declared identically in
    cmd/run.go and cmd/root.go): the flag value is upper-cased and compared
    with three keywords; anything else keeps the default, Info. */
module Cmd {

  /** The four zap levels the switch can pick. */
  datatype Level = DebugLevel | InfoLevel | WarnLevel | ErrorLevel

  /** The default value of the `--loglevel` flag. */
  const DefaultLogLevel: string := "info"

  /** ASCII upper-casing of one character; every other character is left
      as it is. */
  function ToUpperChar(c: char): char
  {
    if 'a' <= c <= 'z' then (c as int - 'a' as int + 'A' as int) as char else c
  }

  /** `strings.ToUpper`, character by character. */
  function ToUpper(s: string): (u: string)
    ensures |u| == |s|
    ensures forall i :: 0 <= i < |s| ==> u[i] == ToUpperChar(s[i])
  {
    seq(|s|, i requires 0 <= i < |s| => ToUpperChar(s[i]))
  }

  /** `a` and `b` are the same string up to the case of their letters. */
  predicate EqualIgnoringCase(a: string, b: string)
  {
    |a| == |b| && forall i :: 0 <= i < |a| ==> ToUpperChar(a[i]) == ToUpperChar(b[i])
  }

  /** Two strings upper-case to the same string exactly when they are equal
      up to case. */
  lemma ToUpperEqualIff(a: string, b: string)
    ensures ToUpper(a) == ToUpper(b) <==> EqualIgnoringCase(a, b)
  {
    if EqualIgnoringCase(a, b) {
      assert forall i :: 0 <= i < |a| ==> ToUpper(a)[i] == ToUpper(b)[i];
    }
    if ToUpper(a) == ToUpper(b) {
      forall i | 0 <= i < |a| ensures ToUpperChar(a[i]) == ToUpperChar(b[i]) {
        assert ToUpper(a)[i] == ToUpper(b)[i];
      }
    }
  }

  /** The level `setupLogger` configures for the flag value `logLevel`:
      Error, Warn or Debug when the value spells "error", "warn" or "debug"
      in any letter case, and Info for every other value. */
  function LoggerLevel(logLevel: string): (l: Level)
    ensures l == ErrorLevel <==> EqualIgnoringCase(logLevel, "error")
    ensures l == WarnLevel <==> EqualIgnoringCase(logLevel, "warn")
    ensures l == DebugLevel <==> EqualIgnoringCase(logLevel, "debug")
    ensures l == InfoLevel <==>
              !EqualIgnoringCase(logLevel, "error") &&
              !EqualIgnoringCase(logLevel, "warn") &&
              !EqualIgnoringCase(logLevel, "debug")
  {
    assert ToUpper("error") == "ERROR" && ToUpper("warn") == "WARN" && ToUpper("debug") == "DEBUG";
    ToUpperEqualIff(logLevel, "error");
    ToUpperEqualIff(logLevel, "warn");
    ToUpperEqualIff(logLevel, "debug");
    var level := InfoLevel;
    match ToUpper(logLevel)
    case "ERROR" => ErrorLevel
    case "WARN" => WarnLevel
    case "DEBUG" => DebugLevel
    case _ => level
  }

  /** The level depends only on the value up to case. */
  lemma LevelIgnoresCase(a: string, b: string)
    requires EqualIgnoringCase(a, b)
    ensures LoggerLevel(a) == LoggerLevel(b)
  {
    ToUpperEqualIff(a, b);
    ToUpperEqualIff(a, "error");
    ToUpperEqualIff(b, "error");
    ToUpperEqualIff(a, "warn");
    ToUpperEqualIff(b, "warn");
    ToUpperEqualIff(a, "debug");
    ToUpperEqualIff(b, "debug");
  }

  /** The default flag value, the empty value, "INFO" and near misses such
      as "warning" all give Info; the documented values in capitals give
      their levels. */
  lemma LevelExamples()
    ensures LoggerLevel(DefaultLogLevel) == InfoLevel
    ensures LoggerLevel("") == InfoLevel
    ensures LoggerLevel("INFO") == InfoLevel
    ensures LoggerLevel("warning") == InfoLevel
    ensures LoggerLevel("ERROR") == ErrorLevel
    ensures LoggerLevel("Warn") == WarnLevel
    ensures LoggerLevel("dEbUg") == DebugLevel
  {
    assert !EqualIgnoringCase("info", "error") && !EqualIgnoringCase("info", "debug");
    assert ToUpperChar("info"[0]) != ToUpperChar("warn"[0]);
    assert !EqualIgnoringCase("INFO", "error") && !EqualIgnoringCase("INFO", "debug");
    assert ToUpperChar("INFO"[0]) != ToUpperChar("warn"[0]);
    assert EqualIgnoringCase("ERROR", "error");
    assert EqualIgnoringCase("Warn", "warn");
    assert EqualIgnoringCase("dEbUg", "debug");
  }
}
