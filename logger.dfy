/** Reading the configured log level (`parseLogLevel`): the name is lower-cased
    and matched against the four level names, with info as the fallback. */
module Logger {
  import opened Strings

  /** The four `log/slog` levels the setting can select. */
  datatype Level = Debug | Info | Warn | Error

  /** The numeric `slog.Level` each level stands for. */
  function Severity(l: Level): int {
    match l
    case Debug => -4
    case Info => 0
    case Warn => 4
    case Error => 8
  }

  function ParseLogLevel(name: string): (l: Level)
    ensures l == Debug <==> ToLower(name) == "debug"
    ensures l == Warn <==> ToLower(name) == "warn" || ToLower(name) == "warning"
    ensures l == Error <==> ToLower(name) == "error"
    ensures l == Info <==> ToLower(name) !in {"debug", "warn", "warning", "error"}
  {
    var lower := ToLower(name);
    if lower == "debug" then Debug
    else if lower == "warn" || lower == "warning" then Warn
    else if lower == "error" then Error
    else Info
  }

  /** Names that differ only in the case of ASCII letters select the same level. */
  lemma ParseIgnoresCase(a: string, b: string)
    requires |a| == |b|
    requires forall i :: 0 <= i < |a| ==> LowerChar(a[i]) == LowerChar(b[i])
    ensures ParseLogLevel(a) == ParseLogLevel(b)
  {
    assert ToLower(a) == ToLower(b);
  }

  /** Examples of `ParseIgnoresCase`: upper-case and capitalised spellings of
      the level names. */
  lemma ParseUpperCase()
    ensures ParseLogLevel("DEBUG") == Debug
    ensures ParseLogLevel("Warning") == Warn
    ensures ParseLogLevel("ERROR") == Error
    ensures ParseLogLevel("INFO") == Info
  {
    assert ToLower("DEBUG") == "debug";
    assert ToLower("Warning") == "warning";
    assert ToLower("ERROR") == "error";
    assert ToLower("INFO") == "info";
  }

  /** The name each level is written with. */
  function LevelName(l: Level): string {
    match l
    case Debug => "debug"
    case Info => "info"
    case Warn => "warn"
    case Error => "error"
  }

  /** Writing a level's name and reading it back gives the level, and the
      levels are ordered by severity. */
  lemma LevelNameRoundTrip(l: Level)
    ensures ParseLogLevel(LevelName(l)) == l
    ensures Severity(Debug) < Severity(Info) < Severity(Warn) < Severity(Error)
  {
    assert ToLower(LevelName(l)) == LevelName(l);
  }

  /** Examples of the fall-back to info: the empty setting and one unknown name. */
  lemma UnknownIsInfo()
    ensures ParseLogLevel("") == Info
    ensures ParseLogLevel("verbose") == Info
  {
    assert ToLower("verbose") == "verbose";
  }
}
