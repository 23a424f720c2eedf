/** Severity levels, level subscription and the severity colour of the
    hook (hook.go lines 59-88 and 139-147). */
module Levels {
  import opened GoText

  /** A logrus level is a `uint32`; the named ones run from the most severe
      (panic, 0) to the least severe (trace, 6). */
  newtype Level = x: int | 0 <= x < 0x1_0000_0000

  const PanicLevel: Level := 0
  const FatalLevel: Level := 1
  const ErrorLevel: Level := 2
  const WarnLevel: Level := 3
  const InfoLevel: Level := 4
  const DebugLevel: Level := 5
  const TraceLevel: Level := 6

  /** `Level.String()` of logrus: the lower-case name, "unknown" for a
      value outside the named ones. */
  function LevelName(l: Level): seq<byte>
  {
    if l == PanicLevel then Lit("panic")
    else if l == FatalLevel then Lit("fatal")
    else if l == ErrorLevel then Lit("error")
    else if l == WarnLevel then Lit("warning")
    else if l == InfoLevel then Lit("info")
    else if l == DebugLevel then Lit("debug")
    else if l == TraceLevel then Lit("trace")
    else Lit("unknown")
  }

  /** The title of the info embed: the upper-cased level name. */
  function Title(l: Level): seq<byte>
  {
    AsciiUpper(LevelName(l))
  }

  /** The titles of the named levels, and "UNKNOWN" for the others. */
  lemma TitleTable(l: Level)
    ensures l == PanicLevel ==> Title(l) == Lit("PANIC")
    ensures l == FatalLevel ==> Title(l) == Lit("FATAL")
    ensures l == ErrorLevel ==> Title(l) == Lit("ERROR")
    ensures l == WarnLevel ==> Title(l) == Lit("WARNING")
    ensures l == InfoLevel ==> Title(l) == Lit("INFO")
    ensures l == DebugLevel ==> Title(l) == Lit("DEBUG")
    ensures l == TraceLevel ==> Title(l) == Lit("TRACE")
    ensures TraceLevel < l ==> Title(l) == Lit("UNKNOWN")
  {
    if l == PanicLevel { UpperOf("panic", "PANIC"); }
    else if l == FatalLevel { UpperOf("fatal", "FATAL"); }
    else if l == ErrorLevel { UpperOf("error", "ERROR"); }
    else if l == WarnLevel { UpperOf("warning", "WARNING"); }
    else if l == InfoLevel { UpperOf("info", "INFO"); }
    else if l == DebugLevel { UpperOf("debug", "DEBUG"); }
    else if l == TraceLevel { UpperOf("trace", "TRACE"); }
    else { UpperOf("unknown", "UNKNOWN"); }
  }

  /** One line of the title table, for an all-lower-case ASCII name. */
  lemma UpperOf(name: string, up: string)
    requires |name| == |up|
    requires forall i :: 0 <= i < |name| ==> 'a' <= name[i] <= 'z' && up[i] as int == name[i] as int - 32
    ensures AsciiUpper(Lit(name)) == Lit(up)
  {
  }

  /** The levels a hook subscribes to when its constructor is given none. */
  const DefaultLevels: seq<Level> := [PanicLevel, FatalLevel, ErrorLevel, WarnLevel]

  /** The hook: the webhook URL and the subscribed levels, both fixed at
      construction. */
  datatype Hook = Hook(hookUrl: seq<byte>, lvl: seq<Level>)

  /** `NewHook(webhookURL, levels...)`: explicit levels replace the
      default set, an empty list gives the default set. */
  function NewHook(webhookUrl: seq<byte>, levels: seq<Level>): (h: Hook)
    ensures h.hookUrl == webhookUrl
    ensures |levels| == 0 ==> h.lvl == [PanicLevel, FatalLevel, ErrorLevel, WarnLevel]
    ensures |levels| > 0 ==> h.lvl == levels
  {
    Hook(webhookUrl, if |levels| == 0 then DefaultLevels else levels)
  }

  /** `Levels()`: the levels the host framework fires the hook for. */
  function Levels(h: Hook): seq<Level>
  {
    h.lvl
  }

  predicate Subscribed(h: Hook, l: Level)
  {
    l in Levels(h)
  }

  /** Without explicit levels the hook fires exactly for the levels at
      least as severe as warning. */
  lemma DefaultSubscription(webhookUrl: seq<byte>, l: Level)
    ensures Subscribed(NewHook(webhookUrl, []), l) <==> l <= WarnLevel
  {
  }

  /** Explicit levels replace the default set rather than extend it: the
      hook fires for exactly the given levels. */
  lemma ExplicitLevelsReplace(webhookUrl: seq<byte>, levels: seq<Level>, l: Level)
    requires |levels| > 0
    ensures Subscribed(NewHook(webhookUrl, levels), l) <==> l in levels
  {
  }

  /** A constructed hook always subscribes to some level, with or without
      explicit levels. */
  lemma HookNeverSilent(webhookUrl: seq<byte>, levels: seq<Level>)
    ensures |Levels(NewHook(webhookUrl, levels))| > 0
  {
  }

  const ErrorColour := 16725591
  const WarnColour := 16760630
  const DefaultColour := 12434877

  /** The colour `switch` of the delivery routine. */
  function Colour(l: Level): int
  {
    if l == PanicLevel || l == FatalLevel || l == ErrorLevel then ErrorColour
    else if l == WarnLevel then WarnColour
    else DefaultColour
  }

  /** The colour classes follow the severity order: error colour for the
      levels at least as severe as error, warning colour for warning, the
      default colour for every less severe or unnamed level. */
  lemma ColourBySeverity(l: Level)
    ensures Colour(l) == ErrorColour <==> l <= ErrorLevel
    ensures Colour(l) == WarnColour <==> l == WarnLevel
    ensures Colour(l) == DefaultColour <==> WarnLevel < l
  {
  }

  /** A hook built with the default levels never posts in the default
      colour. */
  lemma DefaultLevelsAreHighlighted(webhookUrl: seq<byte>, l: Level)
    requires Subscribed(NewHook(webhookUrl, []), l)
    ensures Colour(l) != DefaultColour
  {
    DefaultSubscription(webhookUrl, l);
    ColourBySeverity(l);
  }
}
