/**
 * The Error Prone command-line flags the plugin emits, and a decoder for
 * them.  The decoder is the partner of the renderer: every emitted flag
 * decodes back to the flag it came from, so no two distinct flags are
 * rendered to the same string.
 */
module Flags {

  datatype Option<T> = None | Some(value: T)

  /** The severity a check is overridden to, one per registry bucket. */
  datatype Level = ERROR | WARN | OFF

  function LevelName(level: Level): string
  {
    match level
    case ERROR => "ERROR"
    case WARN => "WARN"
    case OFF => "OFF"
  }

  datatype Flag =
    | Severity(check: string, level: Level)   // -Xep:<check>:<LEVEL>
    | DisableWarningsInGeneratedCode          // -XepDisableWarningsInGeneratedCode
    | ExcludedPaths(pattern: string)          // -XepExcludedPaths:<pattern>

  const SeverityPrefix := "-Xep:"
  const DisableWarningsFlag := "-XepDisableWarningsInGeneratedCode"
  const ExcludedPathsPrefix := "-XepExcludedPaths:"

  /** The exact text handed to the compiler for a flag. */
  function Render(f: Flag): string
  {
    match f
    case Severity(check, level) => SeverityPrefix + check + ":" + LevelName(level)
    case DisableWarningsInGeneratedCode => DisableWarningsFlag
    case ExcludedPaths(pattern) => ExcludedPathsPrefix + pattern
  }

  predicate EndsWith(s: string, suffix: string)
  {
    |s| >= |suffix| && s[|s| - |suffix|..] == suffix
  }

  /** Reads the `<check>:<LEVEL>` part of a severity flag; the level is the suffix. */
  function ParseSeverity(rest: string): Option<Flag>
  {
    var n := |rest|;
    if EndsWith(rest, ":ERROR") then Some(Severity(rest[..n - 6], ERROR))
    else if EndsWith(rest, ":WARN") then Some(Severity(rest[..n - 5], WARN))
    else if EndsWith(rest, ":OFF") then Some(Severity(rest[..n - 4], OFF))
    else None
  }

  /** Decodes one of the three flag forms the plugin emits. */
  function Parse(s: string): Option<Flag>
  {
    if s == DisableWarningsFlag then Some(DisableWarningsInGeneratedCode)
    else if |s| >= |ExcludedPathsPrefix| && s[..|ExcludedPathsPrefix|] == ExcludedPathsPrefix then
      Some(ExcludedPaths(s[|ExcludedPathsPrefix|..]))
    else if |s| >= |SeverityPrefix| && s[..|SeverityPrefix|] == SeverityPrefix then
      ParseSeverity(s[|SeverityPrefix|..])
    else None
  }

  lemma AppendSuffix(s: string, suffix: string)
    ensures EndsWith(s + suffix, suffix)
    ensures (s + suffix)[..|s|] == s
  {
    assert (s + suffix)[|s|..] == suffix;
  }

  lemma LastCharDiffers(s: string, suffix: string)
    requires |s| > 0 && |suffix| > 0 && s[|s| - 1] != suffix[|suffix| - 1]
    ensures !EndsWith(s, suffix)
  {
    if |s| >= |suffix| {
      assert s[|s| - |suffix|..][|suffix| - 1] == s[|s| - 1];
    }
  }

  lemma ParseSeverityRender(check: string, level: Level)
    ensures ParseSeverity(check + ":" + LevelName(level)) == Some(Severity(check, level))
  {
    match level
    case ERROR =>
      assert check + ":" + LevelName(level) == check + ":ERROR";
      AppendSuffix(check, ":ERROR");
    case WARN =>
      var rest := check + ":WARN";
      assert check + ":" + LevelName(level) == rest;
      AppendSuffix(check, ":WARN");
      assert rest[|rest| - 1] == 'N';
      LastCharDiffers(rest, ":ERROR");
    case OFF =>
      var rest := check + ":OFF";
      assert check + ":" + LevelName(level) == rest;
      AppendSuffix(check, ":OFF");
      assert rest[|rest| - 1] == 'F';
      LastCharDiffers(rest, ":ERROR");
      LastCharDiffers(rest, ":WARN");
  }

  /** Every flag the plugin emits decodes to the flag it was rendered from. */
  lemma ParseRender(f: Flag)
    ensures Parse(Render(f)) == Some(f)
  {
    var s := Render(f);
    match f
    case Severity(check, level) =>
      assert s[4] == ':';
      assert s != DisableWarningsFlag by { assert DisableWarningsFlag[4] == 'D'; }
      assert |s| >= |ExcludedPathsPrefix| ==> s[..|ExcludedPathsPrefix|][4] == ':';
      assert s[..|SeverityPrefix|] == SeverityPrefix;
      assert s[|SeverityPrefix|..] == check + ":" + LevelName(level);
      ParseSeverityRender(check, level);
    case DisableWarningsInGeneratedCode =>
    case ExcludedPaths(pattern) =>
      assert s[4] == 'E';
      assert s != DisableWarningsFlag by { assert DisableWarningsFlag[4] == 'D'; }
      assert s[..|ExcludedPathsPrefix|] == ExcludedPathsPrefix;
      assert s[|ExcludedPathsPrefix|..] == pattern;
  }

  /** Distinct flags are distinct strings on the command line. */
  lemma RenderInjective(f: Flag, g: Flag)
    ensures Render(f) == Render(g) <==> f == g
  {
    ParseRender(f);
    ParseRender(g);
  }

  /** The command line for a list of flags, one string per flag, in order. */
  function RenderAll(fs: seq<Flag>): (args: seq<string>)
    ensures |args| == |fs|
    ensures forall i :: 0 <= i < |fs| ==> args[i] == Render(fs[i])
  {
    if fs == [] then [] else [Render(fs[0])] + RenderAll(fs[1..])
  }

  lemma {:induction false} RenderAllAppend(fs: seq<Flag>, gs: seq<Flag>)
    ensures RenderAll(fs + gs) == RenderAll(fs) + RenderAll(gs)
  {
    var l, r := RenderAll(fs + gs), RenderAll(fs) + RenderAll(gs);
    assert |l| == |r|;
    forall i | 0 <= i < |l| ensures l[i] == r[i] {
      if i < |fs| {
        assert (fs + gs)[i] == fs[i];
      } else {
        assert (fs + gs)[i] == gs[i - |fs|];
      }
    }
  }

  lemma CountCons<T>(x: T, s: seq<T>, y: T)
    ensures multiset([x] + s)[y] == (if x == y then 1 else 0) + multiset(s)[y]
  {
    assert multiset([x] + s) == multiset([x]) + multiset(s);
  }

  /** A flag's string occurs as often on the command line as the flag in the list. */
  lemma {:induction false} RenderAllCount(fs: seq<Flag>, f: Flag)
    ensures multiset(RenderAll(fs))[Render(f)] == multiset(fs)[f]
  {
    if fs != [] {
      var head, tail := fs[0], fs[1..];
      RenderAllCount(tail, f);
      RenderInjective(head, f);
      assert fs == [head] + tail;
      CountCons(head, tail, f);
      assert RenderAll(fs) == [Render(head)] + RenderAll(tail);
      CountCons(Render(head), RenderAll(tail), Render(f));
    }
  }

  lemma RenderAllMembership(fs: seq<Flag>, f: Flag)
    ensures Render(f) in RenderAll(fs) <==> f in fs
  {
    RenderAllCount(fs, f);
  }

  /** Decoding the command line recovers the flag list. */
  lemma RenderAllParse(fs: seq<Flag>)
    ensures forall i :: 0 <= i < |fs| ==> Parse(RenderAll(fs)[i]) == Some(fs[i])
  {
    forall i | 0 <= i < |fs| ensures Parse(RenderAll(fs)[i]) == Some(fs[i]) {
      ParseRender(fs[i]);
    }
  }
}
