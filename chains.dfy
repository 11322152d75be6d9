/**
 * The preset model chains of agents.py and the mode-name lookup
 * `get_model_chain_by_mode`.
 */
module Chains {

  /** "full power" preset (30 models). */
  const ModelChain1: seq<string> := [
    "gemini-2.5-pro", "gemini-2.5-flash", "gemini-2.0-flash",
    "gemini-2.0-flash-thinking-exp", "gemini-2.5-flash", "gemini-2.0-flash-001",
    "gemini-2.5-flash-preview-05-20", "gemini-flash-latest", "gemini-2.0-flash-exp",
    "gemini-pro-latest", "gemini-2.5-flash", "gemini-2.0-flash-lite",
    "gemini-2.5-flash-lite", "gemini-2.5-flash-lite-preview-06-17", "gemini-flash-lite-latest",
    "gemini-2.0-flash-thinking-exp-01-21", "gemini-2.5-flash", "gemini-2.0-flash",
    "gemini-2.0-flash-thinking-exp-1219", "gemini-2.5-flash-preview-09-2025", "gemini-2.0-flash-lite",
    "gemma-3-27b-it", "gemini-2.5-flash", "gemma-3-12b-it",
    "gemini-2.5-pro", "gemini-2.5-flash", "gemini-2.0-flash-thinking-exp",
    "gemini-2.5-flash-lite-preview-09-2025", "gemini-2.0-flash", "gemini-2.5-pro"
  ]

  /** "advance" preset (6 models). */
  const ModelChain2: seq<string> := [
    "gemini-2.5-pro", "gemini-2.5-flash", "gemini-2.0-flash-thinking-exp",
    "gemini-2.5-flash-lite-preview-09-2025", "gemini-2.0-flash", "gemini-2.5-pro"
  ]

  /** "fast" preset and the fallback for every unknown mode (4 models). */
  const ModelChain3: seq<string> := [
    "gemini-2.5-pro", "gemini-2.5-flash", "gemini-2.0-flash-thinking-exp", "gemini-2.5-pro"
  ]

  /** "optimized" preset (12 models). */
  const OptimizedModelChain: seq<string> := [
    "gemini-2.5-pro", "gemini-2.5-flash", "gemini-2.0-flash-thinking-exp",
    "gemini-2.0-flash-lite", "gemma-3-27b-it", "gemini-2.5-flash-lite",
    "gemini-2.5-flash", "gemini-2.0-flash-thinking-exp-01-21", "gemini-2.5-pro",
    "gemini-2.0-flash", "gemini-2.5-flash", "gemini-2.5-pro"
  ]

  /** "aggressive" preset (9 models). */
  const AggressiveChain: seq<string> := [
    "gemini-2.5-pro", "gemini-2.0-flash-thinking-exp",
    "gemini-2.0-flash-lite", "gemma-3-27b-it",
    "gemini-2.5-flash", "gemini-2.0-flash-thinking-exp-01-21",
    "gemini-2.5-pro", "gemini-2.5-flash", "gemini-2.5-pro"
  ]

  /** "balanced" preset (15 models). */
  const BalancedChain: seq<string> := [
    "gemini-2.5-pro", "gemini-2.5-flash", "gemini-2.0-flash-thinking-exp", "gemini-2.5-flash",
    "gemini-2.0-flash-lite", "gemma-3-27b-it", "gemini-2.5-flash-lite", "gemini-2.0-flash",
    "gemini-2.5-pro", "gemini-2.0-flash-thinking-exp-01-21", "gemini-2.5-flash", "gemini-pro-latest",
    "gemini-2.5-flash", "gemini-2.0-flash-thinking-exp-1219", "gemini-2.5-pro"
  ]

  /** "strongest" preset (31 models). */
  const ModelChain4: seq<string> := [
    "gemini-2.0-flash", "gemini-2.0-flash", "gemini-2.0-flash",
    "gemini-2.0-flash-lite", "gemini-2.0-flash-lite",
    "gemma-3-12b-it",
    "gemini-2.0-flash-001",
    "gemini-2.0-flash-exp",
    "gemini-2.0-flash-thinking-exp", "gemini-2.0-flash-thinking-exp",
    "gemini-2.0-flash-thinking-exp-01-21", "gemini-2.0-flash-thinking-exp-1219",
    "gemini-flash-lite-latest", "gemini-2.5-flash-lite", "gemini-2.5-flash-lite-preview-06-17",
    "gemini-flash-latest", "gemini-2.5-flash", "gemini-2.5-flash",
    "gemini-2.5-flash", "gemini-2.5-flash", "gemini-2.5-flash",
    "gemini-2.5-flash-preview-05-20", "gemini-2.5-flash-lite-preview-09-2025",
    "gemini-2.5-flash-preview-09-2025",
    "gemma-3-27b-it",
    "gemini-pro-latest",
    "gemini-2.5-pro", "gemini-2.5-pro", "gemini-2.5-pro",
    "gemini-2.0-flash-001", "gemini-2.5-pro"
  ]

  /** Every preset the lookup can return. */
  const Presets: seq<seq<string>> := [
    ModelChain1, ModelChain2, OptimizedModelChain, AggressiveChain,
    BalancedChain, ModelChain4, ModelChain3
  ]

  const FullPowerModes: set<string> := {"full power", "fullpower", "full"}
  const AdvancedModes: set<string> := {"advance", "advanced"}

  /** Every mode name the lookup recognises (in lower case). */
  const KnownModes: set<string> :=
    FullPowerModes + AdvancedModes + {"optimized", "aggressive", "balanced", "strongest"}

  predicate IsUpper(c: char) { 'A' <= c <= 'Z' }

  /** ASCII lower-casing of one character. */
  function LowerChar(c: char): (r: char)
    ensures !IsUpper(r)
    ensures IsUpper(c) ==> r as int == c as int + 32
    ensures !IsUpper(c) ==> r == c
  {
    if IsUpper(c) then (c as int + 32) as char else c
  }

  /** `str.lower()`, restricted to the ASCII letters. */
  function ToLower(s: string): (r: string)
    ensures |r| == |s|
    ensures forall i :: 0 <= i < |s| ==> r[i] == LowerChar(s[i])
  {
    if s == [] then [] else [LowerChar(s[0])] + ToLower(s[1..])
  }

  /** Lower-casing twice is lower-casing once. */
  lemma {:induction false} ToLowerIdempotent(s: string)
    ensures ToLower(ToLower(s)) == ToLower(s)
  {
    if s != [] {
      ToLowerIdempotent(s[1..]);
      assert ToLower(s)[1..] == ToLower(s[1..]);
    }
  }

  /** `get_model_chain_by_mode`: the mode is lower-cased, then matched. */
  function ChainByMode(mode: string := "fast"): (r: seq<string>)
    ensures var m := ToLower(mode);
      && (r == ModelChain1 <==> m in FullPowerModes)
      && (r == ModelChain2 <==> m in AdvancedModes)
      && (r == OptimizedModelChain <==> m == "optimized")
      && (r == AggressiveChain <==> m == "aggressive")
      && (r == BalancedChain <==> m == "balanced")
      && (r == ModelChain4 <==> m == "strongest")
      && (r == ModelChain3 <==> m !in KnownModes)
    ensures r in Presets
  {
    PresetLengths();
    var m := ToLower(mode);
    if m == "full power" || m == "fullpower" || m == "full" then ModelChain1
    else if m == "advance" || m == "advanced" then ModelChain2
    else if m == "optimized" then OptimizedModelChain
    else if m == "aggressive" then AggressiveChain
    else if m == "balanced" then BalancedChain
    else if m == "strongest" then ModelChain4
    else ModelChain3
  }

  /** The lengths of the presets; they are pairwise different. */
  lemma PresetLengths()
    ensures |ModelChain1| == 30 && |ModelChain2| == 6 && |ModelChain3| == 4
    ensures |OptimizedModelChain| == 12 && |AggressiveChain| == 9
    ensures |BalancedChain| == 15 && |ModelChain4| == 31
  {
  }

  /** The fallback preset is the shortest and "strongest" the longest. */
  lemma DefaultIsShortestStrongestIsLongest(mode: string)
    ensures |ModelChain3| <= |ChainByMode(mode)| <= |ModelChain4|
    ensures ToLower(mode) !in KnownModes ==> |ChainByMode(mode)| == 4
  {
    PresetLengths();
  }

  /** The lookup ignores the case of the mode name. */
  lemma {:induction false} ChainByModeIgnoresCase(mode: string, other: string)
    requires ToLower(mode) == ToLower(other)
    ensures ChainByMode(mode) == ChainByMode(other)
    ensures ChainByMode(mode) == ChainByMode(ToLower(mode))
  {
    ToLowerIdempotent(mode);
  }
}
