/**
 * The two response normalisers of the background service worker: the
 * LanguageTool match mapping and `parseAIResponse`, which both produce the
 * one error record the content script consumes.
 */
module Normalizer {
  import opened Wrappers
  import opened Json
  import opened Strings
  import opened Sequences

  /** The error record both providers are mapped to. Fields keep the JavaScript
      values they were read from; `errorType` is the record's `type` field. */
  datatype GrammarError = GrammarError(
    message: Value,
    shortMessage: Value,
    offset: Value,
    length: Value,
    replacements: seq<Value>,
    rule: Value,
    ruleDescription: Value,
    errorType: Value,
    category: Value)

  /** LanguageTool keeps at most this many replacements per match. */
  const MaxReplacements := 3

  const AiRule := "AI_GRAMMAR"
  const AiRuleDescription := "AI-detected grammar issue"
  const AiCategory := "Grammar (AI)"

  // ---------------------------------------------------------------------------
  // LanguageTool

  /** One entry of LanguageTool's `matches`. `replacementValues` stands for
      the `value` of each of its replacements, and is an input to the model:
      the source reads `value` only on the first three after `slice(0, 3)`, so
      a later replacement without one never makes it throw. */
  datatype LtMatch = LtMatch(
    message: Value,
    shortMessage: Value,
    offset: Value,
    length: Value,
    replacementValues: seq<Value>,
    ruleId: Value,
    ruleDescription: Value,
    categoryId: Value,
    categoryName: Value)

  function Truncate(s: seq<Value>, n: nat): seq<Value>
  {
    if |s| <= n then s else s[..n]
  }

  function NormalizeMatch(m: LtMatch): GrammarError
  {
    GrammarError(
      m.message,
      if Truthy(m.shortMessage) then m.shortMessage else m.message,
      m.offset,
      m.length,
      Truncate(m.replacementValues, MaxReplacements),
      m.ruleId,
      m.ruleDescription,
      m.categoryId,
      m.categoryName)
  }

  /** `data.matches.map(...)`: one record per match, in order; each keeps the
      first three replacements in their order, and `shortMessage` falls back
      to `message` when the provider's is missing or empty. */
  function NormalizeMatches(ms: seq<LtMatch>): (r: seq<GrammarError>)
    ensures |r| == |ms|
    ensures forall k :: 0 <= k < |ms| ==>
      && r[k].message == ms[k].message
      && r[k].offset == ms[k].offset
      && r[k].length == ms[k].length
      && r[k].rule == ms[k].ruleId
      && r[k].ruleDescription == ms[k].ruleDescription
      && r[k].errorType == ms[k].categoryId
      && r[k].category == ms[k].categoryName
    ensures forall k :: 0 <= k < |ms| ==>
      && |r[k].replacements| <= MaxReplacements
      && |r[k].replacements| == (if |ms[k].replacementValues| < MaxReplacements then |ms[k].replacementValues| else MaxReplacements)
      && r[k].replacements == ms[k].replacementValues[..|r[k].replacements|]
    ensures forall k :: 0 <= k < |ms| ==>
      r[k].shortMessage == (if Truthy(ms[k].shortMessage) then ms[k].shortMessage else ms[k].message)
  {
    seq(|ms|, k requires 0 <= k < |ms| => NormalizeMatch(ms[k]))
  }

  // ---------------------------------------------------------------------------
  // AI responses

  /** The span `content.match(/\[[\s\S]*\]/)` finds: from the first `[` to the
      last `]`, when that `]` comes after that `[`. */
  function BracketedCandidate(content: string): (r: Option<string>)
    ensures r.Some? <==> exists i, j :: 0 <= i < j < |content| && content[i] == '[' && content[j] == ']'
    ensures r.Some? ==> exists i, j ::
      && 0 <= i < j < |content|
      && content[i] == '[' && content[j] == ']'
      && r.value == content[i..j + 1]
      && (forall k :: 0 <= k < i ==> content[k] != '[')
      && (forall k :: j < k < |content| ==> content[k] != ']')
    ensures r.Some? ==> |r.value| >= 2 && r.value[0] == '[' && r.value[|r.value| - 1] == ']'
  {
    match (IndexOf(content, '['), LastIndexOf(content, ']'))
    case (Some(i), Some(j)) =>
      if i < j then Some(content[i..j + 1]) else None
    case _ => None
  }

  /** The text handed to `JSON.parse`: the bracketed span, or the whole content. */
  function JsonCandidate(content: string): (r: string)
    ensures BracketedCandidate(content).None? ==> r == content
    ensures BracketedCandidate(content).Some? ==> r == BracketedCandidate(content).value
    ensures BracketedCandidate(content).Some? ==> 2 <= |r| <= |content| && r[0] == '[' && r[|r| - 1] == ']'
  {
    match BracketedCandidate(content)
    case Some(c) => c
    case None => content
  }

  /** The filter predicate of `parseAIResponse`. */
  predicate IsUsableEntry(e: Value)
    requires !IsNullish(e)
  {
    && Prop(e, "offset") != Undefined
    && Prop(e, "length") != Undefined
    && Truthy(Prop(e, "message"))
    && Truthy(Prop(e, "replacements"))
  }

  predicate NoNullish(entries: seq<Value>)
  {
    forall k :: 0 <= k < |entries| ==> !IsNullish(entries[k])
  }

  /** The indices of the entries the filter lets through. */
  ghost function UsableIndices(entries: seq<Value>): set<int>
    requires NoNullish(entries)
  {
    set k | 0 <= k < |entries| && IsUsableEntry(entries[k])
  }

  /** The usable indices are the head's, if usable, and the tail's moved by one. */
  lemma UsableIndicesSplit(entries: seq<Value>)
    requires entries != [] && NoNullish(entries)
    ensures NoNullish(entries[1..])
    ensures forall k :: k in UsableIndices(entries[1..]) ==> 0 <= k < |entries| - 1
    ensures UsableIndices(entries) ==
      (if IsUsableEntry(entries[0]) then {0} else {}) + Shifted(UsableIndices(entries[1..]))
  {
    var tail := UsableIndices(entries[1..]);
    forall y ensures y in UsableIndices(entries) <==> y in (if IsUsableEntry(entries[0]) then {0} else {}) + Shifted(tail) {
      if y > 0 && y < |entries| {
        assert entries[y] == entries[1..][y - 1];
        assert y - 1 in tail ==> y in Shifted(tail);
      }
    }
  }

  /** `errors.filter(...)` over entries none of which is null. */
  function KeepUsable(entries: seq<Value>): (r: seq<Value>)
    requires NoNullish(entries)
    ensures |r| <= |entries|
    ensures NoNullish(r)
    ensures forall k :: 0 <= k < |r| ==> IsUsableEntry(r[k]) && r[k] in entries
    ensures forall k :: 0 <= k < |entries| && IsUsableEntry(entries[k]) ==> entries[k] in r
  {
    if entries == [] then []
    else
      var rest := KeepUsable(entries[1..]);
      if IsUsableEntry(entries[0]) then [entries[0]] + rest else rest
  }

  /** One survivor per usable index: an entry that occurs several times is kept
      as often as it occurs. With `KeepUsableKeepsOrder` this pins the result
      down to the filter's. */
  lemma {:induction false} KeepUsableCount(entries: seq<Value>)
    requires NoNullish(entries)
    ensures |KeepUsable(entries)| == |UsableIndices(entries)|
  {
    if entries == [] {
      assert forall k :: k !in UsableIndices(entries);
      assert UsableIndices(entries) == {};
    } else {
      KeepUsableCount(entries[1..]);
      UsableIndicesSplit(entries);
      SplitIndices(UsableIndices(entries), IsUsableEntry(entries[0]), UsableIndices(entries[1..]), |entries| - 1);
    }
  }

  /** The filter keeps the surviving entries in their original order. */
  lemma {:induction false} KeepUsableKeepsOrder(entries: seq<Value>)
    requires NoNullish(entries)
    ensures IsSubsequence(KeepUsable(entries), entries)
  {
    if entries != [] {
      KeepUsableKeepsOrder(entries[1..]);
      var rest := KeepUsable(entries[1..]);
      if !IsUsableEntry(entries[0]) {
        SubsequenceSkip(rest, entries);
      }
    }
  }

  /** `Array.isArray(v) ? v : [v]`. */
  function AsList(v: Value): seq<Value>
  {
    if v.Arr? then v.items else [v]
  }

  function ToAiError(e: Value): GrammarError
    requires !IsNullish(e)
  {
    var message := Prop(e, "message");
    GrammarError(
      message,
      message,
      Prop(e, "offset"),
      Prop(e, "length"),
      AsList(Prop(e, "replacements")),
      Str(AiRule),
      Str(AiRuleDescription),
      Str(AiRule),
      Str(AiCategory))
  }

  /** `.filter(...).map(...)` over the parsed array. Every property read
      throws on a null entry, so one null entry makes the whole call throw. */
  function FormatEntries(entries: seq<Value>): (r: Result<seq<GrammarError>, string>)
    ensures r.Failure? <==> !NoNullish(entries)
    ensures r.Success? ==> |r.value| == |KeepUsable(entries)| <= |entries|
    ensures r.Success? ==> forall k :: 0 <= k < |r.value| ==>
      var e := KeepUsable(entries)[k];
      && r.value[k].offset == Prop(e, "offset") != Undefined
      && r.value[k].length == Prop(e, "length") != Undefined
      && r.value[k].message == r.value[k].shortMessage == Prop(e, "message")
      && Truthy(r.value[k].message)
      && (Prop(e, "replacements").Arr? ==> r.value[k].replacements == Prop(e, "replacements").items)
      && (!Prop(e, "replacements").Arr? ==> r.value[k].replacements == [Prop(e, "replacements")])
      && r.value[k].rule == Str(AiRule)
      && r.value[k].ruleDescription == Str(AiRuleDescription)
      && r.value[k].errorType == Str(AiRule)
      && r.value[k].category == Str(AiCategory)
  {
    if NoNullish(entries) then
      var kept := KeepUsable(entries);
      var records := seq(|kept|, k requires 0 <= k < |kept| => ToAiError(kept[k]));
      assert forall k :: 0 <= k < |kept| ==> records[k] == ToAiError(kept[k]) && IsUsableEntry(kept[k]);
      Success(records)
    else
      Failure("TypeError: Cannot read properties of null")
  }

  /** `parseAIResponse(content)` with `JSON.parse` given as `parse` (`None` is a
      thrown SyntaxError). A parse failure yields no errors; a parsed value
      that is not an array, or an array holding null, makes the call throw. */
  function ParseAIResponse(content: string, parse: string -> Option<Value>): (r: Result<seq<GrammarError>, string>)
    ensures parse(JsonCandidate(content)).None? ==> r == Success([])
    ensures r.Success? && parse(JsonCandidate(content)).Some? ==>
      && parse(JsonCandidate(content)).value.Arr?
      && |r.value| <= |parse(JsonCandidate(content)).value.items|
    ensures r.Success? ==> forall k :: 0 <= k < |r.value| ==>
      r.value[k].rule == Str(AiRule) && r.value[k].category == Str(AiCategory)
    ensures r.Success? && parse(JsonCandidate(content)).Some? ==>
      r == FormatEntries(parse(JsonCandidate(content)).value.items)
    ensures r.Failure? <==> match parse(JsonCandidate(content))
      case None => false
      case Some(v) => !v.Arr? || !NoNullish(v.items)
  {
    match parse(JsonCandidate(content))
    case None => Success([])
    case Some(v) =>
      if v.Arr? then FormatEntries(v.items)
      else Failure("TypeError: errors.filter is not a function")
  }
}
