/**
 * `checkGrammar` of the background service worker: LanguageTool first, then,
 * only for a clean result, a premium and keyed account and a long enough
 * text, the selected AI provider. Provider round trips are inputs: the reply
 * LanguageTool gave, and the reply the AI provider would give.
 */
module Orchestrator {
  import opened Wrappers
  import opened Json
  import opened Normalizer

  /** The part of the worker's `CONFIG` object that the grammar path reads. */
  datatype Settings = Settings(
    languageToolEnabled: bool,
    aiProvider: string,
    openaiKey: string,
    geminiKey: string,
    premiumActive: bool,
    licenseKey: Option<string>)

  const GeminiProvider := "gemini"

  /** The AI fallback is only tried for texts longer than this. */
  const MinAiTextLength := 10

  /** What the LanguageTool stage produced: its matches, or the message of the
      exception it threw (non-success status, network failure, bad payload). */
  datatype LtReply = LtMatches(matches: seq<LtMatch>) | LtThrew(message: string)

  /** What the selected AI provider's HTTP exchange produced: the trimmed text of
      its first candidate, or a failure (status, network, missing fields). */
  datatype AiReply = AiContent(content: string) | AiFailed

  datatype Source = LanguageTool | AI

  const DisabledMessage := "Grammar checking is disabled"

  /** The three response shapes of `checkGrammar`:
      `{errors: [], message}`, `{errors, source}` and `{errors: [], error}`. */
  datatype CheckResponse =
    | Disabled(message: string)
    | Checked(errors: seq<GrammarError>, source: Source)
    | Failed(error: string)
  {
    /** The `errors` array each shape carries. */
    function Errors(): seq<GrammarError>
    {
      if Checked? then errors else []
    }
  }


  /** The key `checkGrammar` tests: gemini's when the provider is `gemini`, else openai's. */
  function SelectedKey(cfg: Settings): (key: string)
    // any other provider name, unknown ones included, selects the OpenAI key
    ensures cfg.aiProvider == GeminiProvider ==> key == cfg.geminiKey
    ensures cfg.aiProvider != GeminiProvider ==> key == cfg.openaiKey
  {
    if cfg.aiProvider == GeminiProvider then cfg.geminiKey else cfg.openaiKey
  }

  /** The three conditions under which the AI fallback is tried. */
  function AiEligible(cfg: Settings, text: string): (r: bool)
    // premium, a key for the selected provider, and more than ten characters
    ensures r <==>
      && cfg.premiumActive
      && |text| > MinAiTextLength
      && (if cfg.aiProvider == GeminiProvider then cfg.geminiKey != "" else cfg.openaiKey != "")
  {
    cfg.premiumActive && SelectedKey(cfg) != "" && |text| > MinAiTextLength
  }

  /** `checkWithAI`: `checkWithGemini` or `checkWithOpenAI`. Each returns `[]`
      without a request when its key is empty, and turns every failure,
      including one thrown by `parseAIResponse`, into `[]`. */
  function CheckWithAI(cfg: Settings, reply: AiReply, parse: string -> Option<Value>): (r: seq<GrammarError>)
    ensures SelectedKey(cfg) == "" ==> r == []
    ensures reply.AiFailed? ==> r == []
    ensures forall k :: 0 <= k < |r| ==> r[k].rule == Str(AiRule) && r[k].category == Str(AiCategory)
    ensures reply.AiContent? && SelectedKey(cfg) != "" && ParseAIResponse(reply.content, parse).Success? ==>
      r == ParseAIResponse(reply.content, parse).value
    ensures reply.AiContent? && ParseAIResponse(reply.content, parse).Failure? ==> r == []
  {
    var key := if cfg.aiProvider == GeminiProvider then cfg.geminiKey else cfg.openaiKey;
    if key == "" then []
    else match reply
      case AiFailed => []
      case AiContent(content) =>
        match ParseAIResponse(content, parse)
        case Success(errors) => errors
        case Failure(_) => []
  }

  /** `checkGrammar(text)`. The worker's `CONFIG` is read twice: `atStart`
      is the configuration when the call begins, where only the enabled flag
      is read; `afterLt` is the configuration once LanguageTool's reply has
      arrived, which decides the AI stage and is the one `checkWithAI` sees,
      since no other wait lies between them. An `updateConfig` message handled
      while LanguageTool is busy makes the two differ. */
  function CheckGrammar(atStart: Settings, afterLt: Settings, text: string, lt: LtReply, ai: AiReply, parse: string -> Option<Value>): (r: CheckResponse)
    // disabled: nothing is asked
    ensures !atStart.languageToolEnabled ==> r == Disabled(DisabledMessage)
    // a LanguageTool failure is reported, with no errors at all
    ensures atStart.languageToolEnabled && lt.LtThrew? ==> r == Failed(lt.message) && r.Errors() == []
    // LanguageTool's findings win
    ensures atStart.languageToolEnabled && lt.LtMatches? && lt.matches != [] ==>
      r == Checked(NormalizeMatches(lt.matches), LanguageTool)
    // the AI is the source only if it ran and found something
    ensures r.Checked? && r.source == AI ==>
      && atStart.languageToolEnabled && lt == LtMatches([])
      && AiEligible(afterLt, text)
      && r.errors == CheckWithAI(afterLt, ai, parse) != []
    // a clean LanguageTool result is reported as clean unless the AI found something
    ensures atStart.languageToolEnabled && lt == LtMatches([]) ==>
      r == (if AiEligible(afterLt, text) && CheckWithAI(afterLt, ai, parse) != []
            then Checked(CheckWithAI(afterLt, ai, parse), AI)
            else Checked([], LanguageTool))
  {
    if !atStart.languageToolEnabled then Disabled(DisabledMessage)
    else match lt
      case LtThrew(message) => Failed(message)
      case LtMatches(matches) =>
        var ltErrors := NormalizeMatches(matches);
        if |ltErrors| > 0 then Checked(ltErrors, LanguageTool)
        else
          var hasApiKey := SelectedKey(afterLt);
          if afterLt.premiumActive && hasApiKey != "" && |text| > MinAiTextLength then
            var aiErrors := CheckWithAI(afterLt, ai, parse);
            if |aiErrors| > 0 then Checked(aiErrors, AI) else Checked([], LanguageTool)
          else Checked([], LanguageTool)
  }

  /** The AI provider is consulted only when LanguageTool ran clean and the
      account is eligible once it has: otherwise no AI reply and no JSON parser
      can change the response. */
  lemma AiConsultedOnlyWhenEligible(
    atStart: Settings, afterLt: Settings, text: string, lt: LtReply,
    ai1: AiReply, parse1: string -> Option<Value>,
    ai2: AiReply, parse2: string -> Option<Value>)
    requires !(atStart.languageToolEnabled && lt == LtMatches([]) && AiEligible(afterLt, text))
    ensures CheckGrammar(atStart, afterLt, text, lt, ai1, parse1) == CheckGrammar(atStart, afterLt, text, lt, ai2, parse2)
  {
  }

  /** With checking disabled when the call begins, neither provider's reply
      nor a later change of configuration matters. */
  lemma DisabledConsultsNoProvider(
    atStart: Settings, text: string,
    after1: Settings, lt1: LtReply, ai1: AiReply, parse1: string -> Option<Value>,
    after2: Settings, lt2: LtReply, ai2: AiReply, parse2: string -> Option<Value>)
    requires !atStart.languageToolEnabled
    ensures CheckGrammar(atStart, after1, text, lt1, ai1, parse1) == CheckGrammar(atStart, after2, text, lt2, ai2, parse2) == Disabled(DisabledMessage)
  {
  }

  /** Only the enabled flag is read before LanguageTool answers: the rest of
      the configuration at that moment never affects the response. */
  lemma OnlyEnabledFlagReadAtStart(
    start1: Settings, start2: Settings, afterLt: Settings, text: string,
    lt: LtReply, ai: AiReply, parse: string -> Option<Value>)
    requires start1.languageToolEnabled == start2.languageToolEnabled
    ensures CheckGrammar(start1, afterLt, text, lt, ai, parse) == CheckGrammar(start2, afterLt, text, lt, ai, parse)
  {
  }

  /** An AI reply whose content holds no parseable JSON leaves the cycle clean:
      source LanguageTool, no errors, no exception. */
  lemma UnparseableAiReplyIsClean(atStart: Settings, afterLt: Settings, text: string, content: string, parse: string -> Option<Value>)
    requires atStart.languageToolEnabled
    requires parse(JsonCandidate(content)).None?
    ensures CheckGrammar(atStart, afterLt, text, LtMatches([]), AiContent(content), parse) == Checked([], LanguageTool)
  {
  }
}
