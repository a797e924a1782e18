/**
 * The AI gateway (services/geminiService.ts): two operations that send the
 * image to the model and turn whatever happens into a string. The SDK call
 * itself is abstracted as an `Outcome`; the model is the request record each
 * operation builds and the fallback policy applied to the outcome.
 */
module GeminiService {
  import opened Types

  /** What `generateContent` did: answered (its `text` may be undefined or empty) or threw. */
  datatype Outcome = Answered(text: Option<string>) | Failed

  const ModelName: string := "gemini-3-pro-preview"
  const ImageMimeType: string := "image/jpeg"
  const HintBudget: nat := 1024
  const AnalysisBudget: nat := 2048

  const HintEmptyReply: string := "Извини, я не смог разглядеть решение. Попробуй сделать фото четче."
  const HintErrorReply: string := "Произошла ошибка при анализе изображения. Попробуй еще раз."
  const AnalysisEmptyReply: string := "Не удалось сформировать полный разбор. Попробуй загрузить фото заново."
  const AnalysisErrorReply: string := "Произошла ошибка при составлении разбора. Попробуй позже."

  /** The fixed texts of a request, named rather than spelled out. */
  datatype Prompt = TutorPersona | HintTask | AnalysisTask

  /** The logical shape of one `generateContent` call. */
  datatype Request = Request(
    model: string,
    mimeType: string,
    data: string,
    task: Prompt,
    systemInstruction: Prompt,
    thinkingBudget: nat)

  /** `response.text` as JavaScript's `||` sees it: undefined and "" are falsy. */
  predicate HasText(o: Outcome) {
    o.Answered? && o.text.Some? && o.text.value != ""
  }

  /** The shared try/catch of both operations, given the operation's two constants. */
  function Reply(o: Outcome, emptyReply: string, errorReply: string): string {
    match o
    case Failed => errorReply
    case Answered(t) => if t.Some? && t.value != "" then t.value else emptyReply
  }

  /** Result of `getMathHint` for a given outcome of the SDK call: never empty, model text kept. */
  function MathHint(o: Outcome): (r: string)
    ensures r != ""
    ensures HasText(o) ==> r == o.text.value
  {
    Reply(o, HintEmptyReply, HintErrorReply)
  }

  /** Result of `getFullAnalysis` for a given outcome of the SDK call: never empty, model text kept. */
  function FullAnalysis(o: Outcome): (r: string)
    ensures r != ""
    ensures HasText(o) ==> r == o.text.value
  {
    Reply(o, AnalysisEmptyReply, AnalysisErrorReply)
  }

  /** The request `getMathHint` sends: the payload as JPEG inline data, thinking budget 1024. */
  function HintRequest(payload: string): (r: Request)
    ensures r.data == payload && r.mimeType == "image/jpeg"
    ensures r.task == HintTask && r.thinkingBudget == 1024
  {
    Request(ModelName, ImageMimeType, payload, HintTask, TutorPersona, HintBudget)
  }

  /** The request `getFullAnalysis` sends: the payload as JPEG inline data, thinking budget 2048. */
  function AnalysisRequest(payload: string): (r: Request)
    ensures r.data == payload && r.mimeType == "image/jpeg"
    ensures r.task == AnalysisTask && r.thinkingBudget == 2048
  {
    Request(ModelName, ImageMimeType, payload, AnalysisTask, TutorPersona, AnalysisBudget)
  }

  /**
   * The fallbacks of `getMathHint`: a missing or empty text gives the
   * apology, a failure of the call gives the error text.
   */
  lemma MathHintFallbacks(o: Outcome)
    ensures o.Answered? && !HasText(o) ==> MathHint(o) == HintEmptyReply
    ensures o.Failed? ==> MathHint(o) == HintErrorReply
  {
  }

  /** The same fallbacks for `getFullAnalysis`, with its own two constants. */
  lemma FullAnalysisFallbacks(o: Outcome)
    ensures o.Answered? && !HasText(o) ==> FullAnalysis(o) == AnalysisEmptyReply
    ensures o.Failed? ==> FullAnalysis(o) == AnalysisErrorReply
  {
  }

  /**
   * A reply that is none of an operation's two constants came from the
   * model verbatim, and conversely: the reply determines the model text.
   */
  lemma MathHintIsModelText(o: Outcome, t: string)
    requires t != HintEmptyReply && t != HintErrorReply
    ensures MathHint(o) == t <==> o == Answered(Some(t)) && t != ""
  {
  }

  lemma FullAnalysisIsModelText(o: Outcome, t: string)
    requires t != AnalysisEmptyReply && t != AnalysisErrorReply
    ensures FullAnalysis(o) == t <==> o == Answered(Some(t)) && t != ""
  {
  }

  /**
   * Within each operation the empty-result and the failure constants differ,
   * so a caller could tell the two fallbacks apart; the two operations use
   * four different constants.
   */
  lemma FallbacksDistinct()
    ensures HintEmptyReply != HintErrorReply
    ensures AnalysisEmptyReply != AnalysisErrorReply
    ensures HintEmptyReply != AnalysisEmptyReply && HintErrorReply != AnalysisErrorReply
  {
  }

  /**
   * The two requests for one payload share the model and the persona and
   * differ only in the task and in the thinking budget, which is larger for
   * the analysis; and each request determines its payload.
   */
  lemma RequestsShareConfiguration(payload: string)
    ensures HintRequest(payload).model == AnalysisRequest(payload).model == ModelName
    ensures HintRequest(payload).systemInstruction == AnalysisRequest(payload).systemInstruction == TutorPersona
    ensures HintRequest(payload) == AnalysisRequest(payload).(task := HintTask, thinkingBudget := HintBudget)
    ensures HintRequest(payload).thinkingBudget < AnalysisRequest(payload).thinkingBudget
    ensures forall q :: HintRequest(q) == HintRequest(payload) ==> q == payload
    ensures forall q :: AnalysisRequest(q) == AnalysisRequest(payload) ==> q == payload
  {
  }
}
