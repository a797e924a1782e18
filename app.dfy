/**
 * The chat session of App.tsx. The component keeps three pieces of state
 * (`messages`, `appState`, `currentImage`); its handlers change them, and its
 * render code decides which of the handlers the student can reach.
 *
 * The two async handlers are split at their `await`: a dispatch step that
 * appends the pending message and returns what is sent to the gateway, and a
 * resolve step that receives the gateway's string and the pending id the
 * handler's closure kept.
 */
module App {
  import opened Types
  import opened Transcript
  import DataUrl
  import GeminiService

  /** The session's three fields as one value. */
  datatype Snapshot = Snapshot(messages: seq<Message>, appState: AppState, currentImage: Option<string>)

  /** The state `useState` starts from and `handleReset` returns to. */
  const Initial: Snapshot := Snapshot([], Idle, None)

  /** What a dispatch did: nothing (no image), or started a request for `payload` awaited by `pendingId`. */
  datatype Dispatch = Skipped | Requested(pendingId: string, payload: Option<string>)

  /** The controls the render code can show. */
  datatype Action = Upload | GetHint | GetAnalysis | Reset

  /** One atomic change of the session: a handler, or the half of one after its `await`. */
  datatype Event =
    | FileSelected(file: Option<string>, stamp: string)
    | HintRequested(stamp: string)
    | HintResolved(id: string, text: string)
    | AnalysisRequested(requestStamp: string, thinkingStamp: string)
    | AnalysisResolved(id: string, text: string)
    | ResetPressed

  /** `if (!currentImage) return;` — JavaScript treats both null and "" as no image. */
  predicate HasImage(img: Option<string>) {
    img.Some? && img.value != ""
  }

  // ----- The render projection -----

  /**
   * Which controls are on screen: the upload inputs of the welcome screen
   * when the transcript is empty; otherwise the control panel, whose buttons
   * depend on `appState` alone (a spinner and no button while analysing).
   */
  function Controls(s: Snapshot): (r: set<Action>)
    ensures Upload in r <==> s.messages == []
    ensures Upload in r ==> r == {Upload}
    ensures r == {} <==> s.messages != [] && IsAnalyzing(s.appState)
    ensures GetAnalysis in r ==> Reset in r && s.appState == HintGiven
  {
    if s.messages == [] then {Upload}
    else
      match s.appState
      case Idle => {GetHint}
      case AnalyzingHint => {}
      case AnalyzingFull => {}
      case HintGiven => {Reset, GetAnalysis}
      case FullReviewGiven => {Reset}
  }

  // ----- The handlers as one transition function -----

  /**
   * The new session state after one event; every handler is total. Apart from
   * an upload and a reset, the image is never changed, and the transcript is
   * only appended to or resolved in place: no message is dropped or moved, and
   * every id stays where it was.
   */
  function Step(s: Snapshot, e: Event): (r: Snapshot)
    ensures !e.FileSelected? && !e.ResetPressed? ==>
      r.currentImage == s.currentImage &&
      |r.messages| >= |s.messages| &&
      forall k :: 0 <= k < |s.messages| ==> r.messages[k].id == s.messages[k].id && r.messages[k].role == s.messages[k].role && r.messages[k].kind == s.messages[k].kind
    ensures (e.HintResolved? || e.AnalysisResolved?) ==> |r.messages| == |s.messages|
    ensures e.ResetPressed? ==> r == Initial
  {
    match e
    case FileSelected(file, stamp) =>
      if file.None? then s
      else Snapshot([ImageMessage(stamp, file.value)], Idle, file)
    case HintRequested(stamp) =>
      if !HasImage(s.currentImage) then s
      else s.(messages := WithPendingHint(s.messages, stamp), appState := AnalyzingHint)
    case HintResolved(id, text) =>
      s.(messages := ReplaceById(s.messages, id, text), appState := HintGiven)
    case AnalysisRequested(requestStamp, thinkingStamp) =>
      if !HasImage(s.currentImage) then s
      else s.(messages := WithPendingAnalysis(s.messages, requestStamp, thinkingStamp), appState := AnalyzingFull)
    case AnalysisResolved(id, text) =>
      s.(messages := ReplaceById(s.messages, id, text), appState := FullReviewGiven)
    case ResetPressed => Initial
  }

  /**
   * The events the student can cause in a state: a control that is on screen
   * (with clock stamps for the new ids), or the completion of the request that
   * is in flight, which resolves the pending message the dispatch appended last.
   */
  ghost predicate Enabled(s: Snapshot, e: Event) {
    match e
    case FileSelected(_, stamp) => Upload in Controls(s) && IsStamp(stamp)
    case HintRequested(stamp) => GetHint in Controls(s) && IsStamp(stamp)
    case HintResolved(id, _) => s.appState == AnalyzingHint && s.messages != [] && id == s.messages[|s.messages| - 1].id
    case AnalysisRequested(a, b) => GetAnalysis in Controls(s) && IsStamp(a) && IsStamp(b)
    case AnalysisResolved(id, _) => s.appState == AnalyzingFull && s.messages != [] && id == s.messages[|s.messages| - 1].id
    case ResetPressed => Reset in Controls(s)
  }

  /** The state after a sequence of events. */
  function Run(s: Snapshot, events: seq<Event>): Snapshot
    decreases |events|
  {
    if events == [] then s else Run(Step(s, events[0]), events[1..])
  }

  /** Every event of the sequence is enabled in the state it meets. */
  ghost predicate Admissible(s: Snapshot, events: seq<Event>)
    decreases |events|
  {
    events == [] || (Enabled(s, events[0]) && Admissible(Step(s, events[0]), events[1..]))
  }

  // ----- The session invariant -----

  /** Transcript length in each state: 0 or 1 while idle, 2 around the hint, 4 around the analysis. */
  function ExpectedLength(st: AppState, hasImage: bool): nat {
    match st
    case Idle => if hasImage then 1 else 0
    case AnalyzingHint => 2
    case HintGiven => 2
    case AnalyzingFull => 4
    case FullReviewGiven => 4
  }

  /**
   * What holds in every state the student can reach: the transcript is empty
   * exactly when there is no image; its first message is the student's image,
   * the same string as `currentImage`; its length is fixed by the state; after
   * it come the teacher's hint, the fixed request and the teacher's analysis;
   * and exactly the last message is pending, with empty content, precisely
   * while a request is in flight.
   */
  ghost predicate Inv(s: Snapshot) {
    var m := s.messages;
    (m == [] <==> s.currentImage.None?) &&
    |m| == ExpectedLength(s.appState, s.currentImage.Some?) &&
    (m != [] ==> m[0] == ImageMessage(m[0].id, s.currentImage.value) && IsStamp(m[0].id)) &&
    (|m| >= 2 ==> m[1].role == Teacher && m[1].kind == Text && IsHintId(m[1].id)) &&
    (|m| == 4 ==> m[2] == RequestMessage(m[2].id) && IsStamp(m[2].id)) &&
    (|m| == 4 ==> m[3].role == Teacher && m[3].kind == Text && IsFullId(m[3].id)) &&
    (forall k :: 0 <= k < |m| ==> (IsThinking(m[k]) <==> IsAnalyzing(s.appState) && k == |m| - 1)) &&
    (forall k :: 0 <= k < |m| && IsThinking(m[k]) ==> m[k].content == "")
  }

  lemma InitialInv()
    ensures Inv(Initial)
  {
  }

  /** Resolving the last message of a reachable transcript touches that message only. */
  lemma ResolveLast(s: Snapshot, text: string)
    requires Inv(s) && IsAnalyzing(s.appState)
    ensures var m := s.messages; var last := |m| - 1;
      ReplaceById(m, m[last].id, text) == m[last := Resolved(m[last], text)]
  {
    var m := s.messages;
    var last := |m| - 1;
    forall j | 0 <= j < |m| && j != last
      ensures m[j].id != m[last].id
    {
      IdShapesDisjoint(m[j].id);
      IdShapesDisjoint(m[last].id);
    }
    ReplaceByIdAt(m, last, text);
  }

  /** Each enabled event keeps the invariant. */
  lemma StepPreservesInv(s: Snapshot, e: Event)
    requires Inv(s) && Enabled(s, e)
    ensures Inv(Step(s, e))
  {
    var t := Step(s, e);
    match e
    case FileSelected(file, stamp) =>
    case HintRequested(stamp) =>
      if HasImage(s.currentImage) {
        HintIdShape(stamp);
        assert t.messages[1] == ThinkingMessage(HintThinkingId(stamp));
      }
    case HintResolved(id, text) =>
      ResolveLast(s, text);
    case AnalysisRequested(a, b) =>
      if HasImage(s.currentImage) {
        FullIdShape(b);
        assert t.messages[..2] == s.messages;
        assert t.messages[3] == ThinkingMessage(FullThinkingId(b));
      }
    case AnalysisResolved(id, text) =>
      ResolveLast(s, text);
    case ResetPressed =>
  }

  /** Any admissible run from a state satisfying the invariant keeps it. */
  lemma {:induction false} RunPreservesInv(s: Snapshot, events: seq<Event>)
    requires Inv(s) && Admissible(s, events)
    ensures Inv(Run(s, events))
    decreases |events|
  {
    if events != [] {
      StepPreservesInv(s, events[0]);
      RunPreservesInv(Step(s, events[0]), events[1..]);
    }
  }

  /** Every state reachable from the initial one by admissible events satisfies the invariant. */
  lemma ReachableInv(events: seq<Event>)
    requires Admissible(Initial, events)
    ensures Inv(Run(Initial, events))
  {
    InitialInv();
    RunPreservesInv(Initial, events);
  }

  /**
   * In a reachable state: at most one message is pending, and one is exactly
   * while a request is in flight; the only image is the first message.
   */
  lemma InvConsequences(s: Snapshot)
    requires Inv(s)
    ensures forall i, j :: 0 <= i < j < |s.messages| ==> !(IsThinking(s.messages[i]) && IsThinking(s.messages[j]))
    ensures IsAnalyzing(s.appState) <==> exists k :: 0 <= k < |s.messages| && IsThinking(s.messages[k])
    ensures s.messages != [] ==> s.messages[0].role == User && s.messages[0].kind == Image
    ensures forall k :: 0 < k < |s.messages| ==> s.messages[k].kind == Text
  {
  }

  /**
   * The controls in each reachable state: upload only with an empty
   * transcript, the hint button only when idle with an image, analysis and
   * reset after the hint, reset alone after the analysis, and nothing while a
   * request is in flight.
   */
  lemma ControlsByState(s: Snapshot)
    requires Inv(s)
    ensures s.appState == Idle && s.currentImage.None? ==> Controls(s) == {Upload}
    ensures s.appState == Idle && s.currentImage.Some? ==> Controls(s) == {GetHint}
    ensures IsAnalyzing(s.appState) ==> Controls(s) == {}
    ensures s.appState == HintGiven ==> Controls(s) == {GetAnalysis, Reset}
    ensures s.appState == FullReviewGiven ==> Controls(s) == {Reset}
  {
  }

  /**
   * A full analysis can be requested only once a hint has been resolved:
   * the transcript then holds the image and a teacher message that is no
   * longer pending.
   */
  lemma AnalysisFollowsResolvedHint(s: Snapshot, a: string, b: string)
    requires Inv(s) && Enabled(s, AnalysisRequested(a, b))
    ensures |s.messages| == 2 && s.messages[1].role == Teacher && !IsThinking(s.messages[1])
  {
  }

  /**
   * Resolving the pending message of a reachable state fills in that message
   * alone and moves on whatever the text is; resolving twice with the same
   * text changes nothing more.
   */
  lemma ResolveFillsPending(s: Snapshot, text: string)
    requires Inv(s) && IsAnalyzing(s.appState)
    ensures var m := s.messages; var last := |m| - 1;
      var e := if s.appState == AnalyzingHint then HintResolved(m[last].id, text) else AnalysisResolved(m[last].id, text);
      var t := Step(s, e);
      t.messages == m[last := Resolved(m[last], text)] &&
      t.messages[last].content == text && t.messages[last].isThinking == Some(false) &&
      t.appState == (if s.appState == AnalyzingHint then HintGiven else FullReviewGiven) &&
      t.currentImage == s.currentImage &&
      Step(t, e) == t
  {
    var m := s.messages;
    var last := |m| - 1;
    ResolveLast(s, text);
    ReplaceByIdIdempotent(m, m[last].id, text);
  }

  /** Reset from any state gives the initial state. */
  lemma ResetFromAnywhere(s: Snapshot)
    ensures Step(s, ResetPressed) == Snapshot([], Idle, None)
  {
  }

  /**
   * Upload, hint and analysis end to end, with the gateway's replies for
   * arbitrary call outcomes: the run is admissible, the transcript holds the
   * image, the resolved hint, the fixed request and the resolved analysis in
   * that order, and both replies are non-empty. When the analysis call fails,
   * the session still reaches FullReviewGiven and shows the error text.
   */
  lemma {:induction false} FullSessionScenario(url: string, s0: string, s1: string, s2: string, s3: string,
                                               hint: GeminiService.Outcome, analysis: GeminiService.Outcome)
    requires url != "" && IsStamp(s0) && IsStamp(s1) && IsStamp(s2) && IsStamp(s3)
    ensures var h := GeminiService.MathHint(hint);
      var a := GeminiService.FullAnalysis(analysis);
      var events := [FileSelected(Some(url), s0), HintRequested(s1), HintResolved(HintThinkingId(s1), h),
                     AnalysisRequested(s2, s3), AnalysisResolved(FullThinkingId(s3), a)];
      Admissible(Initial, events) &&
      Run(Initial, events) == Snapshot(
        [ImageMessage(s0, url),
         Message(HintThinkingId(s1), Teacher, Text, h, Some(false)),
         RequestMessage(s2),
         Message(FullThinkingId(s3), Teacher, Text, a, Some(false))],
        FullReviewGiven, Some(url)) &&
      h != "" && a != "" &&
      (analysis.Failed? ==> Run(Initial, events).messages[3].content == GeminiService.AnalysisErrorReply)
  {
    var h := GeminiService.MathHint(hint);
    var a := GeminiService.FullAnalysis(analysis);
    var events := [FileSelected(Some(url), s0), HintRequested(s1), HintResolved(HintThinkingId(s1), h),
                   AnalysisRequested(s2, s3), AnalysisResolved(FullThinkingId(s3), a)];
    var q0 := Step(Initial, events[0]);
    assert q0 == Snapshot([ImageMessage(s0, url)], Idle, Some(url));
    var q1 := Step(q0, events[1]);
    assert q1.messages == [ImageMessage(s0, url), ThinkingMessage(HintThinkingId(s1))];
    IdsDistinct(s0, s1, s3);
    IdsDistinct(s2, s1, s3);
    var q2 := Step(q1, events[2]);
    assert q2.messages == [ImageMessage(s0, url), Message(HintThinkingId(s1), Teacher, Text, h, Some(false))];
    var q3 := Step(q2, events[3]);
    assert q3.messages == q2.messages + [RequestMessage(s2), ThinkingMessage(FullThinkingId(s3))];
    var q4 := Step(q3, events[4]);
    assert q4.messages == q2.messages + [RequestMessage(s2), Message(FullThinkingId(s3), Teacher, Text, a, Some(false))];
    assert events[4..] == [events[4]] && events[4..][1..] == [];
    assert Run(q3, [events[4]]) == Run(Step(q3, events[4]), []);
    assert events[3..][1..] == events[4..];
    assert events[2..][1..] == events[3..];
    assert events[1..][1..] == events[2..];
    assert Admissible(q3, events[4..]) && Run(q3, events[4..]) == q4;
    assert Admissible(q2, events[3..]) && Run(q2, events[3..]) == q4;
    assert Admissible(q1, events[2..]) && Run(q1, events[2..]) == q4;
    assert Admissible(q0, events[1..]) && Run(q0, events[1..]) == q4;
    GeminiService.FullAnalysisFallbacks(analysis);
  }

  // ----- The component's state and its handlers -----

  /** The three `useState` hooks of the component, updated by its handlers. */
  class Session {
    var messages: seq<Message>
    var appState: AppState
    var currentImage: Option<string>

    function View(): Snapshot
      reads this
    {
      Snapshot(messages, appState, currentImage)
    }

    constructor ()
      ensures View() == Initial
    {
      messages := [];
      appState := Idle;
      currentImage := None;
    }

    /**
     * `handleFileSelect`, with the file already read as the data URL `file`
     * (no file selected: nothing happens) and `stamp` the clock reading.
     */
    method FileSelect(file: Option<string>, stamp: string)
      modifies this
      ensures file.None? ==> View() == old(View())
      ensures file.Some? ==> messages == [ImageMessage(stamp, file.value)] && currentImage == file && appState == Idle
      ensures View() == Step(old(View()), FileSelected(file, stamp))
    {
      if file.Some? {
        currentImage := file;
        messages := [ImageMessage(stamp, file.value)];
        appState := Idle;
      }
    }

    /** `handleGetHint` up to its `await`: what it sends and what it leaves pending. */
    method DispatchHint(stamp: string) returns (d: Dispatch)
      modifies this
      ensures !HasImage(old(currentImage)) ==> d == Skipped && View() == old(View())
      ensures HasImage(old(currentImage)) ==>
        messages == old(messages) + [ThinkingMessage(HintThinkingId(stamp))] &&
        appState == AnalyzingHint && currentImage == old(currentImage) &&
        d == Requested(HintThinkingId(stamp), DataUrl.SecondField(currentImage.value))
      ensures View() == Step(old(View()), HintRequested(stamp))
    {
      if !HasImage(currentImage) {
        return Skipped;
      }
      var thinkingId := HintThinkingId(stamp);
      messages := messages + [ThinkingMessage(thinkingId)];
      appState := AnalyzingHint;
      d := Requested(thinkingId, DataUrl.SecondField(currentImage.value));
    }

    /** `handleGetHint` after its `await`, with the gateway's reply `hintText`. */
    method ResolveHint(thinkingId: string, hintText: string)
      modifies this
      ensures messages == ReplaceById(old(messages), thinkingId, hintText)
      ensures appState == HintGiven && currentImage == old(currentImage)
      ensures View() == Step(old(View()), HintResolved(thinkingId, hintText))
    {
      messages := ReplaceById(messages, thinkingId, hintText);
      appState := HintGiven;
    }

    /** `handleGetAnalysis` up to its `await`: the request message, the pending message, the payload. */
    method DispatchAnalysis(requestStamp: string, thinkingStamp: string) returns (d: Dispatch)
      modifies this
      ensures !HasImage(old(currentImage)) ==> d == Skipped && View() == old(View())
      ensures HasImage(old(currentImage)) ==>
        messages == old(messages) + [RequestMessage(requestStamp), ThinkingMessage(FullThinkingId(thinkingStamp))] &&
        appState == AnalyzingFull && currentImage == old(currentImage) &&
        d == Requested(FullThinkingId(thinkingStamp), DataUrl.SecondField(currentImage.value))
      ensures View() == Step(old(View()), AnalysisRequested(requestStamp, thinkingStamp))
    {
      if !HasImage(currentImage) {
        return Skipped;
      }
      var userMsg := RequestMessage(requestStamp);
      var thinkingId := FullThinkingId(thinkingStamp);
      messages := messages + [userMsg, ThinkingMessage(thinkingId)];
      appState := AnalyzingFull;
      d := Requested(thinkingId, DataUrl.SecondField(currentImage.value));
    }

    /** `handleGetAnalysis` after its `await`, with the gateway's reply `analysisText`. */
    method ResolveAnalysis(thinkingId: string, analysisText: string)
      modifies this
      ensures messages == ReplaceById(old(messages), thinkingId, analysisText)
      ensures appState == FullReviewGiven && currentImage == old(currentImage)
      ensures View() == Step(old(View()), AnalysisResolved(thinkingId, analysisText))
    {
      messages := ReplaceById(messages, thinkingId, analysisText);
      appState := FullReviewGiven;
    }

    /** `handleReset`: back to the initial state from wherever the session is. */
    method Reset()
      modifies this
      ensures messages == [] && currentImage == None && appState == Idle
      ensures View() == Step(old(View()), ResetPressed)
    {
      messages := [];
      currentImage := None;
      appState := Idle;
    }
  }
}
