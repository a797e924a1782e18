/**
 * The transcript updates of App.tsx as pure functions over the message list:
 * the messages each handler builds, the spread-append of a dispatch and the
 * `map` that resolves a pending message by its id.
 */
module Transcript {
  import opened Types

  /** The text of the student's request for a full analysis (App.tsx:90). */
  const AnalysisRequestText: string := "Подсказка не помогла. Где ошибка?"

  /** `Date.now().toString()`: a non-empty string of decimal digits. */
  predicate IsStamp(s: string) {
    |s| > 0 && forall k :: 0 <= k < |s| ==> '0' <= s[k] <= '9'
  }

  /** Id of the pending hint message. */
  function HintThinkingId(stamp: string): string {
    "thinking-" + stamp
  }

  /** Id of the pending analysis message. */
  function FullThinkingId(stamp: string): string {
    "thinking-full-" + stamp
  }

  /** An id made by `'thinking-' + Date.now()`. */
  predicate IsHintId(id: string) {
    |id| > 9 && id[..9] == "thinking-" && IsStamp(id[9..])
  }

  /** An id made by `'thinking-full-' + Date.now()`. */
  predicate IsFullId(id: string) {
    |id| > 14 && id[..14] == "thinking-full-" && IsStamp(id[14..])
  }

  /** The three id shapes never overlap. */
  lemma IdShapesDisjoint(id: string)
    ensures IsStamp(id) ==> !IsHintId(id) && !IsFullId(id)
    ensures IsHintId(id) ==> !IsFullId(id)
  {
    if IsStamp(id) && |id| > 9 {
      assert id[..9][0] == id[0];
    }
    if IsHintId(id) && |id| > 14 {
      assert id[9..][0] == id[9] == id[..14][9];
    }
  }

  lemma HintIdShape(stamp: string)
    requires IsStamp(stamp)
    ensures IsHintId(HintThinkingId(stamp))
  {
  }

  lemma FullIdShape(stamp: string)
    requires IsStamp(stamp)
    ensures IsFullId(FullThinkingId(stamp))
  {
  }

  /**
   * With clock stamps for ids, a plain id, a pending-hint id and a
   * pending-analysis id can never coincide: the prefixes keep them apart.
   */
  lemma IdsDistinct(a: string, b: string, c: string)
    requires IsStamp(a) && IsStamp(b) && IsStamp(c)
    ensures a != HintThinkingId(b) && a != FullThinkingId(c)
    ensures HintThinkingId(b) != FullThinkingId(c)
  {
    HintIdShape(b);
    FullIdShape(c);
    IdShapesDisjoint(a);
    IdShapesDisjoint(HintThinkingId(b));
  }

  /** The message `handleFileSelect` stores for an uploaded data URL. */
  function ImageMessage(stamp: string, dataUrl: string): Message {
    Message(stamp, User, Image, dataUrl, None)
  }

  /** The student's fixed "the hint did not help" message. */
  function RequestMessage(stamp: string): Message {
    Message(stamp, User, Text, AnalysisRequestText, None)
  }

  /** A teacher placeholder awaiting the gateway's reply. */
  function ThinkingMessage(id: string): Message {
    Message(id, Teacher, Text, "", Some(true))
  }

  /** `{ ...msg, content: text, isThinking: false }` */
  function Resolved(m: Message, text: string): Message {
    m.(content := text, isThinking := Some(false))
  }

  /** The transcript after a hint dispatch: one pending message appended. */
  function WithPendingHint(msgs: seq<Message>, stamp: string): (r: seq<Message>)
    ensures |r| == |msgs| + 1 && r[..|msgs|] == msgs
    ensures IsThinking(r[|msgs|]) && r[|msgs|].role == Teacher && r[|msgs|].kind == Text
    ensures r[|msgs|].id == HintThinkingId(stamp) && r[|msgs|].content == ""
  {
    msgs + [ThinkingMessage(HintThinkingId(stamp))]
  }

  /** The transcript after an analysis dispatch: request, then pending message. */
  function WithPendingAnalysis(msgs: seq<Message>, requestStamp: string, thinkingStamp: string): (r: seq<Message>)
    ensures |r| == |msgs| + 2 && r[..|msgs|] == msgs
    ensures r[|msgs|].role == User && r[|msgs|].content == AnalysisRequestText && !IsThinking(r[|msgs|])
    ensures r[|msgs|].kind == Text && r[|msgs|].id == requestStamp
    ensures IsThinking(r[|msgs| + 1]) && r[|msgs| + 1].role == Teacher && r[|msgs| + 1].kind == Text
    ensures r[|msgs| + 1].id == FullThinkingId(thinkingStamp) && r[|msgs| + 1].content == ""
  {
    msgs + [RequestMessage(requestStamp), ThinkingMessage(FullThinkingId(thinkingStamp))]
  }

  /**
   * `msgs.map(msg => msg.id === id ? resolved : msg)`: same length and order,
   * every message with the id resolved to `text`, every other one unchanged.
   */
  function ReplaceById(msgs: seq<Message>, id: string, text: string): (r: seq<Message>)
    ensures |r| == |msgs|
    ensures forall k :: 0 <= k < |msgs| && msgs[k].id == id ==> r[k] == Resolved(msgs[k], text)
    ensures forall k :: 0 <= k < |msgs| && msgs[k].id != id ==> r[k] == msgs[k]
  {
    if msgs == [] then []
    else
      var head := if msgs[0].id == id then Resolved(msgs[0], text) else msgs[0];
      [head] + ReplaceById(msgs[1..], id, text)
  }

  /** Resolving twice with the same text is resolving once. */
  lemma ReplaceByIdIdempotent(msgs: seq<Message>, id: string, text: string)
    ensures ReplaceById(ReplaceById(msgs, id, text), id, text) == ReplaceById(msgs, id, text)
  {
  }

  /**
   * When the id sits only at position `k`, resolving it is an in-place update
   * of that one position: the pending placeholder is never moved or deleted.
   */
  lemma ReplaceByIdAt(msgs: seq<Message>, k: nat, text: string)
    requires k < |msgs|
    requires forall j :: 0 <= j < |msgs| && j != k ==> msgs[j].id != msgs[k].id
    ensures ReplaceById(msgs, msgs[k].id, text) == msgs[k := Resolved(msgs[k], text)]
  {
  }

  /** An id that no message carries leaves the transcript as it is. */
  lemma ReplaceByIdAbsent(msgs: seq<Message>, id: string, text: string)
    requires forall j :: 0 <= j < |msgs| ==> msgs[j].id != id
    ensures ReplaceById(msgs, id, text) == msgs
  {
  }
}
