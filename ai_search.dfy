/**
 * Routing of typed text between plain search and the AI path, the keyword
 * guard applied to the AI's answer, and the effect that triggers
 * `processAiQuery`.
 */
module AiSearch {
  import opened Wrappers
  import opened Text
  import opened Effects

  const SearchWord: string := "搜索"
  const FindWord: string := "查找"
  const SeekWord: string := "找"

  /** The answer the guard filters out. */
  const NoSearchIntent: string := "NO_SEARCH_INTENT"

  /** The answer the prompt asks the AI to give when there is no search intent. */
  const PromptRefusal: string := "不支持的搜索内容"

  /** The answer the prompt asks the AI to give when the query is not about a contact. */
  const PromptOffTopic: string := "请输入和联系人相关的问题"

  // ---------------------------------------------------------------------
  // Routing

  /** The classifier of `onSearchTextChange`, applied to the lower-cased text. */
  predicate IsAiQuery(lowered: string) {
    Includes(lowered, SearchWord) || Includes(lowered, FindWord) || Includes(lowered, SeekWord)
  }

  /** The test for "查找" adds nothing: every text containing it contains "找". */
  lemma FindWordSubsumed(lowered: string)
    ensures Includes(lowered, FindWord) ==> Includes(lowered, SeekWord)
    ensures IsAiQuery(lowered) <==> Includes(lowered, SearchWord) || Includes(lowered, SeekWord)
  {
    assert FindWord == "查" + SeekWord;
    IncludesSuffixOfInfix(lowered, "查", SeekWord);
  }

  /** The keywords have no letters, so lower-casing the text never changes the routing. */
  lemma ClassifierIgnoresCase(text: string)
    ensures IsAiQuery(AsciiLower(text)) <==> IsAiQuery(text)
  {
    LowerPreservesLetterFreeMatches(text, SearchWord);
    LowerPreservesLetterFreeMatches(text, FindWord);
    LowerPreservesLetterFreeMatches(text, SeekWord);
  }

  /** Where `onSearchTextChange` sends typed text: to `setAiQuery` or to `search`. */
  datatype Route = ToAi(query: string) | ToSearch(text: string)

  function RouteOf(text: string): Route {
    if IsAiQuery(AsciiLower(text)) then ToAi(text) else ToSearch(text)
  }

  /** Text goes to the AI path exactly when it holds one of the keywords, and either way the text is passed on unchanged. */
  lemma RoutingByKeyword(text: string)
    ensures RouteOf(text).ToAi? <==> Includes(text, SearchWord) || Includes(text, SeekWord)
    ensures RouteOf(text) == ToAi(text) || RouteOf(text) == ToSearch(text)
  {
    ClassifierIgnoresCase(text);
    FindWordSubsumed(text);
  }

  // ---------------------------------------------------------------------
  // The keyword guard

  /** `response.trim()`, kept when it is non-empty and not the no-intent marker. */
  function SearchKeyword(response: string): Option<string> {
    var keyword := Trim(response);
    if keyword != "" && keyword != NoSearchIntent then Some(keyword) else None
  }

  /**
   * The guard rejects exactly the answers that are blank or the marker
   * surrounded by white space; a kept keyword is the trimmed answer, with no
   * white space at either end.
   */
  lemma KeywordGuard(response: string)
    ensures SearchKeyword(response).None? <==> AllSpace(response) || Trim(response) == NoSearchIntent
    ensures SearchKeyword(response).Some? ==>
      var k := SearchKeyword(response).value;
      k != "" && k != NoSearchIntent && !IsJsSpace(k[0]) && !IsJsSpace(k[|k| - 1])
      && k == response[LeadLength(response)..LeadLength(response) + |k|]
      && (forall j :: 0 <= j < LeadLength(response) ==> IsJsSpace(response[j]))
      && (forall j :: LeadLength(response) + |k| <= j < |response| ==> IsJsSpace(response[j]))
  {
    TrimEdges(response);
    TrimIsSlice(response);
  }

  /**
   * Neither of the two answers the prompt asks for, when there is no search
   * intent or when the query is not about a contact, is the one the guard
   * filters, so each is searched for as a keyword.
   */
  lemma PromptRefusalIsSearched()
    ensures SearchKeyword(PromptRefusal) == Some(PromptRefusal)
    ensures SearchKeyword(PromptOffTopic) == Some(PromptOffTopic)
  {
    assert !IsJsSpace(PromptRefusal[0]) && !IsJsSpace(PromptRefusal[|PromptRefusal| - 1]);
    assert LeadLength(PromptRefusal) == 0;
    assert TrailStart(PromptRefusal) == |PromptRefusal|;
    assert PromptRefusal[0..|PromptRefusal|] == PromptRefusal;
    assert !IsJsSpace(PromptOffTopic[0]) && !IsJsSpace(PromptOffTopic[|PromptOffTopic| - 1]);
    assert LeadLength(PromptOffTopic) == 0;
    assert TrailStart(PromptOffTopic) == |PromptOffTopic|;
    assert PromptOffTopic[0..|PromptOffTopic|] == PromptOffTopic;
  }

  // ---------------------------------------------------------------------
  // processAiQuery

  /** What `AI.ask` gives back: an answer, or the error it rejects with (stringified). */
  datatype AiReply = Answered(text: string) | AskFailed(error: string)

  /** The calls made once `AI.ask` has settled: a search for the guarded keyword with a success toast, or a failure toast. */
  function ReplyEffects(reply: AiReply): (trace: seq<Effect>)
    ensures forall j :: 0 <= j < |trace| ==> !trace[j].AskAi?
    ensures FailureToasts(trace) == (if reply.AskFailed? then 1 else 0)
  {
    match reply
    case AskFailed(e) =>
      var toast := ShowToast(AiFailed(e));
      assert FailureToasts([toast]) == 1;
      [toast]
    case Answered(r) =>
      match SearchKeyword(r)
      case None => []
      case Some(k) =>
        var trace := [Search(k), ShowToast(AiSearched(k))];
        assert trace[1..] == [trace[1]] && trace[1..][1..] == [];
        assert FailureToasts(trace[1..]) == 0;
        trace
  }

  /** The settled request searches for `k` exactly when the AI answered and the guard kept `k`. */
  lemma ReplySearches(reply: AiReply, k: string)
    ensures Search(k) in ReplyEffects(reply) <==> reply.Answered? && SearchKeyword(reply.text) == Some(k)
  {
  }

  /** The calls `processAiQuery(text)` makes for a given AI reply; the success toast is modelled as not failing. */
  function ProcessEffects(text: string, reply: AiReply): (trace: seq<Effect>)
    ensures text == "" <==> trace == []
    ensures text != "" ==> trace[0] == AskAi(text)
    ensures FailureToasts(trace) == (if text != "" && reply.AskFailed? then 1 else 0)
  {
    if text == "" then []
    else
      assert FailureToasts([AskAi(text)]) == 0;
      FailureToastsAppend([AskAi(text)], ReplyEffects(reply));
      [AskAi(text)] + ReplyEffects(reply)
  }

  /** `search(k)` is called exactly when the text is non-empty, the AI answered, and the guard kept `k`. */
  lemma SearchIffKeyword(text: string, reply: AiReply, k: string)
    ensures Search(k) in ProcessEffects(text, reply) <==>
      text != "" && reply.Answered? && SearchKeyword(reply.text) == Some(k)
  {
  }

  // ---------------------------------------------------------------------
  // The effect that triggers processAiQuery

  /** The condition of the effect: a non-empty query, a ready environment, no request in flight. */
  predicate AiTrigger(aiQuery: string, environmentReady: bool, aiProcessing: bool) {
    aiQuery != "" && environmentReady && !aiProcessing
  }

  /** The component state the effect depends on. */
  datatype AiState = AiState(query: string, ready: bool, processing: bool)

  predicate Triggered(s: AiState) {
    AiTrigger(s.query, s.ready, s.processing)
  }

  /**
   * One run of the effect as written: when triggered, `processAiQuery` runs to
   * completion and `aiProcessing` ends false on success and on failure, while
   * `aiQuery` is left as it was.
   */
  function EffectRun(s: AiState, reply: AiReply): (r: (AiState, seq<Effect>))
    ensures !Triggered(s) ==> r == (s, [])
    ensures Triggered(s) ==> !r.0.processing && r.0.query == s.query && r.0.ready == s.ready
    ensures Triggered(s) ==> r.1 == ProcessEffects(s.query, reply)
  {
    if Triggered(s) then (s.(processing := false), ProcessEffects(s.query, reply)) else (s, [])
  }

  /** The same effect with the query consumed when it is processed. */
  function EffectRunConsuming(s: AiState, reply: AiReply): (r: (AiState, seq<Effect>))
    ensures !Triggered(s) ==> r == (s, [])
    ensures Triggered(s) ==> !r.0.processing && r.0.query == "" && r.0.ready == s.ready
    ensures Triggered(s) ==> r.1 == ProcessEffects(s.query, reply)
  {
    if Triggered(s) then (AiState("", s.ready, false), ProcessEffects(s.query, reply)) else (s, [])
  }

  /**
   * Successive runs of the effect. Each completed request sets `aiProcessing`
   * back to false, which changes a dependency of the effect and runs it again;
   * `replies` are the AI's answers in turn.
   */
  function Rounds(s: AiState, replies: seq<AiReply>, consume: bool): seq<Effect>
    decreases |replies|
  {
    if replies == [] then []
    else
      var r := if consume then EffectRunConsuming(s, replies[0]) else EffectRun(s, replies[0]);
      r.1 + Rounds(r.0, replies[1..], consume)
  }

  /** How many AI requests a trace holds. */
  function AskCount(trace: seq<Effect>): nat {
    if trace == [] then 0 else (if trace[0].AskAi? then 1 else 0) + AskCount(trace[1..])
  }

  lemma {:induction false} AskCountAppend(a: seq<Effect>, b: seq<Effect>)
    ensures AskCount(a + b) == AskCount(a) + AskCount(b)
    decreases |a|
  {
    if a == [] {
      assert a + b == b;
    } else {
      assert (a + b)[1..] == a[1..] + b;
      AskCountAppend(a[1..], b);
    }
  }

  lemma ProcessEffectsAskOnce(text: string, reply: AiReply)
    requires text != ""
    ensures AskCount(ProcessEffects(text, reply)) == 1
  {
    AskCountAppend([AskAi(text)], ReplyEffects(reply));
    AskCountZero(ReplyEffects(reply));
  }

  lemma {:induction false} AskCountZero(t: seq<Effect>)
    requires forall j :: 0 <= j < |t| ==> !t[j].AskAi?
    ensures AskCount(t) == 0
    decreases |t|
  {
    if t != [] {
      AskCountZero(t[1..]);
    }
  }

  /** As written, the effect asks the AI again after every completed request: one request per round, without end. */
  lemma {:induction false} AsWrittenAsksEveryRound(s: AiState, replies: seq<AiReply>)
    requires Triggered(s)
    ensures AskCount(Rounds(s, replies, false)) == |replies|
    decreases |replies|
  {
    if replies != [] {
      var r := EffectRun(s, replies[0]);
      ProcessEffectsAskOnce(s.query, replies[0]);
      AskCountAppend(r.1, Rounds(r.0, replies[1..], false));
      AsWrittenAsksEveryRound(r.0, replies[1..]);
    }
  }

  lemma {:induction false} QuietRoundsAskNothing(s: AiState, replies: seq<AiReply>)
    requires s.query == ""
    ensures Rounds(s, replies, true) == []
    decreases |replies|
  {
    if replies != [] {
      QuietRoundsAskNothing(s, replies[1..]);
    }
  }

  /** With the query consumed, a triggered effect asks the AI exactly once however often it runs again. */
  lemma ConsumingAsksOnce(s: AiState, replies: seq<AiReply>)
    requires Triggered(s) && |replies| > 0
    ensures AskCount(Rounds(s, replies, true)) == 1
  {
    var r := EffectRunConsuming(s, replies[0]);
    ProcessEffectsAskOnce(s.query, replies[0]);
    QuietRoundsAskNothing(r.0, replies[1..]);
    assert Rounds(s, replies, true) == r.1 + [];
    assert r.1 + [] == r.1;
  }
}
