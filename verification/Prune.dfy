/** Compaction of a provider request under a token budget, in place and oldest first. */
module Prune {
  datatype PartKind = TextKind | ReasoningKind | ToolCallKind | ToolResultKind

  datatype Part = Part(kind: PartKind, text: string, callId: string, toolName: string, toolInput: string, toolOutput: string)

  datatype ChatMessage = ChatMessage(role: string, parts: seq<Part>)

  datatype ToolDef = ToolDef(name: string, description: string, schema: string)

  const CharsPerToken := 4
  const MaxSteps := 50
  const PrunedToolOutput := "{\"pruned\":true,\"note\":\"This tool result was dropped to fit the context window. Call the tool again if you still need it.\"}"

  // ---- the size of a request -------------------------------------------------

  function PartChars(p: Part): nat {
    |p.text| + |p.toolName| + |p.toolInput| + |p.toolOutput|
  }

  /** The size of the first n parts, messages or tools. */
  function PartsChars(parts: seq<Part>, n: nat): nat
    requires n <= |parts|
  {
    if n == 0 then 0 else PartsChars(parts, n - 1) + PartChars(parts[n - 1])
  }

  function MessagesChars(msgs: seq<ChatMessage>, n: nat): nat
    requires n <= |msgs|
  {
    if n == 0 then 0 else MessagesChars(msgs, n - 1) + PartsChars(msgs[n - 1].parts, |msgs[n - 1].parts|)
  }

  function ToolsChars(tools: seq<ToolDef>, n: nat): nat
    requires n <= |tools|
  {
    if n == 0 then 0
    else ToolsChars(tools, n - 1) + |tools[n - 1].name| + |tools[n - 1].description| + |tools[n - 1].schema|
  }

  /** Whole tokens, rounded down. */
  function Estimate(system: string, tools: seq<ToolDef>, msgs: seq<ChatMessage>): nat {
    (|system| + ToolsChars(tools, |tools|) + MessagesChars(msgs, |msgs|)) / CharsPerToken
  }

  method EstimateTokens(system: string, tools: seq<ToolDef>, msgs: array<ChatMessage>) returns (tokens: nat)
    ensures tokens == Estimate(system, tools, msgs[..])
  {
    var chars := |system|;
    for i := 0 to |tools|
      invariant chars == |system| + ToolsChars(tools, i)
    {
      chars := chars + |tools[i].name| + |tools[i].description| + |tools[i].schema|;
    }
    for i := 0 to msgs.Length
      invariant chars == |system| + ToolsChars(tools, |tools|) + MessagesChars(msgs[..], i)
    {
      var parts := msgs[i].parts;
      for j := 0 to |parts|
        invariant chars == |system| + ToolsChars(tools, |tools|) + MessagesChars(msgs[..], i) + PartsChars(parts, j)
      {
        chars := chars + |parts[j].text| + |parts[j].toolName| + |parts[j].toolInput| + |parts[j].toolOutput|;
      }
    }
    tokens := chars / CharsPerToken;
  }

  /** Everything a request says, laid end to end. */
  function PartText(p: Part): string {
    p.text + p.toolName + p.toolInput + p.toolOutput
  }

  function PartsText(parts: seq<Part>): string {
    if parts == [] then "" else PartsText(parts[..|parts| - 1]) + PartText(parts[|parts| - 1])
  }

  function MessagesText(msgs: seq<ChatMessage>): string {
    if msgs == [] then "" else MessagesText(msgs[..|msgs| - 1]) + PartsText(msgs[|msgs| - 1].parts)
  }

  function ToolsText(tools: seq<ToolDef>): string {
    if tools == [] then ""
    else
      var t := tools[|tools| - 1];
      ToolsText(tools[..|tools| - 1]) + (t.name + t.description + t.schema)
  }

  lemma {:induction false} PartsLength(parts: seq<Part>, n: nat)
    requires n <= |parts|
    ensures PartsChars(parts, n) == |PartsText(parts[..n])|
  {
    if n > 0 {
      PartsLength(parts, n - 1);
      assert parts[..n][..n - 1] == parts[..n - 1];
    }
  }

  lemma {:induction false} MessagesLength(msgs: seq<ChatMessage>, n: nat)
    requires n <= |msgs|
    ensures MessagesChars(msgs, n) == |MessagesText(msgs[..n])|
  {
    if n > 0 {
      MessagesLength(msgs, n - 1);
      assert msgs[..n][..n - 1] == msgs[..n - 1];
      var parts := msgs[n - 1].parts;
      PartsLength(parts, |parts|);
      assert parts[..|parts|] == parts;
    }
  }

  lemma {:induction false} ToolsLength(tools: seq<ToolDef>, n: nat)
    requires n <= |tools|
    ensures ToolsChars(tools, n) == |ToolsText(tools[..n])|
  {
    if n > 0 {
      ToolsLength(tools, n - 1);
      assert tools[..n][..n - 1] == tools[..n - 1];
    }
  }

  /** The estimate is a quarter of the length of everything the request says, rounded down. */
  lemma EstimateMeasuresAll(system: string, tools: seq<ToolDef>, msgs: seq<ChatMessage>)
    ensures var all := |system + ToolsText(tools) + MessagesText(msgs)|;
            4 * Estimate(system, tools, msgs) <= all < 4 * Estimate(system, tools, msgs) + 4
  {
    ToolsLength(tools, |tools|);
    MessagesLength(msgs, |msgs|);
    assert tools[..|tools|] == tools && msgs[..|msgs|] == msgs;
  }

  // ---- what may be dropped ---------------------------------------------------

  function DropReasoning(p: Part): Part {
    if p.kind.ReasoningKind? then p.(text := "") else p
  }

  function DropOutput(p: Part): Part {
    if p.kind.ToolResultKind? && |p.toolOutput| > |PrunedToolOutput| then p.(toolOutput := PrunedToolOutput) else p
  }

  function Drop(p: Part, reasoning: bool): Part {
    if reasoning then DropReasoning(p) else DropOutput(p)
  }

  function Strip(m: ChatMessage, reasoning: bool): ChatMessage {
    m.(parts := seq(|m.parts|, j requires 0 <= j < |m.parts| => Drop(m.parts[j], reasoning)))
  }

  /** How many messages may be touched: all but the last two. */
  function Open(msgs: seq<ChatMessage>): nat {
    if |msgs| < 2 then 0 else |msgs| - 2
  }

  /**
   The k-th stage of compaction: reasoning dropped from the first k open messages; once it is gone
   from all of them, tool output too, from the first k - n.
   */
  function Stage(msgs: seq<ChatMessage>, k: nat): (r: seq<ChatMessage>)
    requires k <= 2 * Open(msgs)
    ensures |r| == |msgs|
  {
    var n := Open(msgs);
    seq(|msgs|, i requires 0 <= i < |msgs| =>
      if i < k - n then Strip(Strip(msgs[i], true), false)
      else if i < k && i < n then Strip(msgs[i], true)
      else msgs[i])
  }

  /** The k-th stage has emptied the reasoning of message i. */
  predicate LosesReasoning(msgs: seq<ChatMessage>, k: nat, i: nat) {
    i + 2 < |msgs| && i < k
  }

  /** And replaced its long tool output: no output goes before all open reasoning is gone. */
  predicate LosesOutput(msgs: seq<ChatMessage>, k: nat, i: nat) {
    i + 2 < |msgs| && |msgs| - 2 + i < k
  }

  /** One part after the k-th stage: exactly what the stage is for is gone, and everything else is as it was. */
  ghost predicate PartAt(msgs: seq<ChatMessage>, k: nat, i: nat, a: Part, b: Part) {
    && b.kind == a.kind && b.callId == a.callId && b.toolName == a.toolName && b.toolInput == a.toolInput
    && b.text == (if a.kind.ReasoningKind? && LosesReasoning(msgs, k, i) then "" else a.text)
    && b.toolOutput == if a.kind.ToolResultKind? && |a.toolOutput| > |PrunedToolOutput| && LosesOutput(msgs, k, i) then PrunedToolOutput else a.toolOutput
  }

  /**
   What a stage leaves: roles, counts and the last two messages are as they were; reasoning is empty
   in the first k open messages, long tool output replaced in as many as k is past all of them, and
   nothing else differs.
   */
  lemma StageFrame(msgs: seq<ChatMessage>, k: nat)
    requires k <= 2 * Open(msgs)
    ensures forall i :: 0 <= i < |msgs| ==>
              && Stage(msgs, k)[i].role == msgs[i].role
              && |Stage(msgs, k)[i].parts| == |msgs[i].parts|
              && (i >= |msgs| - 2 ==> Stage(msgs, k)[i] == msgs[i])
    ensures forall i, j :: 0 <= i < |msgs| && 0 <= j < |msgs[i].parts| ==> PartAt(msgs, k, i, msgs[i].parts[j], Stage(msgs, k)[i].parts[j])
  {
  }

  /** One more message stripped: the next stage differs from this one in that message alone. */
  lemma StageNext(msgs: seq<ChatMessage>, k: nat)
    requires k < 2 * Open(msgs)
    ensures var n := Open(msgs);
            var i := if k < n then k else k - n;
            Stage(msgs, k + 1) == Stage(msgs, k)[i := Strip(Stage(msgs, k)[i], k < n)]
  {
  }

  // ---- stages shrink ---------------------------------------------------------

  lemma {:induction false} PartsShrink(a: seq<Part>, b: seq<Part>, n: nat)
    requires n <= |a| == |b| && forall j :: 0 <= j < |a| ==> PartChars(b[j]) <= PartChars(a[j])
    ensures PartsChars(b, n) <= PartsChars(a, n)
  {
    if n > 0 { PartsShrink(a, b, n - 1); }
  }

  function Chars(m: ChatMessage): nat {
    PartsChars(m.parts, |m.parts|)
  }

  lemma {:induction false} MessagesShrink(a: seq<ChatMessage>, b: seq<ChatMessage>, n: nat)
    requires n <= |a| == |b| && forall i :: 0 <= i < |a| ==> Chars(b[i]) <= Chars(a[i])
    ensures MessagesChars(b, n) <= MessagesChars(a, n)
  {
    if n > 0 {
      MessagesShrink(a, b, n - 1);
      assert Chars(b[n - 1]) <= Chars(a[n - 1]);
    }
  }

  lemma StripShrinks(m: ChatMessage, reasoning: bool)
    ensures Chars(Strip(m, reasoning)) <= Chars(m)
  {
    PartsShrink(m.parts, Strip(m, reasoning).parts, |m.parts|);
  }

  lemma OneStripped(a: seq<ChatMessage>, i: nat, reasoning: bool)
    requires i < |a|
    ensures MessagesChars(a[i := Strip(a[i], reasoning)], |a|) <= MessagesChars(a, |a|)
  {
    var b := a[i := Strip(a[i], reasoning)];
    StripShrinks(a[i], reasoning);
    forall k | 0 <= k < |a| ensures Chars(b[k]) <= Chars(a[k]) {
      assert b[k] == if k == i then Strip(a[i], reasoning) else a[k];
    }
    MessagesShrink(a, b, |a|);
  }

  lemma StageShrinks(msgs: seq<ChatMessage>, k: nat)
    requires k < 2 * Open(msgs)
    ensures MessagesChars(Stage(msgs, k + 1), |msgs|) <= MessagesChars(Stage(msgs, k), |msgs|)
  {
    StageNext(msgs, k);
    OneStripped(Stage(msgs, k), if k < Open(msgs) then k else k - Open(msgs), k < Open(msgs));
  }

  /** A later stage is never larger, so the last stage is the smallest request compaction can offer. */
  lemma {:induction false} StagesShrink(system: string, tools: seq<ToolDef>, msgs: seq<ChatMessage>, j: nat, k: nat)
    requires j <= k <= 2 * Open(msgs)
    ensures Estimate(system, tools, Stage(msgs, k)) <= Estimate(system, tools, Stage(msgs, j))
    decreases k - j
  {
    if j < k {
      StagesShrink(system, tools, msgs, j + 1, k);
      StageShrinks(msgs, j);
    }
  }

  lemma FirstStage(msgs: seq<ChatMessage>)
    ensures Stage(msgs, 0) == msgs
  {
  }

  // ---- the flag --------------------------------------------------------------

  lemma DropTwice(p: Part)
    ensures DropOutput(DropReasoning(p)) == p ==> DropReasoning(p) == p
  {
  }

  /** Nothing dropped ever comes back: a message changed by the first pass is still changed after the second. */
  lemma StripNeverReverts(m: ChatMessage)
    ensures Strip(Strip(m, true), false) == m ==> Strip(m, true) == m
  {
    var once, twice := Strip(m, true), Strip(Strip(m, true), false);
    if twice == m {
      forall j | 0 <= j < |m.parts| ensures once.parts[j] == m.parts[j] {
        assert twice.parts[j] == m.parts[j];
        DropTwice(m.parts[j]);
      }
      assert once.parts == m.parts;
    }
  }

  lemma StageNeverReverts(msgs: seq<ChatMessage>, k: nat)
    requires k < 2 * Open(msgs)
    ensures Stage(msgs, k + 1) == msgs ==> Stage(msgs, k) == msgs
  {
    if Stage(msgs, k + 1) == msgs {
      forall i | 0 <= i < |msgs| ensures Stage(msgs, k)[i] == msgs[i] {
        assert Stage(msgs, k + 1)[i] == msgs[i];
        StripNeverReverts(msgs[i]);
      }
    }
  }

  // ---- the algorithm ---------------------------------------------------------

  /** A message with its j-th part stripped. */
  function WithDropped(m: ChatMessage, j: nat, reasoning: bool): ChatMessage
    requires j < |m.parts|
  {
    m.(parts := m.parts[j := Drop(m.parts[j], reasoning)])
  }

  /** One part of a message stripped in place. */
  method StripPart(msgs: array<ChatMessage>, i: nat, j: nat, reasoning: bool) returns (changed: bool)
    requires i < msgs.Length && j < |msgs[i].parts|
    modifies msgs
    ensures msgs[i] == WithDropped(old(msgs[i]), j, reasoning)
    ensures forall h :: 0 <= h < msgs.Length && h != i ==> msgs[h] == old(msgs[h])
    ensures changed <==> Drop(old(msgs[i]).parts[j], reasoning) != old(msgs[i]).parts[j]
  {
    var p := msgs[i].parts[j];
    changed := true;
    if reasoning && p.kind.ReasoningKind? && p.text != "" {
      msgs[i] := msgs[i].(parts := msgs[i].parts[j := p.(text := "")]);
    } else if !reasoning && p.kind.ToolResultKind? && |p.toolOutput| > |PrunedToolOutput| {
      LongerDiffers(p.toolOutput);
      msgs[i] := msgs[i].(parts := msgs[i].parts[j := p.(toolOutput := PrunedToolOutput)]);
    } else {
      changed := false;
      assert msgs[i].parts == msgs[i].parts[j := p];
    }
  }

  /** The first j parts of a message stripped. */
  ghost function Partly(m: ChatMessage, j: nat, reasoning: bool): ChatMessage
    requires j <= |m.parts|
  {
    m.(parts := Strip(m, reasoning).parts[..j] + m.parts[j..])
  }

  lemma PartlyNext(m: ChatMessage, j: nat, reasoning: bool)
    requires j < |m.parts|
    ensures var p := Partly(m, j, reasoning);
            && |p.parts| == |m.parts| && p.parts[j] == m.parts[j]
            && Partly(m, j + 1, reasoning) == WithDropped(p, j, reasoning)
  {
  }

  lemma PartlyEnds(m: ChatMessage, reasoning: bool)
    ensures Partly(m, 0, reasoning) == m && Partly(m, |m.parts|, reasoning) == Strip(m, reasoning)
    ensures forall j :: 0 <= j <= |m.parts| ==> |Partly(m, j, reasoning).parts| == |m.parts|
  {
  }

  /** Nothing is changed so far exactly when no part has been. */
  lemma PartlyChanged(m: ChatMessage, j: nat, reasoning: bool)
    requires j < |m.parts|
    ensures Partly(m, j + 1, reasoning) != m <==> Partly(m, j, reasoning) != m || Drop(m.parts[j], reasoning) != m.parts[j]
  {
    PartlyNext(m, j, reasoning);
    var before, after := Partly(m, j, reasoning), Partly(m, j + 1, reasoning);
    if after == m {
      assert after.parts[j] == m.parts[j];
      assert before.parts == m.parts;
    }
  }

  /** One message stripped in place, part by part. */
  method StripAt(msgs: array<ChatMessage>, i: nat, reasoning: bool) returns (changed: bool)
    requires i < msgs.Length
    modifies msgs
    ensures msgs[..] == old(msgs[..])[i := Strip(old(msgs[i]), reasoning)]
    ensures changed <==> Strip(old(msgs[i]), reasoning) != old(msgs[i])
  {
    changed := false;
    ghost var m := msgs[i];
    PartlyEnds(m, reasoning);
    var n := |msgs[i].parts|;
    for j := 0 to n
      invariant msgs[i] == Partly(m, j, reasoning)
      invariant forall h :: 0 <= h < msgs.Length && h != i ==> msgs[h] == old(msgs[h])
      invariant changed <==> Partly(m, j, reasoning) != m
    {
      PartlyNext(m, j, reasoning);
      PartlyChanged(m, j, reasoning);
      var dropped := StripPart(msgs, i, j, reasoning);
      changed := changed || dropped;
    }
    OneReplaced(old(msgs[..]), msgs[..], i, Strip(m, reasoning));
  }

  lemma OneReplaced(before: seq<ChatMessage>, after: seq<ChatMessage>, i: nat, m: ChatMessage)
    requires |after| == |before| && i < |before| && after[i] == m
    requires forall h :: 0 <= h < |before| && h != i ==> after[h] == before[h]
    ensures after == before[i := m]
  {
  }

  lemma LongerDiffers(s: string)
    ensures |s| > |PrunedToolOutput| ==> s != PrunedToolOutput
  {
  }

  datatype Verdict = Fits | ContextExhausted

  ghost predicate FitsAt(system: string, tools: seq<ToolDef>, msgs: seq<ChatMessage>, budget: int, k: nat)
    requires k <= 2 * Open(msgs)
  {
    Estimate(system, tools, Stage(msgs, k)) <= budget
  }

  /** No stage before the k-th fits. */
  ghost predicate NoneFits(system: string, tools: seq<ToolDef>, msgs: seq<ChatMessage>, budget: int, k: nat)
    requires k <= 2 * Open(msgs) + 1
  {
    forall j :: 0 <= j < k ==> !FitsAt(system, tools, msgs, budget, j)
  }

  /** What compaction leaves for a positive window. */
  ghost predicate Compacted(system: string, tools: seq<ToolDef>, before: seq<ChatMessage>, after: seq<ChatMessage>, budget: int, verdict: Verdict) {
    var last := 2 * Open(before);
    if FitsAt(system, tools, before, budget, last) then
      verdict == Fits && exists k :: 0 <= k <= last && after == Stage(before, k)
                                     && FitsAt(system, tools, before, budget, k) && NoneFits(system, tools, before, budget, k)
    else verdict == ContextExhausted && after == Stage(before, last)
  }

  lemma CompactedAt(system: string, tools: seq<ToolDef>, before: seq<ChatMessage>, after: seq<ChatMessage>, budget: int, k: nat)
    requires k <= 2 * Open(before) && after == Stage(before, k)
    requires FitsAt(system, tools, before, budget, k) && NoneFits(system, tools, before, budget, k)
    ensures Compacted(system, tools, before, after, budget, Fits)
  {
    StagesShrink(system, tools, before, k, 2 * Open(before));
  }

  /** The next message of a pass, stripped in place. */
  method StripNext(msgs: array<ChatMessage>, i: nat, reasoning: bool, pruned: bool, ghost before: seq<ChatMessage>, ghost k: nat) returns (pruned': bool)
    requires k < 2 * Open(before) && msgs[..] == Stage(before, k) && (pruned <==> msgs[..] != before)
    requires reasoning == (k < Open(before)) && i == if reasoning then k else k - Open(before)
    modifies msgs
    ensures msgs[..] == Stage(before, k + 1) && (pruned' <==> msgs[..] != before)
  {
    StageNext(before, k);
    StageNeverReverts(before, k);
    assert msgs[i] == Stage(before, k)[i];
    var changed := StripAt(msgs, i, reasoning);
    pruned' := pruned || changed;
  }

  /** Compaction has come to the k-th stage, and no stage before it fits. */
  ghost predicate Stands(system: string, tools: seq<ToolDef>, before: seq<ChatMessage>, now: seq<ChatMessage>, budget: int, k: nat, pruned: bool) {
    && k <= 2 * Open(before) && now == Stage(before, k) && (pruned <==> now != before)
    && NoneFits(system, tools, before, budget, k)
  }

  /** One more message stripped, and the request measured again. */
  method StripAndMeasure(system: string, tools: seq<ToolDef>, msgs: array<ChatMessage>, i: nat, reasoning: bool, pruned: bool, budget: int, ghost before: seq<ChatMessage>, ghost k: nat)
    returns (pruned': bool, fits: bool)
    requires Stands(system, tools, before, msgs[..], budget, k, pruned) && k < 2 * Open(before) && !FitsAt(system, tools, before, budget, k)
    requires reasoning == (k < Open(before)) && i == if reasoning then k else k - Open(before)
    modifies msgs
    ensures Stands(system, tools, before, msgs[..], budget, k + 1, pruned')
    ensures fits <==> FitsAt(system, tools, before, budget, k + 1)
  {
    pruned' := StripNext(msgs, i, reasoning, pruned, before, k);
    var tokens := EstimateTokens(system, tools, msgs);
    fits := tokens <= budget;
  }

  /** One pass over the open messages, reasoning or tool output, until the request fits. */
  method Pass(system: string, tools: seq<ToolDef>, msgs: array<ChatMessage>, reasoning: bool, pruned: bool, budget: int, ghost before: seq<ChatMessage>, ghost k: nat)
    returns (pruned': bool, fits: bool, ghost k': nat)
    requires Stands(system, tools, before, msgs[..], budget, k, pruned) && !FitsAt(system, tools, before, budget, k)
    requires k == if reasoning then 0 else Open(before)
    modifies msgs
    ensures Stands(system, tools, before, msgs[..], budget, k', pruned')
    ensures fits <==> FitsAt(system, tools, before, budget, k')
    ensures !fits ==> k' == k + Open(before)
  {
    pruned', fits, k' := pruned, false, k;
    var protected := msgs.Length - 2;
    var i := 0;
    while i < protected
      invariant 0 <= i <= Open(before) && k' == k + i
      invariant Stands(system, tools, before, msgs[..], budget, k', pruned')
      invariant !FitsAt(system, tools, before, budget, k')
    {
      pruned', fits := StripAndMeasure(system, tools, msgs, i, reasoning, pruned', budget, before, k');
      k' := k' + 1;
      if fits { return; }
      i := i + 1;
    }
    fits := false;
  }

  /** `Prune`. `budget` is the share of the window a request may fill. */
  method Prune(system: string, tools: seq<ToolDef>, msgs: array<ChatMessage>, window: int, budget: int) returns (pruned: bool, verdict: Verdict)
    modifies msgs
    ensures pruned <==> msgs[..] != old(msgs[..])
    ensures window <= 0 ==> verdict == Fits && !pruned
    ensures window > 0 ==> Compacted(system, tools, old(msgs[..]), msgs[..], budget, verdict)
    ensures window > 0 && verdict == Fits ==> Estimate(system, tools, msgs[..]) <= budget
  {
    if window <= 0 { return false, Fits; }
    ghost var before := msgs[..];
    FirstStage(before);
    var tokens := EstimateTokens(system, tools, msgs);
    if tokens <= budget {
      CompactedAt(system, tools, before, msgs[..], budget, 0);
      return false, Fits;
    }
    var fits: bool;
    ghost var k: nat;
    pruned, fits, k := Pass(system, tools, msgs, true, false, budget, before, 0);
    if !fits {
      pruned, fits, k := Pass(system, tools, msgs, false, pruned, budget, before, k);
    }
    if fits {
      CompactedAt(system, tools, before, msgs[..], budget, k);
      return pruned, Fits;
    }
    tokens := EstimateTokens(system, tools, msgs);
    verdict := if tokens > budget then ContextExhausted else Fits;
  }

  // ---- the run loop ----------------------------------------------------------

  /** One model turn that requested tools: what the loop appends before it asks again. */
  datatype Reply = Reply(assistant: ChatMessage, results: ChatMessage)

  datatype Outcome = Answered | Exhausted | StepLimit

  /** One request: the transcript as it stood, and what was sent after compaction. */
  datatype Exchange = Exchange(history: seq<ChatMessage>, request: seq<ChatMessage>)

  /** What was sent is a stage of its history, and fits the budget. */
  ghost predicate Sendable(system: string, tools: seq<ToolDef>, x: Exchange, window: int, budget: int) {
    if window <= 0 then x.request == x.history
    else Estimate(system, tools, x.request) <= budget && Compacted(system, tools, x.history, x.request, budget, Fits)
  }

  ghost predicate AllSendable(system: string, tools: seq<ToolDef>, xs: seq<Exchange>, window: int, budget: int) {
    forall x :: x in xs ==> Sendable(system, tools, x, window, budget)
  }

  /** Some request was compacted before it was sent. */
  ghost predicate Noticed(xs: seq<Exchange>) {
    exists x :: x in xs && x.request != x.history
  }

  /** The transcript the next request starts from. */
  function NextHistory(transcript: seq<ChatMessage>, replies: seq<Reply>, xs: seq<Exchange>): seq<ChatMessage>
    requires |xs| <= |replies|
  {
    if xs == [] then transcript
    else
      var r := replies[|xs| - 1];
      xs[|xs| - 1].request + [r.assistant, r.results]
  }

  /** Each exchange starts where the one before and its reply left off. */
  ghost predicate Chained(transcript: seq<ChatMessage>, replies: seq<Reply>, xs: seq<Exchange>) {
    |xs| <= |replies| + 1 && forall k :: 0 <= k < |xs| ==> xs[k].history == NextHistory(transcript, replies, xs[..k])
  }

  lemma Sent(system: string, tools: seq<ToolDef>, xs: seq<Exchange>, x: Exchange, window: int, budget: int)
    requires AllSendable(system, tools, xs, window, budget) && Sendable(system, tools, x, window, budget)
    ensures AllSendable(system, tools, xs + [x], window, budget)
  {
  }

  lemma NoticedAfter(xs: seq<Exchange>, x: Exchange)
    ensures Noticed(xs + [x]) <==> Noticed(xs) || x.request != x.history
  {
    var all := xs + [x];
    assert x in all && forall y :: y in xs ==> y in all;
  }

  lemma ChainedAfter(transcript: seq<ChatMessage>, replies: seq<Reply>, xs: seq<Exchange>, x: Exchange)
    requires Chained(transcript, replies, xs) && |xs| <= |replies| && x.history == NextHistory(transcript, replies, xs)
    ensures Chained(transcript, replies, xs + [x])
  {
    var all := xs + [x];
    forall k | 0 <= k < |all| ensures all[k].history == NextHistory(transcript, replies, all[..k]) {
      assert all[..k] == xs[..k];
      if k == |xs| { assert xs[..k] == xs; }
    }
  }

  ghost predicate CannotFit(system: string, tools: seq<ToolDef>, history: seq<ChatMessage>, budget: int) {
    !FitsAt(system, tools, history, budget, 2 * Open(history))
  }

  /** The loop of `Execute`: the model asks for tools once per reply, then answers. */
  method ExecuteLoop(system: string, tools: seq<ToolDef>, transcript: seq<ChatMessage>, replies: seq<Reply>, window: int, budget: int)
    returns (xs: seq<Exchange>, notices: nat, outcome: Outcome)
    ensures |xs| <= 50 && notices <= 1 && Chained(transcript, replies, xs)
    ensures AllSendable(system, tools, xs, window, budget)
    ensures notices == 1 <==> Noticed(xs)
    ensures outcome == Answered <==> |xs| == |replies| + 1
    ensures outcome == StepLimit <==> |xs| == 50 && |replies| >= 50
    ensures outcome == Exhausted ==> |xs| <= |replies| && window > 0 && CannotFit(system, tools, NextHistory(transcript, replies, xs), budget)
  {
    xs, notices := [], 0;
    for step := 0 to MaxSteps
      invariant |xs| == step <= |replies| && notices <= 1 && Chained(transcript, replies, xs)
      invariant AllSendable(system, tools, xs, window, budget)
      invariant notices == 1 <==> Noticed(xs)
    {
      var messages := NextHistory(transcript, replies, xs);
      var request, compacted, verdict := PruneCopy(system, tools, messages, window, budget);
      if verdict == ContextExhausted { return xs, notices, Exhausted; }
      var x := Exchange(messages, request);
      Sent(system, tools, xs, x, window, budget);
      NoticedAfter(xs, x);
      ChainedAfter(transcript, replies, xs, x);
      if compacted && notices == 0 { notices := 1; }
      xs := xs + [x];
      if step == |replies| { return xs, notices, Answered; }
    }
    outcome := StepLimit;
  }

  method PruneCopy(system: string, tools: seq<ToolDef>, messages: seq<ChatMessage>, window: int, budget: int)
    returns (request: seq<ChatMessage>, compacted: bool, verdict: Verdict)
    ensures compacted <==> request != messages
    ensures verdict == Fits ==> Sendable(system, tools, Exchange(messages, request), window, budget)
    ensures verdict == ContextExhausted ==> window > 0 && CannotFit(system, tools, messages, budget)
  {
    var msgs := new ChatMessage[|messages|](i requires 0 <= i < |messages| => messages[i]);
    assert msgs[..] == messages;
    compacted, verdict := Prune(system, tools, msgs, window, budget);
    request := msgs[..];
  }
}
