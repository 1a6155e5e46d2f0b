/** One model turn's stream: what is published as a preview and what is persisted as message parts. */
module Transcript {
  import opened Wrappers
  import opened Publisher

  datatype ProviderEvent =
    | Text(text: string)
    | Reasoning(text: string)
    | CallStart(id: string, name: string)
    | CallInput(id: string, text: string)
    | CallEnd(id: string, name: string, input: string)
    | Usage(stop: string)
    | Ignored

  datatype Part = TextPart(text: string) | ReasoningPart(text: string) | CallPart(id: string, name: string, input: Option<string>)

  datatype Call = Call(id: string, name: string, part: nat, input: Option<string>)

  // ---- the wire --------------------------------------------------------------

  /** What one provider event puts on the wire. */
  function Wire(e: ProviderEvent): seq<Event> {
    match e
    case Text(t) => [Event(TextDelta, "", t, "")]
    case Reasoning(t) => [Event(ReasoningDelta, "", t, "")]
    case CallStart(id, name) => [Event(Structural("tool-input-start"), id, "", name)]
    case CallInput(id, t) => [Event(ToolInputDelta, id, t, "")]
    case _ => []
  }

  function WireAll(events: seq<ProviderEvent>): seq<Event> {
    if events == [] then [] else WireAll(events[..|events| - 1]) + Wire(events[|events| - 1])
  }

  /** The arguments the stream gave for a call, fragment by fragment. */
  function InputOf(events: seq<ProviderEvent>, id: string): string {
    if events == [] then ""
    else
      var e := events[|events| - 1];
      InputOf(events[..|events| - 1], id) + if e.CallInput? && e.id == id then e.text else ""
  }

  /** The calls it announced, by id and name. */
  function StartsOf(events: seq<ProviderEvent>): seq<Event> {
    if events == [] then []
    else
      var e := events[|events| - 1];
      StartsOf(events[..|events| - 1]) + if e.CallStart? then [Event(Structural("tool-input-start"), e.id, "", e.name)] else []
  }

  lemma ShownConcatOne(wire: seq<Event>, more: seq<Event>, kind: Kind, id: string)
    requires |more| <= 1
    ensures Shown(wire + more, kind, id) == Shown(wire, kind, id) + if more == [] then "" else ShownBy(more[0], kind, id)
    ensures StructuralOf(wire + more) == StructuralOf(wire) + if more == [] || IsDelta(more[0].kind) then [] else more
  {
    if more == [] {
      assert wire + more == wire;
    } else {
      assert more == [more[0]];
      ShownAppend(wire, more[0], kind, id);
    }
  }

  lemma WireOne(e: ProviderEvent, id: string)
    ensures var w := Wire(e);
            && |w| <= 1
            && (if w == [] then "" else ShownBy(w[0], ToolInputDelta, id)) == (if e.CallInput? && e.id == id then e.text else "")
            && (if w == [] || IsDelta(w[0].kind) then [] else w) == if e.CallStart? then [Event(Structural("tool-input-start"), e.id, "", e.name)] else []
  {
  }

  /** The wire shows every call's arguments in full, and announces exactly the calls that start, with their names. */
  lemma {:induction false} WireShowsCalls(events: seq<ProviderEvent>, id: string)
    ensures Shown(WireAll(events), ToolInputDelta, id) == InputOf(events, id)
    ensures StructuralOf(WireAll(events)) == StartsOf(events)
  {
    if events != [] {
      var front, e := events[..|events| - 1], events[|events| - 1];
      WireShowsCalls(front, id);
      WireOne(e, id);
      ShownConcatOne(WireAll(front), Wire(e), ToolInputDelta, id);
    }
  }

  // ---- one account of both ---------------------------------------------------

  /** A reader's account of a turn, character by character: what was said, thought and called, in order. */
  datatype Glyph = Said(c: char) | Thought(c: char) | Called(id: string)

  function Spell(text: string, thought: bool): seq<Glyph> {
    seq(|text|, i requires 0 <= i < |text| => if thought then Thought(text[i]) else Said(text[i]))
  }

  function EventGlyphs(e: Event): seq<Glyph> {
    match e.kind
    case TextDelta => Spell(e.text, false)
    case ReasoningDelta => Spell(e.text, true)
    case ToolInputDelta => []
    case Structural(name) => if name == "tool-input-start" then [Called(e.callId)] else []
  }

  /** The account a client of the wire can give. */
  function Preview(wire: seq<Event>): seq<Glyph> {
    if wire == [] then [] else Preview(wire[..|wire| - 1]) + EventGlyphs(wire[|wire| - 1])
  }

  function PartGlyphs(p: Part): seq<Glyph> {
    match p
    case TextPart(t) => Spell(t, false)
    case ReasoningPart(t) => Spell(t, true)
    case CallPart(id, _, _) => [Called(id)]
  }

  /** The account a reader of the persisted parts can give. */
  function Account(parts: seq<Part>): seq<Glyph> {
    if parts == [] then [] else Account(parts[..|parts| - 1]) + PartGlyphs(parts[|parts| - 1])
  }

  /** The account without its calls. */
  function Speech(g: seq<Glyph>): seq<Glyph> {
    if g == [] then [] else Speech(g[..|g| - 1]) + (if g[|g| - 1].Called? then [] else [g[|g| - 1]])
  }

  function Calls(g: seq<Glyph>): seq<string> {
    if g == [] then [] else Calls(g[..|g| - 1]) + (if g[|g| - 1].Called? then [g[|g| - 1].id] else [])
  }

  lemma {:induction false} SpeechConcat(a: seq<Glyph>, b: seq<Glyph>)
    ensures Speech(a + b) == Speech(a) + Speech(b) && Calls(a + b) == Calls(a) + Calls(b)
    decreases |b|
  {
    if b == [] {
      assert a + b == a;
    } else {
      SpeechConcat(a, b[..|b| - 1]);
      assert (a + b)[..|a + b| - 1] == a + b[..|b| - 1];
    }
  }

  lemma PreviewAppend(wire: seq<Event>, e: Event)
    ensures Preview(wire + [e]) == Preview(wire) + EventGlyphs(e)
  {
    assert (wire + [e])[..|wire|] == wire;
  }

  lemma AccountAppend(parts: seq<Part>, p: Part)
    ensures Account(parts + [p]) == Account(parts) + PartGlyphs(p)
  {
    assert (parts + [p])[..|parts|] == parts;
  }

  lemma SpellConcat(a: string, b: string, thought: bool)
    ensures Spell(a + b, thought) == Spell(a, thought) + Spell(b, thought)
  {
  }

  lemma FuseGlyphs(a: Event, b: Event)
    requires Fuses(a, b)
    ensures EventGlyphs(Fuse(a, b)) == EventGlyphs(a) + EventGlyphs(b)
  {
    SpellConcat(a.text, b.text, false);
    SpellConcat(a.text, b.text, true);
  }

  lemma JoinPreview(n: seq<Event>, e: Event)
    ensures Preview(Join(n, e)) == Preview(n) + EventGlyphs(e)
  {
    if n != [] && Fuses(n[|n| - 1], e) {
      FuseGlyphs(n[|n| - 1], e);
      PreviewAppend(n[..|n| - 1], Fuse(n[|n| - 1], e));
    } else {
      PreviewAppend(n, e);
    }
  }

  /** Coalescing does not change what a client can tell. */
  lemma {:induction false} NormPreview(wire: seq<Event>)
    ensures Preview(Norm(wire)) == Preview(wire)
  {
    if wire != [] {
      NormPreview(wire[..|wire| - 1]);
      NormLast(wire);
      JoinPreview(Norm(wire[..|wire| - 1]), wire[|wire| - 1]);
    }
  }

  // ---- the parts -------------------------------------------------------------

  predicate SameKind(p: Part, thought: bool) {
    if thought then p.ReasoningPart? else p.TextPart?
  }

  function Extend(p: Part, delta: string): Part {
    match p
    case TextPart(t) => TextPart(t + delta)
    case ReasoningPart(t) => ReasoningPart(t + delta)
    case CallPart(_, _, _) => p
  }

  /** `appendTextPart`. */
  function AppendText(parts: seq<Part>, thought: bool, delta: string): seq<Part> {
    if delta == "" then parts
    else if parts != [] && SameKind(parts[|parts| - 1], thought) then
      parts[|parts| - 1 := Extend(parts[|parts| - 1], delta)]
    else parts + [if thought then ReasoningPart(delta) else TextPart(delta)]
  }

  /** No text part is empty, and none follows another of its kind. */
  ghost predicate Tidy(parts: seq<Part>) {
    && (forall k :: 0 <= k < |parts| && !parts[k].CallPart? ==> parts[k].text != "")
    && (forall k {:trigger parts[k]} :: 0 <= k < |parts| - 1 && parts[k].TextPart? ==> !parts[k + 1].TextPart?)
    && (forall k {:trigger parts[k]} :: 0 <= k < |parts| - 1 && parts[k].ReasoningPart? ==> !parts[k + 1].ReasoningPart?)
  }

  lemma AppendTextTidy(parts: seq<Part>, thought: bool, delta: string)
    requires Tidy(parts)
    ensures Tidy(AppendText(parts, thought, delta))
  {
  }

  lemma AppendTextAccount(parts: seq<Part>, thought: bool, delta: string)
    ensures Account(AppendText(parts, thought, delta)) == Account(parts) + Spell(delta, thought)
  {
    if delta != "" {
      if parts != [] && SameKind(parts[|parts| - 1], thought) {
        var front, last := parts[..|parts| - 1], parts[|parts| - 1];
        assert AppendText(parts, thought, delta) == front + [Extend(last, delta)];
        AccountAppend(front, Extend(last, delta));
        SpellConcat(last.text, delta, thought);
      } else {
        AccountAppend(parts, if thought then ReasoningPart(delta) else TextPart(delta));
      }
    }
  }

  /** Filling in a call's input changes neither the account nor the tidiness. */
  lemma {:induction false} InputKeeps(parts: seq<Part>, k: nat, input: string)
    requires k < |parts| && parts[k].CallPart?
    ensures var after := parts[k := parts[k].(input := Some(input))];
            Account(after) == Account(parts) && (Tidy(parts) ==> Tidy(after))
  {
    var after := parts[k := parts[k].(input := Some(input))];
    var n := |parts| - 1;
    if k == n {
      assert after[..n] == parts[..n];
    } else {
      InputKeeps(parts[..n], k, input);
      assert after[..n] == parts[..n][k := parts[k].(input := Some(input))];
    }
  }

  // ---- the calls -------------------------------------------------------------

  datatype Offer = Offer(name: string, input: Option<string>)

  /** What the stream has said last about a call id: a start forgets the input, an end gives it. */
  function Latest(events: seq<ProviderEvent>, id: string): Option<Offer> {
    if events == [] then None
    else
      var before := Latest(events[..|events| - 1], id);
      match events[|events| - 1]
      case CallStart(i, n) => if i == id then Some(Offer(n, None)) else before
      case CallEnd(i, n, input) =>
        if i != id then before
        else Some(Offer(if before.Some? then before.value.name else n, Some(input)))
      case _ => before
  }

  /** Every call that ends was started before. */
  ghost predicate Announced(events: seq<ProviderEvent>) {
    forall k :: 0 <= k < |events| && events[k].CallEnd? ==> Started(events[..k], events[k].id)
  }

  ghost predicate Started(events: seq<ProviderEvent>, id: string) {
    exists j :: 0 <= j < |events| && events[j].CallStart? && events[j].id == id
  }

  ghost predicate CallOk(events: seq<ProviderEvent>, parts: seq<Part>, calls: map<string, Call>, id: string) {
    && (id in calls <==> Latest(events, id).Some?)
    && (id in calls ==>
         var c := calls[id];
         && c.id == id && c.part < |parts| && parts[c.part] == CallPart(id, c.name, c.input)
         && Latest(events, id) == Some(Offer(c.name, c.input)))
  }

  /** The calls so far agree with the stream and with their parts. */
  ghost predicate CallsOk(events: seq<ProviderEvent>, parts: seq<Part>, calls: map<string, Call>, order: seq<string>) {
    && (forall id {:trigger CallOk(events, parts, calls, id)} :: CallOk(events, parts, calls, id))
    && (forall k :: 0 <= k < |order| ==> order[k] in calls)
    && Calls(Account(parts)) == order
  }

  lemma LatestAppend(events: seq<ProviderEvent>, e: ProviderEvent, id: string)
    ensures Latest(events + [e], id) ==
            (match e
             case CallStart(i, n) => if i == id then Some(Offer(n, None)) else Latest(events, id)
             case CallEnd(i, n, input) =>
               if i != id then Latest(events, id)
               else Some(Offer(if Latest(events, id).Some? then Latest(events, id).value.name else n, Some(input)))
             case _ => Latest(events, id))
  {
    assert (events + [e])[..|events|] == events;
  }

  lemma {:induction false} SpellCalls(text: string, thought: bool)
    ensures Calls(Spell(text, thought)) == []
  {
    if text != "" {
      var n := |text| - 1;
      assert Spell(text, thought)[..n] == Spell(text[..n], thought);
      SpellCalls(text[..n], thought);
    }
  }

  lemma TextFrame(parts: seq<Part>, thought: bool, delta: string)
    ensures var after := AppendText(parts, thought, delta);
            |parts| <= |after| && forall k :: 0 <= k < |parts| && parts[k].CallPart? ==> after[k] == parts[k]
  {
  }

  lemma TextCallIds(parts: seq<Part>, thought: bool, delta: string)
    ensures Calls(Account(AppendText(parts, thought, delta))) == Calls(Account(parts))
  {
    AppendTextAccount(parts, thought, delta);
    SpeechConcat(Account(parts), Spell(delta, thought));
    SpellCalls(delta, thought);
  }

  /** Text never touches a call. */
  lemma TextCalls(events: seq<ProviderEvent>, e: ProviderEvent, parts: seq<Part>, after: seq<Part>, calls: map<string, Call>, order: seq<string>)
    requires CallsOk(events, parts, calls, order) && !e.CallStart? && !e.CallEnd?
    requires |parts| <= |after| && forall k :: 0 <= k < |parts| && parts[k].CallPart? ==> after[k] == parts[k]
    requires Calls(Account(after)) == Calls(Account(parts))
    ensures CallsOk(events + [e], after, calls, order)
  {
    forall id ensures CallOk(events + [e], after, calls, id) {
      assert CallOk(events, parts, calls, id);
      LatestAppend(events, e, id);
    }
  }

  /** A part appended for a call that starts, or that ends without having started. */
  lemma OpenCalls(events: seq<ProviderEvent>, e: ProviderEvent, parts: seq<Part>, calls: map<string, Call>, order: seq<string>, input: Option<string>)
    requires CallsOk(events, parts, calls, order)
    requires e.CallStart? || (e.CallEnd? && e.id !in calls)
    requires input == if e.CallStart? then None else Some(e.input)
    ensures CallsOk(events + [e], parts + [CallPart(e.id, e.name, input)], calls[e.id := Call(e.id, e.name, |parts|, input)], order + [e.id])
  {
    var after := parts + [CallPart(e.id, e.name, input)];
    var calls' := calls[e.id := Call(e.id, e.name, |parts|, input)];
    forall id ensures CallOk(events + [e], after, calls', id) {
      assert CallOk(events, parts, calls, id);
      LatestAppend(events, e, id);
    }
    CallAppended(parts, e.id, e.name, input);
  }

  lemma CallAppended(parts: seq<Part>, id: string, name: string, input: Option<string>)
    ensures Calls(Account(parts + [CallPart(id, name, input)])) == Calls(Account(parts)) + [id]
  {
    AccountAppend(parts, CallPart(id, name, input));
    SpeechConcat(Account(parts), [Called(id)]);
    OneCall(id);
  }

  /** A known call receives its input. */
  lemma EndCalls(events: seq<ProviderEvent>, e: ProviderEvent, parts: seq<Part>, calls: map<string, Call>, order: seq<string>)
    requires CallsOk(events, parts, calls, order) && e.CallEnd? && e.id in calls
    ensures calls[e.id].part < |parts| && parts[calls[e.id].part].CallPart?
    ensures var c := calls[e.id];
            CallsOk(events + [e], parts[c.part := parts[c.part].(input := Some(e.input))], calls[e.id := c.(input := Some(e.input))], order)
  {
    assert CallOk(events, parts, calls, e.id);
    var c := calls[e.id];
    var after := parts[c.part := parts[c.part].(input := Some(e.input))];
    var calls' := calls[e.id := c.(input := Some(e.input))];
    forall id ensures CallOk(events + [e], after, calls', id) {
      assert CallOk(events, parts, calls, id);
      LatestAppend(events, e, id);
    }
    InputKeeps(parts, c.part, e.input);
  }

  // ---- preview and transcript agree ------------------------------------------

  /** The two accounts agree but for `extra` calls the preview was not told about. */
  ghost predicate Agree(events: seq<ProviderEvent>, parts: seq<Part>, extra: nat) {
    var told, kept := Preview(WireAll(events)), Account(parts);
    && Speech(kept) == Speech(told)
    && |Calls(kept)| == |Calls(told)| + extra
    && (extra == 0 ==> kept == told)
    && (extra == 0 <==> Announced(events))
  }

  lemma PreviewOne(e: Event)
    ensures Preview([e]) == EventGlyphs(e)
  {
    PreviewAppend([], e);
    assert [] + [e] == [e];
  }

  lemma WireAllAppend(events: seq<ProviderEvent>, e: ProviderEvent)
    ensures WireAll(events + [e]) == WireAll(events) + Wire(e)
  {
    assert (events + [e])[..|events|] == events;
  }

  lemma PreviewConcatOne(wire: seq<Event>, more: seq<Event>)
    requires |more| <= 1
    ensures Preview(wire + more) == Preview(wire) + Preview(more)
  {
    if more == [] {
      assert wire + more == wire;
    } else {
      assert more == [more[0]];
      PreviewAppend(wire, more[0]);
      PreviewOne(more[0]);
    }
  }

  lemma WireAppend(events: seq<ProviderEvent>, e: ProviderEvent)
    ensures WireAll(events + [e]) == WireAll(events) + Wire(e)
    ensures Preview(WireAll(events + [e])) == Preview(WireAll(events)) + Preview(Wire(e))
  {
    WireAllAppend(events, e);
    PreviewConcatOne(WireAll(events), Wire(e));
  }

  lemma AnnouncedAppend(events: seq<ProviderEvent>, e: ProviderEvent)
    ensures Announced(events + [e]) <==> Announced(events) && (e.CallEnd? ==> Started(events, e.id))
  {
    var all := events + [e];
    assert all[..|events|] == events;
    assert forall k :: 0 <= k < |events| ==> all[..k] == events[..k] && all[k] == events[k];
    if Announced(all) && e.CallEnd? { assert all[|events|] == e; }
  }

  /** Both accounts grow alike. */
  lemma AgreeAlike(events: seq<ProviderEvent>, e: ProviderEvent, parts: seq<Part>, after: seq<Part>, extra: nat)
    requires Agree(events, parts, extra)
    requires Account(after) == Account(parts) + Preview(Wire(e))
    requires Announced(events + [e]) <==> Announced(events)
    ensures Agree(events + [e], after, extra)
  {
    WireAppend(events, e);
    SpeechConcat(Account(parts), Preview(Wire(e)));
    SpeechConcat(Preview(WireAll(events)), Preview(Wire(e)));
  }

  /** A call that ends without having started is kept but never previewed. */
  lemma AgreeSilent(events: seq<ProviderEvent>, e: ProviderEvent, parts: seq<Part>, after: seq<Part>, extra: nat)
    requires Agree(events, parts, extra) && e.CallEnd? && !Started(events, e.id)
    requires Account(after) == Account(parts) + [Called(e.id)]
    ensures Agree(events + [e], after, extra + 1)
  {
    WireAppend(events, e);
    WirePreview(e);
    AnnouncedAppend(events, e);
    SpeechConcat(Account(parts), [Called(e.id)]);
    OneCall(e.id);
    assert Preview(WireAll(events)) + [] == Preview(WireAll(events));
  }

  lemma OneCall(id: string)
    ensures Speech([Called(id)]) == [] && Calls([Called(id)]) == [id]
  {
  }

  lemma WirePreview(e: ProviderEvent)
    ensures Preview(Wire(e)) ==
            if e.Text? || e.Reasoning? then Spell(e.text, e.Reasoning?) else if e.CallStart? then [Called(e.id)] else []
  {
    if Wire(e) != [] { assert Wire(e)[..0] == []; }
  }

  /** The stream has said something about a call only if the call started, or an end went unannounced. */
  lemma {:induction false} LatestStarted(events: seq<ProviderEvent>, id: string)
    ensures Started(events, id) ==> Latest(events, id).Some?
    ensures Latest(events, id).Some? && Announced(events) ==> Started(events, id)
  {
    if events != [] {
      var before, e := events[..|events| - 1], events[|events| - 1];
      LatestStarted(before, id);
      assert events == before + [e];
      AnnouncedAppend(before, e);
      StartedAppend(before, e, id);
    }
  }

  lemma StartedAppend(events: seq<ProviderEvent>, e: ProviderEvent, id: string)
    ensures Started(events + [e], id) <==> Started(events, id) || (e.CallStart? && e.id == id)
  {
    var all := events + [e];
    if Started(events, id) {
      var j :| 0 <= j < |events| && events[j].CallStart? && events[j].id == id;
      assert all[j] == events[j];
    }
    if e.CallStart? && e.id == id { assert all[|events|] == e; }
  }

  // ---- the loop --------------------------------------------------------------

  ghost predicate Sound(events: seq<ProviderEvent>, parts: seq<Part>, calls: map<string, Call>, order: seq<string>, extra: nat) {
    Tidy(parts) && CallsOk(events, parts, calls, order) && Agree(events, parts, extra)
  }

  lemma TextStep(events: seq<ProviderEvent>, e: ProviderEvent, parts: seq<Part>, after: seq<Part>, calls: map<string, Call>, order: seq<string>, extra: nat)
    requires Sound(events, parts, calls, order, extra) && (e.Text? || e.Reasoning?)
    requires after == AppendText(parts, e.Reasoning?, e.text)
    ensures Sound(events + [e], after, calls, order, extra)
  {
    AppendTextTidy(parts, e.Reasoning?, e.text);
    AppendTextAccount(parts, e.Reasoning?, e.text);
    TextFrame(parts, e.Reasoning?, e.text);
    TextCallIds(parts, e.Reasoning?, e.text);
    TextCalls(events, e, parts, after, calls, order);
    AnnouncedAppend(events, e);
    WirePreview(e);
    AgreeAlike(events, e, parts, after, extra);
  }

  lemma QuietStep(events: seq<ProviderEvent>, e: ProviderEvent, parts: seq<Part>, calls: map<string, Call>, order: seq<string>, extra: nat)
    requires Sound(events, parts, calls, order, extra) && (e.CallInput? || e.Usage? || e.Ignored?)
    ensures Sound(events + [e], parts, calls, order, extra)
  {
    TextCalls(events, e, parts, parts, calls, order);
    AnnouncedAppend(events, e);
    WirePreview(e);
    AgreeAlike(events, e, parts, parts, extra);
  }

  lemma StartStep(events: seq<ProviderEvent>, e: ProviderEvent, parts: seq<Part>, after: seq<Part>, calls: map<string, Call>, order: seq<string>, extra: nat)
    requires Sound(events, parts, calls, order, extra) && e.CallStart?
    requires after == parts + [CallPart(e.id, e.name, None)]
    ensures Sound(events + [e], after, calls[e.id := Call(e.id, e.name, |parts|, None)], order + [e.id], extra)
  {
    OpenCalls(events, e, parts, calls, order, None);
    StartAgrees(events, e, parts, extra);
    TidyCall(parts, CallPart(e.id, e.name, None));
  }

  lemma StartAgrees(events: seq<ProviderEvent>, e: ProviderEvent, parts: seq<Part>, extra: nat)
    requires Agree(events, parts, extra) && e.CallStart?
    ensures Agree(events + [e], parts + [CallPart(e.id, e.name, None)], extra)
  {
    AnnouncedAppend(events, e);
    AccountAppend(parts, CallPart(e.id, e.name, None));
    WirePreview(e);
    AgreeAlike(events, e, parts, parts + [CallPart(e.id, e.name, None)], extra);
  }

  lemma UnknownEndStep(events: seq<ProviderEvent>, e: ProviderEvent, parts: seq<Part>, calls: map<string, Call>, order: seq<string>, extra: nat)
    requires Sound(events, parts, calls, order, extra) && e.CallEnd? && e.id !in calls
    ensures Sound(events + [e], parts + [CallPart(e.id, e.name, Some(e.input))], calls[e.id := Call(e.id, e.name, |parts|, Some(e.input))], order + [e.id], extra + 1)
  {
    OpenCalls(events, e, parts, calls, order, Some(e.input));
    UnknownAgrees(events, e, parts, calls, extra);
    TidyCall(parts, CallPart(e.id, e.name, Some(e.input)));
  }

  lemma UnknownAgrees(events: seq<ProviderEvent>, e: ProviderEvent, parts: seq<Part>, calls: map<string, Call>, extra: nat)
    requires e.CallEnd? && e.id !in calls && CallOk(events, parts, calls, e.id) && Agree(events, parts, extra)
    ensures Agree(events + [e], parts + [CallPart(e.id, e.name, Some(e.input))], extra + 1)
  {
    LatestStarted(events, e.id);
    AccountAppend(parts, CallPart(e.id, e.name, Some(e.input)));
    AgreeSilent(events, e, parts, parts + [CallPart(e.id, e.name, Some(e.input))], extra);
  }

  lemma TidyCall(parts: seq<Part>, p: Part)
    requires Tidy(parts) && p.CallPart?
    ensures Tidy(parts + [p])
  {
  }

  lemma KnownEndStep(events: seq<ProviderEvent>, e: ProviderEvent, parts: seq<Part>, calls: map<string, Call>, order: seq<string>, extra: nat)
    requires Sound(events, parts, calls, order, extra) && e.CallEnd? && e.id in calls
    ensures calls[e.id].part < |parts| && parts[calls[e.id].part].CallPart?
    ensures var c := calls[e.id];
            Sound(events + [e], parts[c.part := parts[c.part].(input := Some(e.input))], calls[e.id := c.(input := Some(e.input))], order, extra)
  {
    EndCalls(events, e, parts, calls, order);
    assert CallOk(events, parts, calls, e.id);
    InputKeeps(parts, calls[e.id].part, e.input);
    KnownAgrees(events, e, parts, calls, extra);
  }

  lemma KnownAgrees(events: seq<ProviderEvent>, e: ProviderEvent, parts: seq<Part>, calls: map<string, Call>, extra: nat)
    requires e.CallEnd? && e.id in calls && CallOk(events, parts, calls, e.id) && Agree(events, parts, extra)
    ensures Agree(events + [e], parts[calls[e.id].part := parts[calls[e.id].part].(input := Some(e.input))], extra)
  {
    var k := calls[e.id].part;
    LatestStarted(events, e.id);
    AnnouncedAppend(events, e);
    InputKeeps(parts, k, e.input);
    WirePreview(e);
    AgreeAlike(events, e, parts, parts[k := parts[k].(input := Some(e.input))], extra);
  }

  function LastStop(events: seq<ProviderEvent>): string {
    if events == [] then "end_turn"
    else if events[|events| - 1].Usage? then events[|events| - 1].stop
    else LastStop(events[..|events| - 1])
  }

  /** The loop's variables. */
  datatype Turn = Turn(parts: seq<Part>, calls: map<string, Call>, order: seq<string>, stop: string)

  const Blank := Turn([], map[], [], "end_turn")

  function WithText(t: Turn, thought: bool, delta: string): Turn {
    t.(parts := AppendText(t.parts, thought, delta))
  }

  function Opened(t: Turn, id: string, name: string): Turn {
    t.(calls := t.calls[id := Call(id, name, |t.parts|, None)],
       order := t.order + [id],
       parts := t.parts + [CallPart(id, name, None)])
  }

  predicate HasPart(t: Turn, id: string) {
    id in t.calls && t.calls[id].part < |t.parts| && t.parts[t.calls[id].part].CallPart?
  }

  function Closed(t: Turn, id: string, input: string): Turn {
    if !HasPart(t, id) then t
    else
      var c := t.calls[id];
      t.(calls := t.calls[id := c.(input := Some(input))],
         parts := t.parts[c.part := t.parts[c.part].(input := Some(input))])
  }

  function Step(t: Turn, e: ProviderEvent): Turn {
    match e
    case Text(d) => WithText(t, false, d)
    case Reasoning(d) => WithText(t, true, d)
    case CallStart(id, name) => Opened(t, id, name)
    case CallEnd(id, name, input) => Closed(if id in t.calls then t else Opened(t, id, name), id, input)
    case Usage(s) => t.(stop := s)
    case _ => t
  }

  function Run(events: seq<ProviderEvent>): Turn {
    if events == [] then Blank else Step(Run(events[..|events| - 1]), events[|events| - 1])
  }

  lemma RunAppend(events: seq<ProviderEvent>, e: ProviderEvent)
    ensures Run(events + [e]) == Step(Run(events), e)
  {
    assert (events + [e])[..|events|] == events;
  }

  lemma StepSound(events: seq<ProviderEvent>, e: ProviderEvent, t: Turn, extra: nat) returns (extra': nat)
    requires Sound(events, t.parts, t.calls, t.order, extra)
    ensures var t' := Step(t, e); Sound(events + [e], t'.parts, t'.calls, t'.order, extra')
  {
    extra' := extra;
    var t' := Step(t, e);
    match e
    case Text(_) => TextStep(events, e, t.parts, t'.parts, t.calls, t.order, extra);
    case Reasoning(_) => TextStep(events, e, t.parts, t'.parts, t.calls, t.order, extra);
    case CallStart(_, _) => StartStep(events, e, t.parts, t'.parts, t.calls, t.order, extra);
    case CallEnd(_, _, _) => extra' := EndSound(events, e, t, extra);
    case _ => QuietStep(events, e, t.parts, t.calls, t.order, extra);
  }

  lemma EndSound(events: seq<ProviderEvent>, e: ProviderEvent, t: Turn, extra: nat) returns (extra': nat)
    requires e.CallEnd? && Sound(events, t.parts, t.calls, t.order, extra)
    ensures var t' := Step(t, e); Sound(events + [e], t'.parts, t'.calls, t'.order, extra')
  {
    if e.id in t.calls {
      KnownEndSound(events, e, t, extra);
      extra' := extra;
    } else {
      UnknownEndSound(events, e, t, extra);
      extra' := extra + 1;
    }
  }

  lemma KnownEndSound(events: seq<ProviderEvent>, e: ProviderEvent, t: Turn, extra: nat)
    requires e.CallEnd? && e.id in t.calls && Sound(events, t.parts, t.calls, t.order, extra)
    ensures var t' := Step(t, e); Sound(events + [e], t'.parts, t'.calls, t'.order, extra)
  {
    KnownEndStep(events, e, t.parts, t.calls, t.order, extra);
    KnownClosed(t, e.id, e.input);
  }

  lemma UnknownEndSound(events: seq<ProviderEvent>, e: ProviderEvent, t: Turn, extra: nat)
    requires e.CallEnd? && e.id !in t.calls && Sound(events, t.parts, t.calls, t.order, extra)
    ensures var t' := Step(t, e); Sound(events + [e], t'.parts, t'.calls, t'.order, extra + 1)
  {
    UnknownEndStep(events, e, t.parts, t.calls, t.order, extra);
    OpenedClosed(t, e.id, e.name, e.input);
  }

  lemma KnownClosed(t: Turn, id: string, input: string)
    requires HasPart(t, id)
    ensures var c, t' := t.calls[id], Closed(t, id, input);
            && t'.parts == t.parts[c.part := t.parts[c.part].(input := Some(input))]
            && t'.calls == t.calls[id := c.(input := Some(input))]
            && t'.order == t.order
  {
  }

  lemma OpenedClosed(t: Turn, id: string, name: string, input: string)
    ensures var t' := Closed(Opened(t, id, name), id, input);
            && t'.parts == t.parts + [CallPart(id, name, Some(input))]
            && t'.calls == t.calls[id := Call(id, name, |t.parts|, Some(input))]
            && t'.order == t.order + [id]
  {
  }

  /** Some number of unannounced calls accounts for the difference between the two accounts. */
  ghost predicate Consistent(events: seq<ProviderEvent>, t: Turn) {
    exists extra: nat :: Sound(events, t.parts, t.calls, t.order, extra)
  }

  lemma NextConsistent(events: seq<ProviderEvent>, e: ProviderEvent)
    requires Consistent(events, Run(events))
    ensures Consistent(events + [e], Run(events + [e]))
  {
    var t := Run(events);
    var extra: nat :| Sound(events, t.parts, t.calls, t.order, extra);
    RunAppend(events, e);
    var extra' := StepSound(events, e, t, extra);
  }

  lemma BlankConsistent()
    ensures Consistent([], Run([]))
  {
    assert Sound([], [], map[], [], 0);
  }

  lemma LastSplit(events: seq<ProviderEvent>)
    requires events != []
    ensures events == events[..|events| - 1] + [events[|events| - 1]]
  {
  }

  lemma {:induction false} RunConsistent(events: seq<ProviderEvent>)
    ensures Consistent(events, Run(events))
  {
    if events == [] {
      BlankConsistent();
    } else {
      RunConsistent(events[..|events| - 1]);
      LastSplit(events);
      NextConsistent(events[..|events| - 1], events[|events| - 1]);
    }
  }

  lemma {:induction false} RunStop(events: seq<ProviderEvent>)
    ensures Run(events).stop == LastStop(events)
  {
    if events != [] { RunStop(events[..|events| - 1]); }
  }

  /** The call is its own part, with the name and input the stream gave last. */
  ghost predicate Faithful(events: seq<ProviderEvent>, parts: seq<Part>, c: Call) {
    && c.part < |parts| && parts[c.part] == CallPart(c.id, c.name, c.input)
    && Latest(events, c.id) == Some(Offer(c.name, c.input))
  }

  /**
   What a turn leaves: tidy parts that say and think exactly what was previewed, in order; the same
   calls in the same places unless some call was never announced; and every call with its own part.
   */
  ghost predicate Transcribes(events: seq<ProviderEvent>, parts: seq<Part>, called: seq<Call>) {
    && Tidy(parts)
    && Speech(Account(parts)) == Speech(Preview(WireAll(events)))
    && (Account(parts) == Preview(WireAll(events)) <==> Announced(events))
    && |called| == |Calls(Account(parts))|
    && forall k :: 0 <= k < |called| ==> called[k].id == Calls(Account(parts))[k] && Faithful(events, parts, called[k])
  }

  /** The calls a turn hands on, in the order their parts were opened. */
  function CallList(t: Turn): seq<Call>
    requires forall k :: 0 <= k < |t.order| ==> t.order[k] in t.calls
  {
    seq(|t.order|, k requires 0 <= k < |t.order| => t.calls[t.order[k]])
  }

  lemma OrderKnown(events: seq<ProviderEvent>)
    ensures forall k :: 0 <= k < |Run(events).order| ==> Run(events).order[k] in Run(events).calls
    ensures forall id :: id in Run(events).calls ==> HasPart(Run(events), id)
  {
    var t := Run(events);
    RunConsistent(events);
    var extra: nat :| Sound(events, t.parts, t.calls, t.order, extra);
    forall id | id in t.calls ensures HasPart(t, id) {
      assert CallOk(events, t.parts, t.calls, id);
    }
  }

  /** Every turn transcribes its stream. */
  lemma RunTranscribes(events: seq<ProviderEvent>)
    requires forall k :: 0 <= k < |Run(events).order| ==> Run(events).order[k] in Run(events).calls
    ensures Transcribes(events, Run(events).parts, CallList(Run(events)))
  {
    var t := Run(events);
    RunConsistent(events);
    var extra: nat :| Sound(events, t.parts, t.calls, t.order, extra);
    forall k | 0 <= k < |t.order| ensures CallList(t)[k].id == t.order[k] && Faithful(events, t.parts, CallList(t)[k]) {
      assert CallOk(events, t.parts, t.calls, t.order[k]);
    }
  }

  // ---- the loop --------------------------------------------------------------

  method AppendTextPart(parts: seq<Part>, thought: bool, delta: string) returns (after: seq<Part>)
    ensures after == AppendText(parts, thought, delta)
  {
    after := parts;
    if delta == "" { return; }
    if |after| > 0 && SameKind(after[|after| - 1], thought) {
      after := after[|after| - 1 := Extend(after[|after| - 1], delta)];
      return;
    }
    after := after + [if thought then ReasoningPart(delta) else TextPart(delta)];
  }

  method OrderedCalls(t: Turn) returns (out: seq<Call>)
    requires forall k :: 0 <= k < |t.order| ==> t.order[k] in t.calls
    ensures out == CallList(t)
  {
    out := [];
    for i := 0 to |t.order|
      invariant |out| == i && forall k :: 0 <= k < i ==> out[k] == t.calls[t.order[k]]
    {
      out := out + [t.calls[t.order[i]]];
    }
  }

  /** One event of the stream: the parts and calls it changes, and what it puts on the wire. */
  method Absorb(e: ProviderEvent, t: Turn) returns (t': Turn, wire: Option<Event>)
    requires e.CallEnd? && e.id in t.calls ==> HasPart(t, e.id)
    ensures t' == Step(t, e)
    ensures Wire(e) == if wire.Some? then [wire.value] else []
  {
    var parts, calls, order, stop := t.parts, t.calls, t.order, t.stop;
    wire := None;
    match e {
      case Text(d) =>
        parts := AppendTextPart(parts, false, d);
        wire := Some(Event(TextDelta, "", d, ""));
      case Reasoning(d) =>
        parts := AppendTextPart(parts, true, d);
        wire := Some(Event(ReasoningDelta, "", d, ""));
      case CallStart(id, name) =>
        calls := calls[id := Call(id, name, |parts|, None)];
        order := order + [id];
        parts := parts + [CallPart(id, name, None)];
        wire := Some(Event(Structural("tool-input-start"), id, "", name));
      case CallInput(id, d) =>
        wire := Some(Event(ToolInputDelta, id, d, ""));
      case CallEnd(id, name, input) =>
        if id !in calls {
          calls := calls[id := Call(id, name, |parts|, None)];
          order := order + [id];
          parts := parts + [CallPart(id, name, None)];
        }
        var call := calls[id];
        calls := calls[id := call.(input := Some(input))];
        parts := parts[call.part := parts[call.part].(input := Some(input))];
      case Usage(s) =>
        stop := s;
      case Ignored =>
    }
    t' := Turn(parts, calls, order, stop);
  }

  /** `flow` is everything handed to the publisher so far, as it was handed. */
  method PublishWire(wire: Option<Event>, started: int, checked: int, pub: RunPublisher, ghost flow: seq<Event>)
    returns (ghost flow': seq<Event>)
    requires pub.Valid() && Norm(pub.All()) == Norm(flow)
    modifies pub
    ensures pub.Valid() && Norm(pub.All()) == Norm(flow')
    ensures flow' == flow + if wire.Some? then [wire.value] else []
  {
    flow' := flow;
    if wire.Some? {
      SameAfter(pub.All(), flow, wire.value);
      flow' := flow + [wire.value];
      pub.Publish(wire.value, started, checked);
    }
  }

  /** The first i events are consumed: these are the loop's variables, and this went to the publisher after what was there. */
  ghost predicate Consumed(before: seq<Event>, events: seq<ProviderEvent>, i: nat, t: Turn, flow: seq<Event>)
    requires i <= |events|
  {
    t == RunTo(events, i) && flow == before + WireTo(events, i)
  }

  lemma NothingConsumed(before: seq<Event>, events: seq<ProviderEvent>)
    ensures Consumed(before, events, 0, Blank, before)
  {
    assert before + [] == before;
  }

  lemma NextConsumed(before: seq<Event>, events: seq<ProviderEvent>, i: nat, t: Turn, flow: seq<Event>)
    requires i < |events| && Consumed(before, events, i, t, flow)
    ensures Consumed(before, events, i + 1, Step(t, events[i]), flow + Wire(events[i]))
    ensures events[i].CallEnd? && events[i].id in t.calls ==> HasPart(t, events[i].id)
  {
    PartsKnown(events, i);
  }

  lemma AllConsumed(before: seq<Event>, events: seq<ProviderEvent>, t: Turn, flow: seq<Event>, sent: seq<Event>)
    requires Consumed(before, events, |events|, t, flow) && Norm(sent) == Norm(flow)
    ensures t == Run(events) && Norm(sent) == Norm(before + WireAll(events))
  {
    PrefixIsRun(events, |events|);
    assert events[..|events|] == events;
  }

  /** The next event of the stream, absorbed and published. */
  method ConsumeOne(events: seq<ProviderEvent>, i: nat, t: Turn, clock: (int, int), pub: RunPublisher, ghost before: seq<Event>, ghost flow: seq<Event>)
    returns (t': Turn, ghost flow': seq<Event>)
    requires i < |events| && Consumed(before, events, i, t, flow)
    requires pub.Valid() && Norm(pub.All()) == Norm(flow)
    modifies pub
    ensures Consumed(before, events, i + 1, t', flow')
    ensures pub.Valid() && Norm(pub.All()) == Norm(flow')
  {
    NextConsumed(before, events, i, t, flow);
    var wire: Option<Event>;
    t', wire := Absorb(events[i], t);
    flow' := PublishWire(wire, clock.0, clock.1, pub, flow);
  }

  /** The stream up to where it ends or breaks off, every event published as it is absorbed. */
  method ConsumeEvents(events: seq<ProviderEvent>, clock: seq<(int, int)>, pub: RunPublisher) returns (t: Turn)
    requires pub.Valid() && |clock| == |events|
    modifies pub
    ensures pub.Valid() && t == Run(events)
    ensures Norm(pub.All()) == Norm(old(pub.All()) + WireAll(events))
  {
    t := Blank;
    ghost var before, flow := pub.All(), pub.All();
    NothingConsumed(before, events);
    for i := 0 to |events|
      invariant pub.Valid() && Norm(pub.All()) == Norm(flow)
      invariant Consumed(before, events, i, t, flow)
    {
      t, flow := ConsumeOne(events, i, t, clock[i], pub, before, flow);
    }
    AllConsumed(before, events, t, flow, pub.All());
  }

  /** The loop's variables, and the wire, after the first i events. */
  ghost function RunTo(events: seq<ProviderEvent>, i: nat): Turn
    requires i <= |events|
  {
    if i == 0 then Blank else Step(RunTo(events, i - 1), events[i - 1])
  }

  ghost function WireTo(events: seq<ProviderEvent>, i: nat): seq<Event>
    requires i <= |events|
  {
    if i == 0 then [] else WireTo(events, i - 1) + Wire(events[i - 1])
  }

  lemma {:induction false} PrefixIsRun(events: seq<ProviderEvent>, i: nat)
    requires i <= |events|
    ensures RunTo(events, i) == Run(events[..i]) && WireTo(events, i) == WireAll(events[..i])
  {
    if i > 0 {
      PrefixIsRun(events, i - 1);
      assert events[..i][..i - 1] == events[..i - 1];
    }
  }

  lemma PartsKnown(events: seq<ProviderEvent>, i: nat)
    requires i <= |events|
    ensures forall id :: id in RunTo(events, i).calls ==> HasPart(RunTo(events, i), id)
  {
    PrefixIsRun(events, i);
    OrderKnown(events[..i]);
  }

  /** `consume`: `failed` says whether the stream broke off after these events or ended. */
  method Consume(events: seq<ProviderEvent>, failed: bool, clock: seq<(int, int)>, pub: RunPublisher)
    returns (parts: seq<Part>, called: seq<Call>, stop: string)
    requires pub.Valid() && |clock| == |events|
    modifies pub
    ensures pub.Valid() && (!failed ==> !pub.buffered)
    ensures Norm(pub.All()) == Norm(old(pub.All()) + WireAll(events))
    ensures Transcribes(events, parts, called) && stop == LastStop(events)
  {
    var t := ConsumeEvents(events, clock, pub);
    if !failed { pub.Flush(); }
    OrderKnown(events);
    RunTranscribes(events);
    RunStop(events);
    called := OrderedCalls(t);
    parts, stop := t.parts, t.stop;
  }

  /** A reader of the wire is told of every call that starts, and of all its arguments. */
  ghost predicate TellsCalls(wire: seq<Event>, events: seq<ProviderEvent>) {
    StructuralOf(wire) == StartsOf(events) && forall id :: Shown(wire, ToolInputDelta, id) == InputOf(events, id)
  }

  lemma WireTellsCalls(wire: seq<Event>, events: seq<ProviderEvent>)
    requires Norm(wire) == Norm(WireAll(events))
    ensures TellsCalls(wire, events)
  {
    forall id ensures Shown(wire, ToolInputDelta, id) == InputOf(events, id) {
      SameMeaningSameView(wire, WireAll(events), ToolInputDelta, id);
      WireShowsCalls(events, id);
    }
    SameMeaningSameView(wire, WireAll(events), ToolInputDelta, "");
    WireShowsCalls(events, "");
  }

  /** Sequences of one meaning give one account. */
  lemma SamePreview(wire: seq<Event>, events: seq<Event>)
    requires Norm(wire) == Norm(events)
    ensures Preview(wire) == Preview(events)
  {
    NormPreview(wire);
    NormPreview(events);
  }

  /**
   A whole turn, whether its stream ended or broke off and whatever the clock read: once the
   publisher is closed, a reader of the wire and a reader of the persisted parts have been told the
   same text and the same reasoning, in the same order; and the reader of the wire has been told of
   every call that starts and all of its arguments.
   */
  method PreviewEqualsTranscript(events: seq<ProviderEvent>, failed: bool, clock: seq<(int, int)>)
    returns (parts: seq<Part>, wire: seq<Event>)
    requires |clock| == |events|
    ensures Speech(Preview(wire)) == Speech(Account(parts))
    ensures Preview(wire) == Account(parts) <==> Announced(events)
    ensures TellsCalls(wire, events)
  {
    var pub := new RunPublisher();
    var called, stop;
    parts, called, stop := Consume(events, failed, clock, pub);
    pub.Close();
    wire := pub.sent;
    assert [] + WireAll(events) == WireAll(events);
    SamePreview(wire, WireAll(events));
    WireTellsCalls(wire, events);
  }
}
