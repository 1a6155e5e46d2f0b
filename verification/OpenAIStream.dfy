/**
 The adapter that assembles an OpenAI-compatible provider's tool-call fragments into start, input
 and end events. It announces a call when its name arrives and ends it under the id it has by then.
 */
module OpenAIStream {
  import opened Wrappers
  import opened Transcript

  /** One tool-call delta: any of its texts may be empty. */
  datatype Fragment = Fragment(index: int, id: string, name: string, arguments: string)

  /** What the adapter reads: a tool-call delta, or a finish reason or end of stream, which closes the open calls. */
  datatype Input = Delta(fragment: Fragment) | Finish

  datatype OpenCall = OpenCall(id: string, name: string, started: bool, input: string)

  datatype Assembly = Assembly(calls: map<int, OpenCall>, order: seq<int>, out: seq<ProviderEvent>)

  const Nothing := Assembly(map[], [], [])

  function Updated(call: OpenCall, f: Fragment): OpenCall {
    call.(id := if f.id != "" then f.id else call.id, name := call.name + f.name)
  }

  /** `consumeToolCall`. */
  function Feed(s: Assembly, f: Fragment): Assembly {
    var known := f.index in s.calls;
    var call := Updated(if known then s.calls[f.index] else OpenCall("", "", false, ""), f);
    var starts := !call.started && call.name != "";
    Assembly(
      s.calls[f.index := call.(started := call.started || starts, input := call.input + f.arguments)],
      if known then s.order else s.order + [f.index],
      s.out + (if starts then [CallStart(call.id, call.name)] else [])
            + (if f.arguments != "" then [CallInput(call.id, f.arguments)] else []))
  }

  /** `closeOpenToolCalls` at one index. `finish` stands for the clean-up of a buffered argument text. */
  function CloseOne(s: Assembly, index: int, finish: string -> string): Assembly {
    if index !in s.calls then s
    else
      var call := s.calls[index];
      s.(calls := s.calls - {index},
         out := s.out + (if call.started then [] else [CallStart(call.id, call.name)]) + [CallEnd(call.id, call.name, finish(call.input))])
  }

  function CloseTo(s: Assembly, n: nat, finish: string -> string): (r: Assembly)
    requires n <= |s.order|
    ensures r.order == s.order
  {
    if n == 0 then s else CloseOne(CloseTo(s, n - 1, finish), s.order[n - 1], finish)
  }

  function Close(s: Assembly, finish: string -> string): Assembly {
    CloseTo(s, |s.order|, finish).(order := [])
  }

  function Take(s: Assembly, i: Input, finish: string -> string): Assembly {
    match i
    case Delta(f) => Feed(s, f)
    case Finish => Close(s, finish)
  }

  function Assembled(inputs: seq<Input>, n: nat, finish: string -> string): Assembly
    requires n <= |inputs|
  {
    if n == 0 then Nothing else Take(Assembled(inputs, n - 1, finish), inputs[n - 1], finish)
  }

  class Adapter {
    var toolCalls: map<int, OpenCall>
    var order: seq<int>
    var queue: seq<ProviderEvent>

    constructor ()
      ensures State() == Nothing
    {
      toolCalls, order, queue := map[], [], [];
    }

    function State(): Assembly
      reads this
    {
      Assembly(toolCalls, order, queue)
    }

    method ConsumeToolCall(f: Fragment)
      modifies this
      ensures State() == Feed(old(State()), f)
    {
      var call := OpenCall("", "", false, "");
      if f.index in toolCalls {
        call := toolCalls[f.index];
      } else {
        order := order + [f.index];
      }
      assert call.name + "" == call.name && call.input + "" == call.input;
      if f.id != "" { call := call.(id := f.id); }
      if f.name != "" { call := call.(name := call.name + f.name); }
      if !call.started && call.name != "" {
        call := call.(started := true);
        queue := queue + [CallStart(call.id, call.name)];
      }
      if f.arguments != "" {
        call := call.(input := call.input + f.arguments);
        queue := queue + [CallInput(call.id, f.arguments)];
      }
      toolCalls := toolCalls[f.index := call];
    }

    method CloseOpenToolCalls(finish: string -> string)
      modifies this
      ensures State() == Close(old(State()), finish)
    {
      ghost var before := State();
      for k := 0 to |order|
        invariant State() == CloseTo(before, k, finish)
      {
        var index := order[k];
        if index in toolCalls {
          var call := toolCalls[index];
          toolCalls := toolCalls - {index};
          if !call.started { queue := queue + [CallStart(call.id, call.name)]; }
          queue := queue + [CallEnd(call.id, call.name, finish(call.input))];
        }
      }
      order := [];
    }
  }

  /** Everything the adapter emits for these inputs. */
  method Emit(inputs: seq<Input>, finish: string -> string) returns (events: seq<ProviderEvent>)
    ensures events == Assembled(inputs, |inputs|, finish).out
  {
    var adapter := new Adapter();
    for i := 0 to |inputs|
      invariant fresh(adapter) && adapter.State() == Assembled(inputs, i, finish)
    {
      match inputs[i] {
        case Delta(f) => adapter.ConsumeToolCall(f);
        case Finish => adapter.CloseOpenToolCalls(finish);
      }
    }
    events := adapter.queue;
  }

  // ---- what a call is made of -------------------------------------------------

  /** The fragments of one call since the last time the open calls were closed, in order. */
  function Pieces(inputs: seq<Input>, n: nat, x: int): seq<Fragment>
    requires n <= |inputs|
  {
    if n == 0 || inputs[n - 1].Finish? then []
    else Pieces(inputs, n - 1, x) + if inputs[n - 1].fragment.index == x then [inputs[n - 1].fragment] else []
  }

  function Names(pieces: seq<Fragment>): string {
    if pieces == [] then "" else Names(pieces[..|pieces| - 1]) + pieces[|pieces| - 1].name
  }

  function Texts(pieces: seq<Fragment>): string {
    if pieces == [] then "" else Texts(pieces[..|pieces| - 1]) + pieces[|pieces| - 1].arguments
  }

  function LastGiven(pieces: seq<Fragment>): string {
    if pieces == [] then ""
    else if pieces[|pieces| - 1].id != "" then pieces[|pieces| - 1].id
    else LastGiven(pieces[..|pieces| - 1])
  }

  lemma PieceAppended(pieces: seq<Fragment>, f: Fragment)
    ensures Names(pieces + [f]) == Names(pieces) + f.name && Texts(pieces + [f]) == Texts(pieces) + f.arguments
    ensures LastGiven(pieces + [f]) == if f.id != "" then f.id else LastGiven(pieces)
  {
    assert (pieces + [f])[..|pieces|] == pieces;
  }

  /** An open call is the sum of its pieces. */
  ghost predicate Gathered(s: Assembly, x: int, pieces: seq<Fragment>) {
    && (x in s.calls <==> pieces != []) && (x in s.calls <==> x in s.order)
    && (x in s.calls ==> s.calls[x].id == LastGiven(pieces) && s.calls[x].name == Names(pieces) && s.calls[x].input == Texts(pieces))
  }

  lemma FeedGathers(s: Assembly, f: Fragment, x: int, pieces: seq<Fragment>)
    requires Gathered(s, x, pieces)
    ensures Gathered(Feed(s, f), x, pieces + if f.index == x then [f] else [])
  {
    if f.index == x {
      PieceAppended(pieces, f);
      if pieces == [] { assert "" + f.name == f.name && "" + f.arguments == f.arguments; }
    } else {
      assert pieces + [] == pieces;
    }
  }

  ghost predicate DistinctOrder(s: Assembly) {
    forall j, k :: 0 <= j < k < |s.order| ==> s.order[j] != s.order[k]
  }

  /** Closing up to n removes those calls, and each has ended under what it was. */
  lemma {:induction false} CloseToEnds(s: Assembly, n: nat, finish: string -> string)
    requires n <= |s.order| && DistinctOrder(s)
    ensures var r := CloseTo(s, n, finish);
            && (forall x :: x in r.calls <==> x in s.calls && x !in s.order[..n])
            && (forall x :: x in r.calls ==> r.calls[x] == s.calls[x])
            && (forall k :: 0 <= k < n && s.order[k] in s.calls ==> EndOf(s.calls[s.order[k]], finish) in r.out)
  {
    if n > 0 {
      CloseToEnds(s, n - 1, finish);
      var q, index := CloseTo(s, n - 1, finish), s.order[n - 1];
      assert s.order[..n] == s.order[..n - 1] + [index];
      assert index in s.calls ==> index in q.calls && q.calls[index] == s.calls[index];
      assert forall e :: e in q.out ==> e in CloseOne(q, index, finish).out;
    }
  }

  function EndOf(call: OpenCall, finish: string -> string): ProviderEvent {
    CallEnd(call.id, call.name, finish(call.input))
  }

  lemma FeedOrder(s: Assembly, f: Fragment)
    requires DistinctOrder(s) && forall x :: x in s.order ==> x in s.calls
    ensures DistinctOrder(Feed(s, f)) && forall x :: x in Feed(s, f).order ==> x in Feed(s, f).calls
  {
  }

  lemma {:induction false} OrderIsDistinct(inputs: seq<Input>, n: nat, finish: string -> string)
    requires n <= |inputs|
    ensures var s := Assembled(inputs, n, finish); DistinctOrder(s) && forall x :: x in s.order ==> x in s.calls
  {
    if n > 0 {
      OrderIsDistinct(inputs, n - 1, finish);
      match inputs[n - 1]
      case Delta(f) => FeedOrder(Assembled(inputs, n - 1, finish), f);
      case Finish =>
    }
  }

  /** After any inputs, what is open of a call is the sum of its pieces since the last closing. */
  lemma {:induction false} OpenIsGathered(inputs: seq<Input>, n: nat, x: int, finish: string -> string)
    requires n <= |inputs|
    ensures Gathered(Assembled(inputs, n, finish), x, Pieces(inputs, n, x))
  {
    if n > 0 {
      var s := Assembled(inputs, n - 1, finish);
      OpenIsGathered(inputs, n - 1, x, finish);
      match inputs[n - 1]
      case Delta(f) => FeedGathers(s, f, x, Pieces(inputs, n - 1, x));
      case Finish =>
        OrderIsDistinct(inputs, n - 1, finish);
        CloseToEnds(s, |s.order|, finish);
        assert s.order[..|s.order|] == s.order;
    }
  }

  /**
   When the open calls are closed, every call that got a piece since the last closing ends: under
   the last id given, with all pieces of its name and, cleaned up, all pieces of its arguments.
   */
  lemma EveryCallEnds(inputs: seq<Input>, n: nat, x: int, finish: string -> string)
    requires n < |inputs| && inputs[n].Finish? && Pieces(inputs, n, x) != []
    ensures var pieces := Pieces(inputs, n, x);
            CallEnd(LastGiven(pieces), Names(pieces), finish(Texts(pieces))) in Assembled(inputs, n + 1, finish).out
  {
    var s := Assembled(inputs, n, finish);
    OpenIsGathered(inputs, n, x, finish);
    OrderIsDistinct(inputs, n, finish);
    CloseToEnds(s, |s.order|, finish);
    var k :| 0 <= k < |s.order| && s.order[k] == x;
    assert EndOf(s.calls[s.order[k]], finish) in CloseTo(s, |s.order|, finish).out;
  }

  // ---- which inputs announce every call --------------------------------------

  /** The fragment does not give a call another id after it was announced. */
  predicate KeepsId(s: Assembly, i: Input) {
    i.Delta? && i.fragment.index in s.calls && s.calls[i.fragment.index].started ==>
      i.fragment.id == "" || i.fragment.id == s.calls[i.fragment.index].id
  }

  ghost predicate IdsKept(inputs: seq<Input>, finish: string -> string) {
    forall k :: 0 <= k < |inputs| ==> KeepsId(Assembled(inputs, k, finish), inputs[k])
  }

  /** Nothing ended unannounced, and every open call that was announced was announced under its id. */
  ghost predicate Good(s: Assembly) {
    Announced(s.out) && forall x :: x in s.calls && s.calls[x].started ==> Started(s.out, s.calls[x].id)
  }

  lemma StartedStays(out: seq<ProviderEvent>, more: seq<ProviderEvent>, id: string)
    requires Started(out, id)
    ensures Started(out + more, id)
  {
    var j :| 0 <= j < |out| && out[j].CallStart? && out[j].id == id;
    assert (out + more)[j] == out[j];
  }

  /** An event that ends no call, or one that was started. */
  lemma GoodEvent(s: Assembly, e: ProviderEvent)
    requires Good(s) && (e.CallEnd? ==> Started(s.out, e.id))
    ensures Good(s.(out := s.out + [e])) && (e.CallStart? ==> Started(s.out + [e], e.id))
  {
    AnnouncedAppend(s.out, e);
    forall x | x in s.calls && s.calls[x].started ensures Started(s.out + [e], s.calls[x].id) {
      StartedStays(s.out, [e], s.calls[x].id);
    }
    StartedAppend(s.out, e, if e.CallStart? then e.id else "");
  }

  lemma FeedIsGood(s: Assembly, f: Fragment)
    requires Good(s) && KeepsId(s, Delta(f))
    ensures Good(Feed(s, f))
  {
    var call := Updated(if f.index in s.calls then s.calls[f.index] else OpenCall("", "", false, ""), f);
    var starts := !call.started && call.name != "";
    var s1 := s;
    if starts {
      GoodEvent(s, CallStart(call.id, call.name));
      s1 := s.(out := s.out + [CallStart(call.id, call.name)]);
    }
    assert call.started || starts ==> Started(s1.out, call.id);
    var s2 := s1;
    if f.arguments != "" {
      GoodEvent(s1, CallInput(call.id, f.arguments));
      s2 := s1.(out := s1.out + [CallInput(call.id, f.arguments)]);
      if call.started || starts { StartedStays(s1.out, [CallInput(call.id, f.arguments)], call.id); }
    }
    assert Feed(s, f).out == s2.out;
  }

  lemma CloseOneIsGood(s: Assembly, index: int, finish: string -> string)
    requires Good(s)
    ensures Good(CloseOne(s, index, finish))
  {
    if index in s.calls {
      var call := s.calls[index];
      var s1 := s;
      if !call.started {
        GoodEvent(s, CallStart(call.id, call.name));
        s1 := s.(out := s.out + [CallStart(call.id, call.name)]);
      }
      var end := CallEnd(call.id, call.name, finish(call.input));
      GoodEvent(s1, end);
      assert CloseOne(s, index, finish).out == s1.out + [end];
    }
  }

  lemma {:induction false} CloseToIsGood(s: Assembly, n: nat, finish: string -> string)
    requires Good(s) && n <= |s.order|
    ensures Good(CloseTo(s, n, finish))
  {
    if n > 0 {
      CloseToIsGood(s, n - 1, finish);
      CloseOneIsGood(CloseTo(s, n - 1, finish), s.order[n - 1], finish);
    }
  }

  lemma {:induction false} AssembledIsGood(inputs: seq<Input>, n: nat, finish: string -> string)
    requires n <= |inputs| && IdsKept(inputs, finish)
    ensures Good(Assembled(inputs, n, finish))
  {
    if n > 0 {
      AssembledIsGood(inputs, n - 1, finish);
      var s := Assembled(inputs, n - 1, finish);
      match inputs[n - 1]
      case Delta(f) => FeedIsGood(s, f);
      case Finish => CloseToIsGood(s, |s.order|, finish);
    }
  }

  /** A provider that never renames an announced call has every call announced, so preview and parts agree. */
  lemma KeptIdsAreAnnounced(inputs: seq<Input>, finish: string -> string)
    requires IdsKept(inputs, finish)
    ensures Announced(Assembled(inputs, |inputs|, finish).out)
  {
    AssembledIsGood(inputs, |inputs|, finish);
  }

  // ---- one call, exactly ------------------------------------------------------

  /** The id a call has after its first n fragments: the last one given. */
  function FinalId(fs: seq<Fragment>, n: nat): string
    requires n <= |fs|
  {
    if n == 0 then "" else if fs[n - 1].id != "" then fs[n - 1].id else FinalId(fs, n - 1)
  }

  /** The id it had when its name arrived, if it did. */
  function NamedId(fs: seq<Fragment>, n: nat): Option<string>
    requires n <= |fs|
  {
    if n == 0 then None
    else if NamedId(fs, n - 1).Some? then NamedId(fs, n - 1)
    else if fs[n - 1].name != "" then Some(FinalId(fs, n)) else None
  }

  function OneCall(fs: seq<Fragment>): seq<Input> {
    seq(|fs|, k requires 0 <= k < |fs| => Delta(fs[k])) + [Finish]
  }

  ghost predicate NoEnds(out: seq<ProviderEvent>) {
    forall k :: 0 <= k < |out| ==> !out[k].CallEnd?
  }

  /** After n fragments of the only call, all of index x. */
  ghost predicate Single(s: Assembly, x: int, fs: seq<Fragment>, n: nat)
    requires n <= |fs|
  {
    && (n == 0 ==> s == Nothing)
    && (n > 0 ==> s.calls.Keys == {x} && s.order == [x] && s.calls[x].id == FinalId(fs, n)
                  && (s.calls[x].name != "" <==> NamedId(fs, n).Some?) && (s.calls[x].started <==> NamedId(fs, n).Some?))
    && NoEnds(s.out) && forall id {:trigger Started(s.out, id)} :: Started(s.out, id) <==> NamedId(fs, n) == Some(id)
  }

  function CallAt(s: Assembly, x: int): OpenCall {
    if x in s.calls then s.calls[x] else OpenCall("", "", false, "")
  }

  lemma SingleCall(s: Assembly, x: int, fs: seq<Fragment>, n: nat)
    requires n < |fs| && Single(s, x, fs, n)
    ensures CallAt(s, x).id == FinalId(fs, n)
    ensures (CallAt(s, x).started <==> NamedId(fs, n).Some?) && (CallAt(s, x).name != "" <==> NamedId(fs, n).Some?)
  {
    if n > 0 { assert x in s.calls.Keys; }
  }

  lemma SingleFeed(s: Assembly, x: int, fs: seq<Fragment>, n: nat)
    requires n < |fs| && fs[n].index == x && Single(s, x, fs, n)
    ensures Single(Feed(s, fs[n]), x, fs, n + 1)
  {
    var f := fs[n];
    var t := Feed(s, f);
    var call := Updated(CallAt(s, x), f);
    var starts := !call.started && call.name != "";
    var mid := s.out + if starts then [CallStart(call.id, call.name)] else [];
    SingleCall(s, x, fs, n);
    assert call.id == FinalId(fs, n + 1) && (starts <==> NamedId(fs, n).None? && f.name != "");
    forall id ensures Started(t.out, id) <==> NamedId(fs, n + 1) == Some(id) {
      assert Started(s.out, id) <==> NamedId(fs, n) == Some(id);
      if starts { StartedAppend(s.out, CallStart(call.id, call.name), id); } else { assert mid == s.out; }
      assert Started(mid, id) <==> Started(s.out, id) || (starts && call.id == id);
      if f.arguments != "" { StartedAppend(mid, CallInput(call.id, f.arguments), id); } else { assert t.out == mid; }
    }
  }

  lemma OneCallNext(fs: seq<Fragment>, n: nat, finish: string -> string)
    requires n < |fs|
    ensures Assembled(OneCall(fs), n + 1, finish) == Feed(Assembled(OneCall(fs), n, finish), fs[n])
  {
    assert OneCall(fs)[n] == Delta(fs[n]);
  }

  lemma {:induction false} SingleRun(x: int, fs: seq<Fragment>, n: nat, finish: string -> string)
    requires n <= |fs| && forall k :: 0 <= k < |fs| ==> fs[k].index == x
    ensures Single(Assembled(OneCall(fs), n, finish), x, fs, n)
  {
    if n > 0 {
      SingleRun(x, fs, n - 1, finish);
      OneCallNext(fs, n - 1, finish);
      SingleFeed(Assembled(OneCall(fs), n - 1, finish), x, fs, n - 1);
    }
  }

  lemma NoEndsAnnounced(out: seq<ProviderEvent>, e: ProviderEvent)
    requires NoEnds(out)
    ensures Announced(out + [e]) <==> e.CallEnd? ==> Started(out, e.id)
  {
    AnnouncedAppend(out, e);
  }

  lemma NamedStarted(out: seq<ProviderEvent>, end: ProviderEvent, named: Option<string>)
    requires NoEnds(out) && named.Some? && end.CallEnd? && (Started(out, end.id) <==> named == Some(end.id))
    ensures Announced(out + [end]) <==> named.value == end.id
  {
    NoEndsAnnounced(out, end);
  }

  lemma StartedAtTheEnd(out: seq<ProviderEvent>, start: ProviderEvent, end: ProviderEvent)
    requires NoEnds(out) && start.CallStart? && end.CallEnd? && start.id == end.id
    ensures Announced(out + [start] + [end])
  {
    StartedAppend(out, start, end.id);
    NoEndsAnnounced(out + [start], end);
  }

  lemma SingleClose(s: Assembly, x: int, fs: seq<Fragment>, finish: string -> string)
    requires fs != [] && Single(s, x, fs, |fs|)
    ensures Announced(Close(s, finish).out) <==> NamedId(fs, |fs|).None? || NamedId(fs, |fs|).value == FinalId(fs, |fs|)
  {
    CloseSingle(s, finish);
    var call := s.calls[x];
    var end := CallEnd(call.id, call.name, finish(call.input));
    if call.started {
      assert Close(s, finish).out == s.out + [end];
      NamedStarted(s.out, end, NamedId(fs, |fs|));
    } else {
      assert Close(s, finish).out == s.out + [CallStart(call.id, call.name)] + [end];
      StartedAtTheEnd(s.out, CallStart(call.id, call.name), end);
    }
  }

  /**
   A stream of one call announces it exactly when no name ever arrives, or the id it has when its
   name arrives is the one it ends under.
   */
  lemma {:induction false} OneCallExactly(x: int, fs: seq<Fragment>, finish: string -> string)
    requires fs != [] && forall k :: 0 <= k < |fs| ==> fs[k].index == x
    ensures Announced(Assembled(OneCall(fs), |fs| + 1, finish).out) <==>
            NamedId(fs, |fs|).None? || NamedId(fs, |fs|).value == FinalId(fs, |fs|)
  {
    SingleRun(x, fs, |fs|, finish);
    SingleClose(Assembled(OneCall(fs), |fs|, finish), x, fs, finish);
  }

  // ---- an input that is not announced ----------------------------------------

  /** A call whose id arrives after its name: it starts under no id and ends under its own. */
  function LateId(name: string, id: string, arguments: string): seq<Input> {
    [Delta(Fragment(0, "", name, "")), Delta(Fragment(0, id, "", arguments)), Finish]
  }

  function Named(name: string): Assembly {
    Assembly(map[0 := OpenCall("", name, true, "")], [0], [CallStart("", name)])
  }

  lemma FeedName(name: string)
    requires name != ""
    ensures Feed(Nothing, Fragment(0, "", name, "")) == Named(name)
  {
    assert "" + name == name && "" + "" == "";
    var s := Feed(Nothing, Fragment(0, "", name, ""));
    assert s.calls == map[0 := OpenCall("", name, true, "")] && s.out == [CallStart("", name)];
  }

  lemma FeedId(name: string, id: string, arguments: string)
    requires name != "" && id != "" && arguments != ""
    ensures Feed(Named(name), Fragment(0, id, "", arguments)) ==
            Assembly(map[0 := OpenCall(id, name, true, arguments)], [0], [CallStart("", name), CallInput(id, arguments)])
  {
    assert name + "" == name && "" + arguments == arguments;
    var s := Feed(Named(name), Fragment(0, id, "", arguments));
    assert s.calls == map[0 := OpenCall(id, name, true, arguments)] && s.out == [CallStart("", name), CallInput(id, arguments)];
  }

  lemma CloseSingle(s: Assembly, finish: string -> string)
    requires |s.order| == 1
    ensures Close(s, finish) == CloseOne(s, s.order[0], finish).(order := [])
  {
    assert CloseTo(s, 0, finish) == s;
  }

  lemma ThreeTaken(inputs: seq<Input>, finish: string -> string)
    requires |inputs| == 3
    ensures Assembled(inputs, 3, finish) == Take(Take(Take(Nothing, inputs[0], finish), inputs[1], finish), inputs[2], finish)
  {
    assert Assembled(inputs, 1, finish) == Take(Nothing, inputs[0], finish);
    assert Assembled(inputs, 2, finish) == Take(Assembled(inputs, 1, finish), inputs[1], finish);
  }

  lemma LateIdStream(name: string, id: string, arguments: string, finish: string -> string)
    requires name != "" && id != "" && arguments != ""
    ensures Assembled(LateId(name, id, arguments), 3, finish).out ==
            [CallStart("", name), CallInput(id, arguments), CallEnd(id, name, finish(arguments))]
  {
    ThreeTaken(LateId(name, id, arguments), finish);
    FeedName(name);
    FeedId(name, id, arguments);
    CloseSingle(Assembly(map[0 := OpenCall(id, name, true, arguments)], [0], [CallStart("", name), CallInput(id, arguments)]), finish);
  }

  /** What the runtime makes of it: one call persisted twice, the first time without id or input, and previewed once. */
  lemma LateIdIsUnannounced(name: string, id: string, arguments: string, finish: string -> string)
    requires name != "" && id != "" && arguments != ""
    ensures var events := Assembled(LateId(name, id, arguments), 3, finish).out;
            && !Announced(events)
            && Run(events).parts == [CallPart("", name, None), CallPart(id, name, Some(finish(arguments)))]
            && Account(Run(events).parts) == [Called(""), Called(id)] && Preview(WireAll(events)) == [Called("")]
  {
    LateIdStream(name, id, arguments, finish);
    TwoCalls(name, id, arguments, finish(arguments));
  }

  lemma TwoCalls(name: string, id: string, arguments: string, input: string)
    requires id != ""
    ensures var events := [CallStart("", name), CallInput(id, arguments), CallEnd(id, name, input)];
            && !Announced(events)
            && Run(events).parts == [CallPart("", name, None), CallPart(id, name, Some(input))]
            && Account(Run(events).parts) == [Called(""), Called(id)] && Preview(WireAll(events)) == [Called("")]
  {
    var e1, e2, e3 := CallStart("", name), CallInput(id, arguments), CallEnd(id, name, input);
    assert [e1] + [e2] + [e3] == [e1, e2, e3];
    TwoParts(e1, e2, e3);
    OnePreview(e1, e2, e3);
    assert [e1] + [e2] == [e1, e2];
    OnlyStart(e1, e2, id);
    AnnouncedAppend([e1] + [e2], e3);
  }

  /** An event that is not a start and says nothing adds nothing to the preview. */
  lemma QuietPreview(events: seq<ProviderEvent>, e: ProviderEvent)
    requires e.CallInput? || e.CallEnd?
    ensures Preview(WireAll(events + [e])) == Preview(WireAll(events))
  {
    WireAppend(events, e);
    WirePreview(e);
  }

  lemma FirstPreview(e: ProviderEvent)
    requires e.CallStart?
    ensures Preview(WireAll([e])) == [Called(e.id)]
  {
    WireAppend([], e);
    WirePreview(e);
    assert [] + [e] == [e];
  }

  lemma OnePreview(e1: ProviderEvent, e2: ProviderEvent, e3: ProviderEvent)
    requires e1.CallStart? && e2.CallInput? && e3.CallEnd?
    ensures Preview(WireAll([e1] + [e2] + [e3])) == [Called(e1.id)]
  {
    FirstPreview(e1);
    QuietPreview([e1], e2);
    QuietPreview([e1] + [e2], e3);
  }

  lemma OnlyStart(e1: ProviderEvent, e2: ProviderEvent, id: string)
    requires e1.CallStart? && e1.id != id && e2.CallInput?
    ensures !Started([e1, e2], id)
  {
  }

  lemma TwoParts(e1: ProviderEvent, e2: ProviderEvent, e3: ProviderEvent)
    requires e1.CallStart? && e2.CallInput? && e3.CallEnd? && e3.id != e1.id
    ensures var parts := Run([e1] + [e2] + [e3]).parts;
            && parts == [CallPart(e1.id, e1.name, None), CallPart(e3.id, e3.name, Some(e3.input))]
            && Account(parts) == [Called(e1.id), Called(e3.id)]
  {
    RunAppend([], e1);
    assert [] + [e1] == [e1];
    RunAppend([e1], e2);
    RunAppend([e1] + [e2], e3);
    OpenedClosed(Run([e1] + [e2]), e3.id, e3.name, e3.input);
    AccountAppend([], CallPart(e1.id, e1.name, None));
    AccountAppend([CallPart(e1.id, e1.name, None)], CallPart(e3.id, e3.name, Some(e3.input)));
    assert [] + [CallPart(e1.id, e1.name, None)] == [CallPart(e1.id, e1.name, None)];
  }
}
