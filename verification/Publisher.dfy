/** Coalescing of stream fragments: fewer events on the wire, the same meaning. */
module Publisher {
  /** `Structural` covers every event a client does not concatenate; `name` tells them apart. */
  datatype Kind = TextDelta | ReasoningDelta | ToolInputDelta | Structural(name: string)

  /** `rest` stands for the fields coalescing never looks at. Text is a sequence of bytes. */
  datatype Event = Event(kind: Kind, callId: string, text: string, rest: string)

  const Window := 50
  const MaxBytes := 512

  predicate IsDelta(kind: Kind) {
    !kind.Structural?
  }

  /** Two neighbours a client would concatenate. */
  predicate Fuses(a: Event, b: Event) {
    IsDelta(b.kind) && a.kind == b.kind && a.callId == b.callId
  }

  function Fuse(a: Event, b: Event): Event {
    a.(text := a.text + b.text)
  }

  function Join(s: seq<Event>, e: Event): seq<Event> {
    if s != [] && Fuses(s[|s| - 1], e) then s[..|s| - 1] + [Fuse(s[|s| - 1], e)] else s + [e]
  }

  /** The meaning of a sequence of events: neighbouring fragments of one thing are one fragment. */
  function Norm(s: seq<Event>): seq<Event> {
    NormTo(s, |s|)
  }

  /** The meaning of the first n events. */
  function NormTo(s: seq<Event>, n: nat): seq<Event>
    requires n <= |s|
  {
    if n == 0 then [] else Join(NormTo(s, n - 1), s[n - 1])
  }

  lemma {:induction false} NormToFrame(s: seq<Event>, t: seq<Event>, n: nat)
    requires n <= |s| && n <= |t| && forall k :: 0 <= k < n ==> s[k] == t[k]
    ensures NormTo(s, n) == NormTo(t, n)
  {
    if n > 0 { NormToFrame(s, t, n - 1); }
  }

  lemma NormAppend(s: seq<Event>, e: Event)
    ensures Norm(s + [e]) == Join(Norm(s), e)
  {
    NormToFrame(s + [e], s, |s|);
  }

  lemma NormLast(s: seq<Event>)
    requires s != []
    ensures Norm(s) == Join(Norm(s[..|s| - 1]), s[|s| - 1])
  {
    NormToFrame(s, s[..|s| - 1], |s| - 1);
  }

  lemma JoinFuse(n: seq<Event>, p: Event, e: Event)
    requires Fuses(p, e)
    ensures Join(n, Fuse(p, e)) == Join(Join(n, p), e)
  {
    if n != [] && Fuses(n[|n| - 1], p) {
      var q, front := n[|n| - 1], n[..|n| - 1];
      assert q.text + p.text + e.text == q.text + (p.text + e.text);
      assert (front + [Fuse(q, p)])[..|front|] == front;
    } else {
      assert (n + [p])[..|n|] == n;
    }
  }

  /** Fusing two neighbours before or after they are normalised is the same. */
  lemma NormFuse(s: seq<Event>, p: Event, e: Event)
    requires Fuses(p, e)
    ensures Norm(s + [Fuse(p, e)]) == Norm(s + [p] + [e])
  {
    NormAppend(s, p);
    NormAppend(s + [p], e);
    NormAppend(s, Fuse(p, e));
    JoinFuse(Norm(s), p, e);
  }

  /** Where the fragment goes: onto the one that waits, if a client would concatenate the two. */
  function Waiting(buffered: bool, pending: Event, ev: Event): Event {
    if buffered && Fuses(pending, ev) then Fuse(pending, ev) else ev
  }

  class RunPublisher {
    var pending: Event
    var buffered: bool
    var since: int
    var sent: seq<Event>

    constructor ()
      ensures sent == [] && !buffered && Valid()
    {
      pending, buffered, since, sent := Event(Structural(""), "", "", ""), false, 0, [];
    }

    /** Only an unfinished fragment under the size limit waits. */
    ghost predicate Valid()
      reads this
    {
      buffered ==> IsDelta(pending.kind) && |pending.text| < MaxBytes
    }

    /** What was sent, then what still waits. */
    ghost function All(): seq<Event>
      reads this
    {
      if buffered then sent + [pending] else sent
    }

    method Flush()
      modifies this
      ensures sent == old(All()) && !buffered && since == old(since)
    {
      if !buffered { return; }
      sent, buffered := sent + [pending], false;
    }

    /** `Close` differs from `Flush` only in the context it sends under. */
    method Close()
      modifies this
      ensures sent == old(All()) && !buffered && since == old(since)
    {
      Flush();
    }

    /** `started` and `checked` are the clock's readings where the source takes them; any two will do. */
    method Publish(ev: Event, started: int, checked: int)
      requires Valid()
      modifies this
      ensures Valid()
      ensures Norm(All()) == Norm(old(All()) + [ev])
      ensures !IsDelta(ev.kind) ==> !buffered && sent == old(All()) + [ev]
      ensures buffered ==> checked - since < 50
      ensures IsDelta(ev.kind) ==>
                var fused := old(buffered) && Fuses(old(pending), ev);
                var front, last := if fused then old(sent) else old(All()), Waiting(old(buffered), old(pending), ev);
                && since == (if fused then old(since) else started)
                && (|last.text| < 512 && checked - since < 50 ==> buffered && sent == front && pending == last)
                && (|last.text| >= 512 || checked - since >= 50 ==> !buffered && sent == front + [last])
      ensures old(sent) <= sent && |All()| <= |old(All())| + 1
    {
      if !IsDelta(ev.kind) {
        Flush();
        sent := sent + [ev];
        return;
      }
      if buffered && Fuses(pending, ev) {
        NormFuse(sent, pending, ev);
        pending := Fuse(pending, ev);
      } else {
        Flush();
        pending, buffered, since := ev, true, started;
      }
      assert Norm(All()) == Norm(old(All()) + [ev]);
      if |pending.text| >= MaxBytes || checked - since >= Window {
        Flush();
      }
    }
  }

  /** A whole run's events through the publisher, whatever its clock reads, and the final flush. */
  method PublishAll(events: seq<Event>, clock: seq<(int, int)>) returns (wire: seq<Event>)
    requires |clock| == |events|
    ensures Norm(wire) == Norm(events)
    ensures |wire| <= |events|
  {
    var p := new RunPublisher();
    ghost var flow: seq<Event> := [];
    for i := 0 to |events|
      invariant p.Valid() && fresh(p)
      invariant flow == events[..i] && Norm(p.All()) == Norm(flow)
      invariant |p.All()| <= i
    {
      SameAfter(p.All(), flow, events[i]);
      p.Publish(events[i], clock[i].0, clock[i].1);
      flow := flow + [events[i]];
    }
    assert flow == events;
    p.Close();
    wire := p.sent;
  }

  lemma SameAfter(a: seq<Event>, b: seq<Event>, e: Event)
    requires Norm(a) == Norm(b)
    ensures Norm(a + [e]) == Norm(b + [e])
  {
    NormAppend(a, e);
    NormAppend(b, e);
  }

  // ---- what normalising keeps ------------------------------------------------

  /** No two neighbours are left to merge. */
  ghost predicate Merged(s: seq<Event>) {
    forall k :: 0 < k < |s| ==> !Fuses(s[k - 1], s[k])
  }

  lemma {:induction false} NormMerged(s: seq<Event>)
    ensures Merged(Norm(s))
  {
    if s != [] {
      NormLast(s);
      NormMerged(s[..|s| - 1]);
    }
  }

  lemma {:induction false} MergedIsNormal(s: seq<Event>)
    requires Merged(s)
    ensures Norm(s) == s
  {
    if s != [] {
      NormLast(s);
      MergedIsNormal(s[..|s| - 1]);
    }
  }

  /** `Norm` is a normal form: normalising any part of a sequence first changes nothing. */
  lemma {:induction false} NormConcat(a: seq<Event>, b: seq<Event>)
    ensures Norm(a + b) == Norm(Norm(a) + b)
    decreases |b|
  {
    if b == [] {
      assert a + b == a && Norm(a) + b == Norm(a);
      NormMerged(a);
      MergedIsNormal(Norm(a));
    } else {
      var front, e := b[..|b| - 1], b[|b| - 1];
      NormConcat(a, front);
      assert a + b == (a + front) + [e] && Norm(a) + b == (Norm(a) + front) + [e];
      NormAppend(a + front, e);
      NormAppend(Norm(a) + front, e);
    }
  }

  lemma JoinAfter(m: seq<Event>, n: seq<Event>, x: Event)
    requires m != [] && !IsDelta(m[|m| - 1].kind)
    ensures Join(m + n, x) == m + Join(n, x)
  {
    if n == [] {
      assert m + n == m;
    } else {
      assert (m + n)[|m + n| - 1] == n[|n| - 1];
      assert (m + n)[..|m + n| - 1] == m + n[..|n| - 1];
    }
  }

  lemma {:induction false} Barrier(whole: seq<Event>, m: seq<Event>, b: seq<Event>)
    requires m != [] && !IsDelta(m[|m| - 1].kind) && Norm(whole) == m
    ensures Norm(whole + b) == m + Norm(b)
    decreases |b|
  {
    if b == [] {
      assert whole + b == whole;
    } else {
      Barrier(whole, m, b[..|b| - 1]);
      BarrierStep(whole + b[..|b| - 1], m, b[..|b| - 1], b[|b| - 1]);
      SplitLast(whole, b);
    }
  }

  lemma SplitLast(a: seq<Event>, b: seq<Event>)
    requires b != []
    ensures b[..|b| - 1] + [b[|b| - 1]] == b
    ensures (a + b[..|b| - 1]) + [b[|b| - 1]] == a + b
  {
  }

  /** A structural event is a barrier: nothing is merged across it, and it follows everything before it. */
  lemma StructuralIsABarrier(a: seq<Event>, e: Event, b: seq<Event>)
    requires !IsDelta(e.kind)
    ensures Norm(a + [e] + b) == Norm(a) + [e] + Norm(b)
  {
    NormAppend(a, e);
    Barrier(a + [e], Norm(a) + [e], b);
  }

  lemma BarrierStep(whole: seq<Event>, m: seq<Event>, front: seq<Event>, x: Event)
    requires m != [] && !IsDelta(m[|m| - 1].kind) && Norm(whole) == m + Norm(front)
    ensures Norm(whole + [x]) == m + Norm(front + [x])
  {
    NormAppend(whole, x);
    NormAppend(front, x);
    JoinAfter(m, Norm(front), x);
  }

  function ShownBy(e: Event, kind: Kind, callId: string): string {
    if e.kind == kind && e.callId == callId then e.text else ""
  }

  /** What a client shows for one kind of fragment of one call. */
  function Shown(s: seq<Event>, kind: Kind, callId: string): string {
    if s == [] then ""
    else
      var e := s[|s| - 1];
      Shown(s[..|s| - 1], kind, callId) + ShownBy(e, kind, callId)
  }

  function StructuralOf(s: seq<Event>): seq<Event> {
    if s == [] then []
    else StructuralOf(s[..|s| - 1]) + (if IsDelta(s[|s| - 1].kind) then [] else [s[|s| - 1]])
  }

  lemma ShownAppend(s: seq<Event>, e: Event, kind: Kind, callId: string)
    ensures Shown(s + [e], kind, callId) == Shown(s, kind, callId) + ShownBy(e, kind, callId)
    ensures StructuralOf(s + [e]) == StructuralOf(s) + if IsDelta(e.kind) then [] else [e]
  {
    assert (s + [e])[..|s|] == s;
  }

  lemma JoinShows(n: seq<Event>, e: Event, kind: Kind, callId: string)
    ensures Shown(Join(n, e), kind, callId) == Shown(n, kind, callId) + ShownBy(e, kind, callId)
    ensures StructuralOf(Join(n, e)) == StructuralOf(n) + if IsDelta(e.kind) then [] else [e]
  {
    if n != [] && Fuses(n[|n| - 1], e) {
      var q, front := n[|n| - 1], n[..|n| - 1];
      ShownAppend(front, Fuse(q, e), kind, callId);
      ShownAppend(front, q, kind, callId);
      assert n == front + [q];
    } else {
      ShownAppend(n, e, kind, callId);
    }
  }

  lemma NextShows(s: seq<Event>, e: Event, kind: Kind, callId: string)
    requires Shown(Norm(s), kind, callId) == Shown(s, kind, callId) && StructuralOf(Norm(s)) == StructuralOf(s)
    ensures Shown(Norm(s + [e]), kind, callId) == Shown(s + [e], kind, callId)
    ensures StructuralOf(Norm(s + [e])) == StructuralOf(s + [e])
  {
    NormAppend(s, e);
    JoinShows(Norm(s), e, kind, callId);
    ShownAppend(s, e, kind, callId);
  }

  lemma {:induction false} NormShows(s: seq<Event>, kind: Kind, callId: string)
    ensures Shown(Norm(s), kind, callId) == Shown(s, kind, callId)
    ensures StructuralOf(Norm(s)) == StructuralOf(s)
  {
    if s != [] {
      var front, e := s[..|s| - 1], s[|s| - 1];
      NormShows(front, kind, callId);
      NextShows(front, e, kind, callId);
      assert s == front + [e];
    }
  }

  /** Two sequences of one meaning show every client the same text and the same structural events in order. */
  lemma SameMeaningSameView(wire: seq<Event>, events: seq<Event>, kind: Kind, callId: string)
    requires Norm(wire) == Norm(events)
    ensures Shown(wire, kind, callId) == Shown(events, kind, callId)
    ensures StructuralOf(wire) == StructuralOf(events)
  {
    NormShows(wire, kind, callId);
    NormShows(events, kind, callId);
  }
}
