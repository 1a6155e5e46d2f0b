/** A reader stays attached until something detaches it, and an attached reader can always catch up. */
module StreamProgress {
  import opened Wrappers
  import opened StreamLog
  import opened StreamProtocol
  import opened StreamSafety

  // ---- who is attached --------------------------------------------------------

  ghost predicate Attached(s: Sys, r: nat) {
    r in s.readers && s.readers[r].registered
  }

  /** A reader comes: it joins, or a client connects through it. */
  predicate Attaches(s: Sys, step: Step, r: nat) {
    r !in s.readers && ((step.Join? && step.r == r) || (step.Connect? && step.r == r && step.c in s.clients))
  }

  /** A reader goes: it leaves, the node shuts down, or a message finds its 256 places taken. */
  predicate Detaches(s: Sys, step: Step, r: nat) {
    r in s.readers && ((step.Leave? && step.r == r) || step.CloseAll? || (step.Dispatch? && s.wire != [] && |s.readers[r].buffer| >= 256))
  }

  /** Nothing else attaches or detaches a reader. */
  lemma AttachedExactly(cap: nat, s: Sys, step: Step, r: nat)
    ensures Attached(Apply(cap, s, step), r) <==> Attaches(s, step, r) || (Attached(s, r) && !Detaches(s, step, r))
  {
    if ByReader(step) && !step.Leave? && step.r in s.readers { OwnKeepsRegistered(s, step.r, step); }
  }

  lemma OwnKeepsRegistered(s: Sys, q: nat, step: Step)
    requires q in s.readers && !step.Leave?
    ensures DoReader(s, q, step).readers.Keys == s.readers.Keys
    ensures forall r :: r in s.readers ==> DoReader(s, q, step).readers[r].registered == s.readers[r].registered
  {
  }

  // ---- who has ended ----------------------------------------------------------

  ghost predicate EndedOk(s: Sys, r: nat) {
    r in s.readers && s.readers[r].phase.Ended? ==> !s.readers[r].registered
  }

  /** A reader ends by leaving, or when what it was sent before it was detached is all forwarded. */
  predicate Finishes(s: Sys, step: Step, r: nat) {
    && r in s.readers
    && ((step.Leave? && step.r == r)
        || (step.PumpLive? && step.r == r && s.readers[r].phase.Pumping? && s.readers[r].backlog == [] && s.readers[r].buffer == [] && !s.readers[r].registered))
  }

  lemma EndsExactly(cap: nat, s: Sys, step: Step, r: nat)
    requires r in s.readers && !s.readers[r].phase.Ended?
    ensures r in Apply(cap, s, step).readers
    ensures Apply(cap, s, step).readers[r].phase.Ended? <==> Finishes(s, step, r)
  {
  }

  lemma EndedKeeps(cap: nat, s: Sys, step: Step, r: nat)
    requires EndedOk(s, r)
    ensures EndedOk(Apply(cap, s, step), r)
  {
    AttachedExactly(cap, s, step, r);
    if r in s.readers && !s.readers[r].phase.Ended? { EndsExactly(cap, s, step, r); }
  }

  /** A reader that has ended is not attached. */
  lemma {:induction false} EndedIsDetached(cap: nat, schedule: seq<Step>, r: nat)
    ensures EndedOk(Exec(cap, schedule), r)
  {
    if schedule != [] {
      EndedIsDetached(cap, schedule[..|schedule| - 1], r);
      EndedKeeps(cap, Exec(cap, schedule[..|schedule| - 1]), schedule[|schedule| - 1], r);
    }
  }

  // ---- an attached reader can go on ---------------------------------------------

  /** The steps taken one after the other from s. */
  function From(cap: nat, s: Sys, steps: seq<Step>): Sys
    decreases |steps|
  {
    if steps == [] then s else From(cap, Apply(cap, s, steps[0]), steps[1..])
  }

  lemma FromMore(cap: nat, s: Sys, first: Step, rest: seq<Step>)
    ensures From(cap, s, [first] + rest) == From(cap, Apply(cap, s, first), rest)
  {
    assert ([first] + rest)[1..] == rest;
  }

  lemma StepReachable(cap: nat, s: Sys, step: Step)
    requires Reachable(cap, s)
    ensures Reachable(cap, Apply(cap, s, step))
  {
    var schedule: seq<Step> :| s == Exec(cap, schedule);
    assert (schedule + [step])[..|schedule|] == schedule;
    assert Exec(cap, schedule + [step]) == Apply(cap, s, step);
  }

  /** Steps of this one reader, none of which detaches it. */
  predicate OwnSteps(steps: seq<Step>, r: nat) {
    forall k :: 0 <= k < |steps| ==>
      (steps[k].ReadCounter? || steps[k].ReadLog? || steps[k].PumpBacklog? || steps[k].PumpLive?) && steps[k].r == r
  }

  /** Only this reader moved, and it is still what it was but for how far it has come. */
  ghost predicate MovedOnly(s: Sys, t: Sys, r: nat) {
    && r in s.readers && r in t.readers && t == s.(readers := s.readers[r := t.readers[r]])
    && t.readers[r].registered == s.readers[r].registered
  }

  /** The reader is through its backlog and its buffer, and waits. */
  ghost predicate Drained(rd: Reader) {
    rd.phase.Pumping? && rd.backlog == [] && rd.buffer == []
  }

  ghost predicate SameStand(rd: Reader, rd': Reader) {
    rd'.after == rd.after && rd'.marks.join == rd.marks.join && rd'.marks.lo == rd.marks.lo && rd'.marks.read == rd.marks.read
  }

  lemma OnePump(cap: nat, s: Sys, r: nat) returns (step: Step)
    requires r in s.readers && s.readers[r].phase.Pumping? && !Drained(s.readers[r])
    ensures OwnSteps([step], r) && MovedOnly(s, Apply(cap, s, step), r) && SameStand(s.readers[r], Apply(cap, s, step).readers[r])
    ensures var rd, rd' := s.readers[r], Apply(cap, s, step).readers[r];
            rd'.phase.Pumping? && |rd'.backlog| + |rd'.buffer| < |rd.backlog| + |rd.buffer|
  {
    step := if s.readers[r].backlog != [] then PumpBacklog(r) else PumpLive(r);
  }

  lemma OwnMore(first: Step, rest: seq<Step>, r: nat)
    requires OwnSteps([first], r) && OwnSteps(rest, r)
    ensures OwnSteps([first] + rest, r)
  {
    assert [first][0] == first;
  }

  /** By its own steps alone a reader that has read its log comes to where it has nothing left to forward. */
  lemma {:induction false} Drains(cap: nat, s: Sys, r: nat) returns (steps: seq<Step>)
    requires Reachable(cap, s)
    requires r in s.readers && s.readers[r].phase.Pumping?
    ensures var t := From(cap, s, steps);
            && OwnSteps(steps, r) && Reachable(cap, t) && MovedOnly(s, t, r)
            && Drained(t.readers[r]) && SameStand(s.readers[r], t.readers[r])
    decreases |s.readers[r].backlog| + |s.readers[r].buffer|
  {
    if Drained(s.readers[r]) {
      steps := [];
      assert s.readers == s.readers[r := s.readers[r]];
    } else {
      var first := OnePump(cap, s, r);
      var s1 := Apply(cap, s, first);
      StepReachable(cap, s, first);
      var rest := Drains(cap, s1, r);
      FromMore(cap, s, first, rest);
      OwnMore(first, rest, r);
      steps := [first] + rest;
      assert s1.readers[r := From(cap, s1, rest).readers[r]] == s.readers[r := From(cap, s1, rest).readers[r]];
    }
  }

  /** A covered reader that is attached and drained has sent everything dispatched after its offset. */
  lemma DrainedHasAll(h: seq<string>, dispatched: nat, rd: Reader)
    requires Pumped(h, rd) && BufferOk(h, dispatched, rd) && Covered(rd) && rd.registered && rd.backlog == [] && rd.buffer == []
    ensures Contiguous(h, rd) && dispatched <= rd.after + |rd.frames|
  {
    CoveredIsContiguous(h, rd, rd.marks.replayed, rd.marks.taken);
  }

  /**
   An attached reader that has read its log is never stuck: its own steps lead to where it waits,
   still attached, with nothing left to forward; and if it was covered it has then sent every event
   dispatched after its offset, in order and without a gap.
   */
  lemma AttachedCatchesUp(cap: nat, s: Sys, r: nat) returns (steps: seq<Step>)
    requires Reachable(cap, s)
    requires Attached(s, r) && !s.readers[r].phase.Joined? && !s.readers[r].phase.Counted?
    ensures var t := From(cap, s, steps);
            && OwnSteps(steps, r) && Reachable(cap, t) && MovedOnly(s, t, r) && Attached(t, r) && Drained(t.readers[r])
            && (Covered(s.readers[r]) ==> Contiguous(t.history, t.readers[r]) && Dispatched(t) <= t.readers[r].after + |t.readers[r].frames|)
  {
    var schedule: seq<Step> :| s == Exec(cap, schedule);
    EndedIsDetached(cap, schedule, r);
    steps := Drains(cap, s, r);
    var t := From(cap, s, steps);
    ReachedInv(cap, t);
    assert ReaderAt(t, r);
    if Covered(s.readers[r]) { DrainedHasAll(t.history, Dispatched(t), t.readers[r]); }
  }

  /** And one that has not read it yet can: two steps, and it has. */
  lemma AttachGoesThrough(cap: nat, s: Sys, r: nat) returns (steps: seq<Step>)
    requires Reachable(cap, s)
    requires Attached(s, r)
    ensures var t := From(cap, s, steps); OwnSteps(steps, r) && Reachable(cap, t) && MovedOnly(s, t, r) && Attached(t, r) && t.readers[r].phase.Pumping?
  {
    var schedule: seq<Step> :| s == Exec(cap, schedule);
    EndedIsDetached(cap, schedule, r);
    var t := s;
    steps := [];
    assert s.readers == s.readers[r := s.readers[r]];
    if t.readers[r].phase.Joined? {
      StepReachable(cap, t, ReadCounter(r));
      steps, t := [ReadCounter(r)], Apply(cap, t, ReadCounter(r));
      assert s.readers[r := t.readers[r]] == t.readers;
    }
    if t.readers[r].phase.Counted? {
      StepReachable(cap, t, ReadLog(r));
      ghost var before := t;
      t := Apply(cap, t, ReadLog(r));
      assert s.readers[r := t.readers[r]] == t.readers;
      TwoSteps(cap, s, steps, before, ReadLog(r));
      steps := steps + [ReadLog(r)];
    }
  }

  lemma TwoSteps(cap: nat, s: Sys, steps: seq<Step>, t: Sys, last: Step)
    requires |steps| <= 1 && From(cap, s, steps) == t
    ensures From(cap, s, steps + [last]) == Apply(cap, t, last)
  {
    if steps == [] {
      assert steps + [last] == [last] + [];
      FromMore(cap, s, last, []);
    } else {
      assert steps + [last] == [steps[0]] + [last] && steps == [steps[0]] + [] && [last] == [last] + [];
      FromMore(cap, s, steps[0], [last]);
      FromMore(cap, s, steps[0], []);
      FromMore(cap, Apply(cap, s, steps[0]), last, []);
    }
  }

  // ---- a client receives what its connection sends -------------------------------

  lemma OneReceived(cap: nat, s: Sys, c: nat, r: nat)
    requires c in s.clients && s.clients[c].reader == Some(r) && r in s.readers && s.clients[c].read < |s.readers[r].frames|
    ensures var k, t := s.clients[c], Apply(cap, s, Receive(c));
            && t.readers == s.readers && t.history == s.history && t.wire == s.wire && c in t.clients
            && t.clients[c].reader == Some(r) && t.clients[c].read == k.read + 1 && t.clients[c].start == k.start
            && t.clients[c].got == k.got + [s.readers[r].frames[k.read]]
            && (t.clients[c].covered <==> k.covered && Covered(s.readers[r]))
  {
  }

  /** A client can start wherever the numbering has got to, and connects through a reader at its cursor. */
  lemma ClientsComeExactly(cap: nat, s: Sys, step: Step, c: nat)
    ensures c in Apply(cap, s, step).clients <==> c in s.clients || (step.Open? && step.c == c && step.start <= s.counter)
    ensures step.Open? && step.c == c && c !in s.clients && step.start <= s.counter ==>
              Apply(cap, s, step).clients[c] == Client(step.start, step.start, [], None, 0, true)
    ensures step.Connect? && step.c == c && c in s.clients && step.r !in s.readers ==>
              var t := Apply(cap, s, step);
              && t.clients[c] == s.clients[c].(reader := Some(step.r), read := 0)
              && step.r in t.readers && t.readers[step.r].after == s.clients[c].last && Attached(t, step.r)
  {
    if ByReader(step) && step.r in s.readers { OwnKeepsClients(s, step.r, step); }
  }

  predicate ByReader(step: Step) {
    step.ReadCounter? || step.ReadLog? || step.PumpBacklog? || step.PumpLive? || step.Leave?
  }

  lemma OwnKeepsClients(s: Sys, r: nat, step: Step)
    requires r in s.readers
    ensures DoReader(s, r, step).clients == s.clients
  {
  }

  /** Steps that only take frames off c's connection. */
  predicate Receives(steps: seq<Step>, c: nat) {
    forall k :: 0 <= k < |steps| ==> steps[k] == Receive(c)
  }

  /** A client can take every frame its connection has sent, in order. */
  lemma {:induction false} ClientReceives(cap: nat, s: Sys, c: nat, r: nat) returns (steps: seq<Step>)
    requires Reachable(cap, s)
    requires c in s.clients && s.clients[c].reader == Some(r) && r in s.readers && s.clients[c].read <= |s.readers[r].frames|
    ensures var k, t := s.clients[c], From(cap, s, steps);
            && Receives(steps, c) && Reachable(cap, t) && t.readers == s.readers && t.history == s.history && t.wire == s.wire
            && c in t.clients && t.clients[c].start == k.start && t.clients[c].got == k.got + s.readers[r].frames[k.read..]
            && (t.clients[c].covered <==> k.covered && (k.read < |s.readers[r].frames| ==> Covered(s.readers[r])))
    decreases |s.readers[r].frames| - s.clients[c].read
  {
    var k, frames := s.clients[c], s.readers[r].frames;
    if k.read == |frames| {
      steps := [];
      assert k.got + frames[k.read..] == k.got;
    } else {
      OneReceived(cap, s, c, r);
      StepReachable(cap, s, Receive(c));
      var rest := ClientReceives(cap, Apply(cap, s, Receive(c)), c, r);
      FromMore(cap, s, Receive(c), rest);
      steps := [Receive(c)] + rest;
      assert k.got + [frames[k.read]] + frames[k.read + 1..] == k.got + frames[k.read..];
    }
  }

  /** The client has every event after its start that was dispatched, each once and in order. */
  ghost predicate HasAll(t: Sys, c: nat)
    requires c in t.clients
  {
    var k := t.clients[c];
    && k.start + |k.got| <= |t.history| && k.got == Stretch(t.history, k.start, k.start + |k.got|)
    && Dispatched(t) <= k.start + |k.got|
  }

  /** What there is to receive reaches as far as was dispatched. */
  lemma EnoughSent(s: Sys, c: nat, r: nat)
    requires SysInv(s) && c in s.clients && s.clients[c].reader == Some(r) && s.clients[c].covered
    requires Attached(s, r) && Drained(s.readers[r]) && Covered(s.readers[r])
    ensures var k := s.clients[c];
            k.read <= |s.readers[r].frames| && Dispatched(s) <= k.start + |k.got| + (|s.readers[r].frames| - k.read)
  {
    assert ClientOk(s, c) && ReaderAt(s, r);
    DrainedHasAll(s.history, Dispatched(s), s.readers[r]);
    GotReaches(s, s.clients[c], s.readers[r]);
  }

  /**
   A client whose connections were all covered, and whose present one is attached and drained, can
   come to have received every event after its start that was dispatched, each once and in order.
   */
  lemma ClientCatchesUp(cap: nat, s: Sys, c: nat, r: nat) returns (steps: seq<Step>)
    requires Reachable(cap, s)
    requires c in s.clients && s.clients[c].reader == Some(r) && s.clients[c].covered
    requires Attached(s, r) && Drained(s.readers[r]) && Covered(s.readers[r])
    ensures var t := From(cap, s, steps); Receives(steps, c) && Reachable(cap, t) && c in t.clients && HasAll(t, c)
  {
    ReachedInv(cap, s);
    EnoughSent(s, c, r);
    steps := ClientReceives(cap, s, c, r);
    var t := From(cap, s, steps);
    ReconnectionComposes(cap, t, c);
  }

  /** What a covered client has, and what its connection has yet to give it, reach as far as the connection does. */
  lemma GotReaches(s: Sys, k: Client, rd: Reader)
    requires Contiguous(s.history, rd) && k.covered && k.last == k.start + |k.got| && k.read <= |rd.frames|
    requires k.read == 0 ==> rd.after == k.last
    requires k.read > 0 ==> rd.frames[k.read - 1].id == k.last
    ensures k.start + |k.got| + (|rd.frames| - k.read) == rd.after + |rd.frames|
  {
    if k.read > 0 { assert rd.frames[k.read - 1] == Stretch(s.history, rd.after, rd.after + |rd.frames|)[k.read - 1]; }
  }

  // ---- what the log holds ---------------------------------------------------------

  /** How many events were published since the log was last cleared. */
  function Since(schedule: seq<Step>): nat {
    if schedule == [] then 0
    else
      var last := schedule[|schedule| - 1];
      if last.Clear? then 0
      else Since(schedule[..|schedule| - 1]) + if last.Publish? then 1 else 0
  }

  lemma LogLength(cap: nat, s: Sys, step: Step)
    ensures |Apply(cap, s, step).log| ==
            if step.Clear? then 0 else if step.Publish? then (if |s.log| + 1 <= cap then |s.log| + 1 else cap) else |s.log|
  {
    if ByReader(step) && step.r in s.readers { OwnKeepsLog(s, step.r, step); }
  }

  lemma OwnKeepsLog(s: Sys, r: nat, step: Step)
    requires r in s.readers
    ensures DoReader(s, r, step).log == s.log
  {
  }

  lemma {:induction false} LogIsAsLong(cap: nat, schedule: seq<Step>)
    ensures |Exec(cap, schedule).log| == if Since(schedule) <= cap then Since(schedule) else cap
  {
    if schedule != [] {
      LogIsAsLong(cap, schedule[..|schedule| - 1]);
      LogLength(cap, Exec(cap, schedule[..|schedule| - 1]), schedule[|schedule| - 1]);
    }
  }

  /** The log holds the last `cap` events since it was cleared, or all of them if they are fewer. */
  lemma LogHolds(cap: nat, schedule: seq<Step>)
    ensures var s := Exec(cap, schedule);
            && |s.log| == (if Since(schedule) <= cap then Since(schedule) else cap)
            && |s.log| <= |s.history| && s.log == Stretch(s.history, |s.history| - |s.log|, |s.history|)
  {
    Invariant(cap, schedule);
    LogIsAsLong(cap, schedule);
  }

  // ---- a reader's marks are what it saw -------------------------------------------

  /** Step j attaches r, asking for what comes after `asked`. */
  ghost predicate JoinedAt(cap: nat, schedule: seq<Step>, j: nat, r: nat, asked: nat) {
    && j < |schedule| && r !in Exec(cap, schedule[..j]).readers
    && match schedule[j]
       case Join(q, after) => q == r && asked == if after < 0 then 0 else after
       case Connect(c, q) => q == r && c in Exec(cap, schedule[..j]).clients && asked == Exec(cap, schedule[..j]).clients[c].last
       case _ => false
  }

  /** The offset is the one asked for, unless the counter was behind it when it was read, and 0 then. */
  ghost predicate CountedAt(cap: nat, schedule: seq<Step>, k: nat, r: nat, asked: nat, after: nat) {
    && k < |schedule| && schedule[k] == ReadCounter(r)
    && after == if asked <= Exec(cap, schedule[..k]).counter then asked else 0
  }

  /** Step i reads the log: everything published by then, but what is no longer in it. */
  ghost predicate ReadAt(cap: nat, schedule: seq<Step>, i: nat, r: nat, marks: Marks) {
    && i < |schedule| && schedule[i] == ReadLog(r)
    && marks.read == |Exec(cap, schedule[..i]).history| && |Exec(cap, schedule[..i]).log| <= marks.read
    && marks.lo == marks.read - |Exec(cap, schedule[..i]).log|
  }

  /** A step leaves a reader's stand alone, unless it is its own reading of counter or log. */
  lemma StandStays(cap: nat, s: Sys, step: Step, r: nat)
    requires r in s.readers
    requires !(step == ReadCounter(r) && s.readers[r].phase.Joined?) && !(step == ReadLog(r) && s.readers[r].phase.Counted?)
    ensures r in Apply(cap, s, step).readers && SameStand(s.readers[r], Apply(cap, s, step).readers[r])
    ensures var phase := Apply(cap, s, step).readers[r].phase; phase == s.readers[r].phase || phase.Ended?
    ensures s.readers[r].phase.Joined? || s.readers[r].phase.Counted? ==> Apply(cap, s, step).readers[r].frames == s.readers[r].frames
  {
  }

  lemma Prefixes(schedule: seq<Step>, n: nat, k: nat)
    requires k <= n <= |schedule|
    ensures schedule[..n][..k] == schedule[..k]
  {
  }

  lemma {:induction false} WhenJoined(cap: nat, schedule: seq<Step>, r: nat) returns (j: nat)
    requires r in Exec(cap, schedule).readers && Exec(cap, schedule).readers[r].phase.Joined?
    ensures JoinedAt(cap, schedule, j, r, Exec(cap, schedule).readers[r].after)
    ensures Exec(cap, schedule).readers[r].marks.join == Dispatched(Exec(cap, schedule[..j]))
  {
    var n := |schedule| - 1;
    var s := Exec(cap, schedule[..n]);
    if r in s.readers {
      StandStays(cap, s, schedule[n], r);
      j := WhenJoined(cap, schedule[..n], r);
      Prefixes(schedule, n, j);
    } else {
      j := n;
      NewStand(cap, s, schedule[n], r);
    }
  }

  /** A reader that appears stands where it asked to. */
  lemma NewStand(cap: nat, s: Sys, step: Step, r: nat)
    requires r !in s.readers && r in Apply(cap, s, step).readers
    ensures var rd := Apply(cap, s, step).readers[r];
            && rd.phase.Joined? && rd.marks.join == Dispatched(s) && rd.frames == []
            && match step
               case Join(q, after) => q == r && rd.after == if after < 0 then 0 else after
               case Connect(c, q) => q == r && c in s.clients && rd.after == s.clients[c].last
               case _ => false
  {
  }

  lemma {:induction false} WhenCounted(cap: nat, schedule: seq<Step>, r: nat) returns (j: nat, k: nat, asked: nat)
    requires r in Exec(cap, schedule).readers && Exec(cap, schedule).readers[r].phase.Counted?
    ensures var rd := Exec(cap, schedule).readers[r];
            && j < k && JoinedAt(cap, schedule, j, r, asked) && CountedAt(cap, schedule, k, r, asked, rd.after)
            && rd.marks.join == Dispatched(Exec(cap, schedule[..j]))
  {
    var n := |schedule| - 1;
    var s := Exec(cap, schedule[..n]);
    if r !in s.readers {
      NewStand(cap, s, schedule[n], r);
    } else if s.readers[r].phase.Joined? {
      if schedule[n] != ReadCounter(r) { StandStays(cap, s, schedule[n], r); }
      j := WhenJoined(cap, schedule[..n], r);
      k, asked := n, s.readers[r].after;
      Prefixes(schedule, n, j);
    } else {
      StandStays(cap, s, schedule[n], r);
      j, k, asked := WhenCounted(cap, schedule[..n], r);
      Prefixes(schedule, n, j);
      Prefixes(schedule, n, k);
    }
  }

  /** The reader has read its log. */
  predicate HasRead(rd: Reader) {
    rd.phase.Pumping? || (rd.phase.Ended? && rd.frames != [])
  }

  /**
   What a reader counts from is what it saw: it joined the fan-out, then read the counter, which
   fixed its offset, and then the log, which held exactly what its marks say.
   */
  lemma {:induction false} MarksAreTrue(cap: nat, schedule: seq<Step>, r: nat) returns (j: nat, k: nat, i: nat, asked: nat)
    requires r in Exec(cap, schedule).readers && HasRead(Exec(cap, schedule).readers[r])
    ensures var rd := Exec(cap, schedule).readers[r];
            && j < k < i && JoinedAt(cap, schedule, j, r, asked) && CountedAt(cap, schedule, k, r, asked, rd.after)
            && ReadAt(cap, schedule, i, r, rd.marks) && rd.marks.join == Dispatched(Exec(cap, schedule[..j]))
  {
    var n := |schedule| - 1;
    var s := Exec(cap, schedule[..n]);
    Invariant(cap, schedule[..n]);
    if r !in s.readers {
      NewStand(cap, s, schedule[n], r);
    } else if s.readers[r].phase.Counted? {
      assert ReaderAt(s, r);
      if schedule[n] != ReadLog(r) { StandStays(cap, s, schedule[n], r); }
      j, k, asked := WhenCounted(cap, schedule[..n], r);
      i := n;
      Prefixes(schedule, n, j);
      Prefixes(schedule, n, k);
    } else {
      assert ReaderAt(s, r);
      ReadStays(cap, s, schedule[n], r);
      j, k, i, asked := MarksAreTrue(cap, schedule[..n], r);
      Prefixes(schedule, n, j);
      Prefixes(schedule, n, k);
      Prefixes(schedule, n, i);
    }
  }

  /** A reader that has read its log, and was not about to, had read it before. */
  lemma ReadStays(cap: nat, s: Sys, step: Step, r: nat)
    requires r in s.readers && !s.readers[r].phase.Counted? && ReaderAt(s, r)
    requires r in Apply(cap, s, step).readers && HasRead(Apply(cap, s, step).readers[r])
    ensures HasRead(s.readers[r]) && SameStand(s.readers[r], Apply(cap, s, step).readers[r])
  {
    if !(s.readers[r].phase.Joined? && step == ReadCounter(r)) { StandStays(cap, s, step, r); }
  }

  /**
   So a reader's frames are the consecutive events after its offset whenever, at the moment it read
   the log, no more events were after the offset than fit the log and were published since it was
   last cleared.
   */
  lemma RecentIsExact(cap: nat, schedule: seq<Step>, r: nat) returns (i: nat)
    requires r in Exec(cap, schedule).readers && Exec(cap, schedule).readers[r].frames != []
    ensures var s := Exec(cap, schedule); var rd := s.readers[r];
            && i < |schedule| && schedule[i] == ReadLog(r)
            && (var n := |Exec(cap, schedule[..i]).history|;
                n <= rd.after + cap && n <= rd.after + Since(schedule[..i]) ==> Contiguous(s.history, rd))
  {
    var s := Exec(cap, schedule);
    assert Reachable(cap, s);
    ReachedInv(cap, s);
    assert ReaderAt(s, r);
    var j, k, asked;
    j, k, i, asked := MarksAreTrue(cap, schedule, r);
    LogHolds(cap, schedule[..i]);
    if s.readers[r].marks.lo <= s.readers[r].after { FullLogCovers(cap, s, r); }
    AttachIsExact(cap, s, r);
  }
}
