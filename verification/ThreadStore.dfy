/**
 The thread's rows updated in place, and the two callers that start runs from them. Between any two
 of their store calls, other goroutines may take any steps; each call is then a run of the protocol.
 */
module ThreadStore {
  import opened Wrappers
  import opened RunQueue

  // ---- the store -------------------------------------------------------------

  predicate Ascending(s: seq<nat>) {
    forall i, j :: 0 <= i < j < |s| ==> s[i] < s[j]
  }

  class PgStore {
    const createdAt: nat -> int
    var queued: set<nat>
    var answered: seq<nat>
    var live: Option<Live>
    ghost var queue: seq<nat>

    /** The queued messages in the order they were persisted, which is that of their creation times. */
    ghost predicate Valid()
      reads this
    {
      && (forall m: nat, n: nat :: m < n ==> createdAt(m) < createdAt(n))
      && Ascending(queue) && (forall m :: m in queued <==> m in queue)
    }

    ghost function State(): Rows
      reads this
    {
      Rows(queue, answered, live)
    }

    constructor (createdAt: nat -> int)
      requires forall m: nat, n: nat :: m < n ==> createdAt(m) < createdAt(n)
      ensures Valid() && State() == Rows([], [], None)
    {
      this.createdAt := createdAt;
      queued, answered, live, queue := {}, [], None, [];
    }

    method PersistMessage(message: nat)
      requires Valid() && forall m :: m in queue ==> m < message
      modifies this
      ensures Valid() && State() == Persist(old(State()), message)
    {
      SnocAscends(queue, message);
      queued, queue := queued + {message}, queue + [message];
    }

    method InsertRun(run: nat) returns (ok: bool)
      requires Valid()
      modifies this`live
      ensures Valid() && (State(), ok) == RunQueue.InsertRun(old(State()), run)
    {
      ok := live.None?;
      if ok { live := Some(Live(run, false)); }
    }

    /** Whether `ListQueued` returns anything. */
    method HasQueued() returns (some: bool)
      requires Valid()
      ensures some <==> queue != []
    {
      SameEmpty(queue, queued);
      some := queued != {};
    }

    /** The earliest created of some messages. */
    method Oldest(messages: set<nat>) returns (oldest: nat)
      requires messages != {}
      ensures oldest in messages && forall m :: m in messages ==> createdAt(oldest) <= createdAt(m)
    {
      oldest :| oldest in messages;
      var todo := messages - {oldest};
      while todo != {}
        invariant oldest in messages && todo <= messages
        invariant forall m :: m in messages && m !in todo ==> createdAt(oldest) <= createdAt(m)
        decreases |todo|
      {
        var m :| m in todo;
        if createdAt(m) < createdAt(oldest) { oldest := m; }
        todo := todo - {m};
      }
    }

    /** The earliest created message is promoted; `None` is the source's `ErrQueueEmpty`. */
    method PromoteOldestQueued() returns (message: Option<nat>)
      requires Valid()
      modifies this
      ensures Valid() && (State(), message.Some?) == Promote(old(State()))
      ensures message.Some? ==> message.value == old(queue)[0]
    {
      SameEmpty(queue, queued);
      if queued == {} { return None; }
      var oldest := Oldest(queued);
      assert queue[0] in queued && oldest in queue;
      assert oldest == queue[0] by {
        var k :| 0 <= k < |queue| && queue[k] == oldest;
        assert createdAt(oldest) <= createdAt(queue[0]);
      }
      HeadOnly(queue);
      queued, answered, queue := queued - {oldest}, answered + [oldest], queue[1..];
      message := Some(oldest);
    }

    method FinishRun(run: nat)
      requires Valid()
      modifies this`live
      ensures Valid() && State() == RunQueue.FinishRun(old(State()), run)
    {
      if live.Some? && live.value.run == run { live := None; }
    }

    method DeleteQueued(message: nat)
      requires Valid()
      modifies this
      ensures Valid() && State() == RunQueue.DeleteQueued(old(State()), message)
    {
      WithoutOne(queue, message);
      queued, queue := queued - {message}, Without(queue, message);
    }

    /** What other goroutines leave behind. */
    method Become(rows: Rows)
      requires Valid() && Ascending(rows.queue)
      modifies this
      ensures Valid() && State() == rows
    {
      queued := set k | 0 <= k < |rows.queue| :: rows.queue[k];
      queue, answered, live := rows.queue, rows.answered, rows.live;
    }
  }

  lemma SameEmpty(s: seq<nat>, members: set<nat>)
    requires forall m :: m in members <==> m in s
    ensures members == {} <==> s == []
  {
    if s != [] { assert s[0] in members; }
  }

  lemma HeadOnly(s: seq<nat>)
    requires s != [] && Ascending(s)
    ensures Ascending(s[1..]) && s[0] !in s[1..] && forall m :: m in s[1..] <==> m in s && m != s[0]
  {
    assert s == [s[0]] + s[1..];
  }

  lemma SnocAscends(s: seq<nat>, last: nat)
    requires Ascending(s) && forall x :: x in s ==> x < last
    ensures Ascending(s + [last])
  {
    forall i, j | 0 <= i < j < |s + [last]| ensures (s + [last])[i] < (s + [last])[j] {
      if j == |s| { assert s[i] in s; }
    }
  }

  lemma ConsAscends(h: nat, t: seq<nat>)
    requires Ascending(t) && forall x :: x in t ==> h < x
    ensures Ascending([h] + t)
  {
    var s := [h] + t;
    forall i, j | 0 <= i < j < |s| ensures s[i] < s[j] {
      assert s[j] == t[j - 1] && t[j - 1] in t;
    }
  }

  lemma {:induction false} WithoutOne(s: seq<nat>, m: nat)
    requires Ascending(s)
    ensures Ascending(Without(s, m)) && forall x :: x in Without(s, m) <==> x in s && x != m
  {
    if s != [] {
      HeadOnly(s);
      WithoutOne(s[1..], m);
      var rest := Without(s[1..], m);
      forall x | x in rest ensures s[0] < x {
        var k :| 0 <= k < |s[1..]| && s[1..][k] == x;
        assert s[0] < s[k + 1];
      }
      ConsAscends(s[0], rest);
    }
  }

  // ---- other goroutines ------------------------------------------------------

  function From(s: Sys, schedule: seq<Step>): Sys {
    if schedule == [] then s else Apply(From(s, schedule[..|schedule| - 1]), schedule[|schedule| - 1])
  }

  lemma FromStep(s: Sys, schedule: seq<Step>, step: Step)
    ensures From(s, schedule + [step]) == Apply(From(s, schedule), step)
  {
    assert (schedule + [step])[..|schedule|] == schedule;
  }

  lemma {:induction false} FromConcat(s: Sys, first: seq<Step>, second: seq<Step>)
    ensures From(s, first + second) == From(From(s, first), second)
    decreases |second|
  {
    if second == [] {
      assert first + second == first;
    } else {
      var front, step := second[..|second| - 1], second[|second| - 1];
      FromConcat(s, first, front);
      FromStep(s, first + front, step);
      assert first + second == (first + front) + [step];
    }
  }

  predicate NotBy(step: Step, p: nat) {
    (step.Advance? || step.Pause?) ==> step.p != p
  }

  /** Steps of other goroutines only. */
  predicate Foreign(steps: seq<Step>, p: nat) {
    forall k :: 0 <= k < |steps| ==> NotBy(steps[k], p)
  }

  lemma ForeignMove(s: Sys, step: Step, p: nat)
    requires p in s.procs && p < s.nextProc && NotBy(step, p)
    ensures var s' := Apply(s, step); p in s'.procs && s'.procs[p] == s.procs[p]
  {
    match step
    case Advance(q) => if q in s.procs { ForeignAdvance(s, q, p); }
    case _ =>
  }

  lemma ForeignAdvance(s: Sys, q: nat, p: nat)
    requires p in s.procs && q in s.procs && p != q
    ensures var s' := DoAdvance(s, q); p in s'.procs && s'.procs[p] == s.procs[p]
  {
  }

  lemma ForeignStep(s: Sys, step: Step, p: nat)
    requires SysInv(s) && p in s.procs && NotBy(step, p)
    ensures var s' := Apply(s, step); SysInv(s') && p in s'.procs && s'.procs[p] == s.procs[p]
  {
    assert ProcOk(s, p);
    ForeignMove(s, step, p);
    ApplyKeeps(s, step);
  }

  lemma {:induction false} ForeignSteps(s: Sys, steps: seq<Step>, p: nat)
    requires SysInv(s) && p in s.procs && Foreign(steps, p)
    ensures var s' := From(s, steps); SysInv(s') && p in s'.procs && s'.procs[p] == s.procs[p]
  {
    if steps != [] {
      ForeignSteps(s, steps[..|steps| - 1], p);
      ForeignStep(From(s, steps[..|steps| - 1]), steps[|steps| - 1], p);
    }
  }

  lemma QueueAscends(s: Sys)
    requires SysInv(s)
    ensures Ascending(s.rows.queue) && forall m :: m in s.rows.queue ==> m < |s.sent|
  {
    forall k | 0 <= k < |s.rows.queue| ensures s.rows.queue[k] == |s.rows.answered| + k {
      assert s.sent[|s.rows.answered| + k] == s.rows.queue[k];
    }
  }

  /** Empty promotions are counted, never forgotten. */
  lemma {:induction false} EmptiedOn(s: Sys, steps: seq<Step>)
    ensures s.emptied <= From(s, steps).emptied
  {
    if steps != [] { EmptiedOn(s, steps[..|steps| - 1]); }
  }

  /** The store holds the system's rows, and goroutine p is at pc. */
  ghost predicate Tracks(store: PgStore, s: Sys, p: nat, pc: Pc)
    reads store
  {
    SysInv(s) && store.Valid() && store.State() == s.rows && p in s.procs && s.procs[p] == pc
  }

  /** While p waits, the others take these steps. */
  method Meanwhile(store: PgStore, s: Sys, p: nat, ghost pc: Pc, steps: seq<Step>) returns (s': Sys)
    requires Tracks(store, s, p, pc) && Foreign(steps, p)
    modifies store
    ensures s' == From(s, steps) && Tracks(store, s', p, pc)
  {
    ForeignSteps(s, steps, p);
    s' := From(s, steps);
    QueueAscends(s');
    store.Become(s'.rows);
  }

  // ---- the two callers -------------------------------------------------------

  /** One step of p in the protocol, which its store call has just taken. */
  lemma OwnStep(s: Sys, p: nat)
    requires SysInv(s) && p in s.procs
    ensures SysInv(Apply(s, Advance(p)))
  {
    ApplyKeeps(s, Advance(p));
  }

  /** `InsertRun` as p's step. */
  method TryRun(store: PgStore, s: Sys, p: nat, ghost pc: Pc) returns (s': Sys, ok: bool)
    requires Tracks(store, s, p, pc) && (pc.Persisted? || pc.Trying?)
    modifies store
    ensures s' == Apply(s, Advance(p)) && SysInv(s') && store.Valid() && store.State() == s'.rows
    ensures ok ==> Tracks(store, s', p, if pc.Persisted? then Inserted(pc.message, s.nextRun) else NextInserted(s.nextRun))
    ensures !ok ==> p !in s'.procs
    ensures ok <==> s.rows.live.None?
  {
    OwnStep(s, p);
    ok := store.InsertRun(s.nextRun);
    s' := Apply(s, Advance(p));
  }

  /** `PromoteOldestQueued` as p's step. */
  method TryPromotion(store: PgStore, s: Sys, p: nat, run: nat, ghost pc: Pc) returns (s': Sys, promoted: Option<nat>)
    requires Tracks(store, s, p, pc) && (pc.Inserted? || pc.NextInserted?) && pc.run == run
    modifies store
    ensures s' == Apply(s, Advance(p))
    ensures promoted == if s.rows.queue == [] then None else Some(s.rows.queue[0])
    ensures Tracks(store, s', p, if promoted.Some? then Starting(run) else if pc.Inserted? then Cleaning(pc.message, run) else NextCleaning(run))
  {
    OwnStep(s, p);
    promoted := store.PromoteOldestQueued();
    s' := Apply(s, Advance(p));
  }

  /** `FinishRun` as p's step of cleaning up. */
  method CleanUp(store: PgStore, s: Sys, p: nat, run: nat, ghost pc: Pc) returns (s': Sys)
    requires Tracks(store, s, p, pc) && (pc.Cleaning? || pc.NextCleaning?) && pc.run == run
    modifies store
    ensures s' == Apply(s, Advance(p)) && SysInv(s') && store.Valid() && store.State() == s'.rows
    ensures pc.Cleaning? ==> Tracks(store, s', p, Withdrawing(pc.message))
    ensures pc.NextCleaning? ==> p !in s'.procs
  {
    OwnStep(s, p);
    store.FinishRun(run);
    s' := Apply(s, Advance(p));
  }

  /** The schedule so far leads from s0 to s. */
  ghost predicate Led(s0: Sys, schedule: seq<Step>, s: Sys) {
    From(s0, schedule) == s
  }

  lemma LedBy(s0: Sys, schedule: seq<Step>, s: Sys, step: Step)
    requires Led(s0, schedule, s)
    ensures Led(s0, schedule + [step], Apply(s, step))
  {
    FromStep(s0, schedule, step);
  }

  lemma LedOn(s0: Sys, schedule: seq<Step>, s: Sys, steps: seq<Step>)
    requires Led(s0, schedule, s)
    ensures Led(s0, schedule + steps, From(s, steps))
  {
    FromConcat(s0, schedule, steps);
  }

  /** A holder that has promoted starts its run; one that has not cleans up, withdrawing its own message if it sent one. */
  method AfterInsert(store: PgStore, s: Sys, p: nat, ghost pc: Pc, run: nat, message: Option<nat>, others: nat -> seq<Step>)
    returns (s': Sys, promoted: Option<nat>, ghost schedule: seq<Step>)
    requires Tracks(store, s, p, pc) && (pc.Inserted? || pc.NextInserted?) && pc.run == run
    requires message == if pc.Inserted? then Some(pc.message) else None
    requires forall k :: Foreign(others(k), p)
    modifies store
    ensures Led(s, schedule, s') && SysInv(s') && store.Valid() && store.State() == s'.rows
    ensures promoted.Some? ==> p in s'.procs && s'.procs[p] == Starting(run) && promoted.value in s'.rows.answered
    ensures promoted.None? ==> p !in s'.procs && s.emptied < s'.emptied
    ensures var found := From(s, others(1)); promoted == if found.rows.queue == [] then None else Some(found.rows.queue[0])
  {
    EmptiedOn(s, others(1));
    s' := Meanwhile(store, s, p, pc, others(1));
    schedule := others(1);
    LedOn(s, [], s, others(1));
    assert [] + others(1) == others(1);
    LedBy(s, schedule, s', Advance(p));
    schedule := schedule + [Advance(p)];
    s', promoted := TryPromotion(store, s', p, run, pc);
    if promoted.Some? { return; }
    var s2, more := CleanAway(store, s', p, if pc.Inserted? then Cleaning(pc.message, run) else NextCleaning(run), run, message, others);
    LedOn(s, schedule, s', more);
    s', schedule := s2, schedule + more;
  }

  /** The branch for `ErrQueueEmpty`. */
  method CleanAway(store: PgStore, s: Sys, p: nat, ghost pc: Pc, run: nat, message: Option<nat>, others: nat -> seq<Step>)
    returns (s': Sys, ghost schedule: seq<Step>)
    requires Tracks(store, s, p, pc) && (pc.Cleaning? || pc.NextCleaning?) && pc.run == run
    requires message == if pc.Cleaning? then Some(pc.message) else None
    requires forall k :: Foreign(others(k), p)
    modifies store
    ensures Led(s, schedule, s') && SysInv(s') && store.Valid() && store.State() == s'.rows && p !in s'.procs
    ensures s.emptied <= s'.emptied
  {
    EmptiedOn(s, others(2));
    s' := Meanwhile(store, s, p, pc, others(2));
    LedOn(s, [], s, others(2));
    assert [] + others(2) == others(2);
    LedBy(s, others(2), s', Advance(p));
    schedule := others(2) + [Advance(p)];
    s' := CleanUp(store, s', p, run, pc);
    if message.None? { return; }
    LedOn(s, schedule, s', others(3));
    EmptiedOn(s', others(3));
    schedule := schedule + others(3);
    s' := Meanwhile(store, s', p, Withdrawing(message.value), others(3));
    LedBy(s, schedule, s', Advance(p));
    schedule := schedule + [Advance(p)];
    OwnStep(s', p);
    store.DeleteQueued(message.value);
    s' := Apply(s', Advance(p));
  }

  /** The answer to a send: its message runs, it waits, or the source's `ErrQueueEmpty`. */
  datatype Reply = Running | Queued | QueueEmpty

  /** The state a send tries to take the thread in. */
  function TriedIn(s: Sys, others: nat -> seq<Step>): Sys {
    From(Apply(s, Step.Send), others(0))
  }

  /** And the one its promotion finds, if it took it. */
  function FoundIn(s: Sys, others: nat -> seq<Step>): Sys {
    From(Apply(TriedIn(s, others), Advance(s.nextProc)), others(1))
  }

  /** It took the thread, and its promotion moved this message. */
  ghost predicate Promotes(s: Sys, others: nat -> seq<Step>, message: nat) {
    TriedIn(s, others).rows.live.None? && FoundIn(s, others).rows.queue != [] && FoundIn(s, others).rows.queue[0] == message
  }

  /** It took the thread, and its promotion found nothing. */
  ghost predicate FindsNone(s: Sys, others: nat -> seq<Step>) {
    TriedIn(s, others).rows.live.None? && FoundIn(s, others).rows.queue == []
  }

  /** With nobody in between, the message of a send runs at once exactly if the thread was free and nothing was queued. */
  lemma UninterruptedReply(s: Sys, others: nat -> seq<Step>)
    requires SysInv(s) && s.nextProc !in s.procs && others(0) == [] && others(1) == []
    ensures Promotes(s, others, |s.sent|) <==> s.rows.live.None? && s.rows.queue == []
    ensures !FindsNone(s, others)
  {
    var tried := Apply(s, Step.Send);
    assert TriedIn(s, others) == tried;
    if s.rows.live.None? {
      assert FoundIn(s, others).rows.queue == s.rows.queue + [|s.sent|];
      QueueAscends(s);
      if s.rows.queue != [] { assert s.rows.queue[0] in s.rows.queue; }
    }
  }

  /**
   `Send`, with other goroutines between its store calls: it is a run of the protocol. Its reply is
   `Running` exactly when it took the thread and its own promotion moved its own message, so that
   its run is about to start; the error exactly when that promotion found the queue empty; and
   `Queued` otherwise.
   */
  method Send(store: PgStore, s: Sys, others: nat -> seq<Step>) returns (s': Sys, reply: Reply, ghost schedule: seq<Step>)
    requires SysInv(s) && store.Valid() && store.State() == s.rows && s.nextProc !in s.procs
    requires forall k :: Foreign(others(k), s.nextProc)
    modifies store
    ensures Led(s, schedule, s') && SysInv(s') && store.Valid() && store.State() == s'.rows
    ensures reply.Running? <==> Promotes(s, others, |s.sent|)
    ensures reply.QueueEmpty? <==> FindsNone(s, others)
    ensures reply.Running? ==> s.nextProc in s'.procs && s'.procs[s.nextProc].Starting? && |s.sent| in s'.rows.answered
    ensures s.nextProc in s'.procs <==> TriedIn(s, others).rows.live.None? && FoundIn(s, others).rows.queue != []
    ensures s.nextProc in s'.procs ==> s'.procs[s.nextProc].Starting?
    ensures reply.QueueEmpty? ==> s.emptied < s'.emptied
  {
    var p, message := s.nextProc, |s.sent|;
    QueueAscends(s);
    ApplyKeeps(s, Step.Send);
    LedBy(s, [], s, Step.Send);
    store.PersistMessage(message);
    s' := Apply(s, Step.Send);
    schedule := [Step.Send];
    assert [] + [Step.Send] == [Step.Send];
    LedOn(s, schedule, s', others(0));
    EmptiedOn(s', others(0));
    schedule := schedule + others(0);
    s' := Meanwhile(store, s', p, Persisted(message), others(0));
    LedBy(s, schedule, s', Advance(p));
    schedule := schedule + [Advance(p)];
    var run := s'.nextRun;
    var ok;
    s', ok := TryRun(store, s', p, Persisted(message));
    if !ok { return s', Queued, schedule; }
    var s2, promoted, more := AfterInsert(store, s', p, Inserted(message, run), run, Some(message), others);
    LedOn(s, schedule, s', more);
    s', schedule := s2, schedule + more;
    reply := if promoted.None? then QueueEmpty else if promoted.value == message then Running else Queued;
  }

  /** `startNext` after its goroutine finished a run, with other goroutines between its store calls. */
  method StartNext(store: PgStore, s: Sys, p: nat, others: nat -> seq<Step>) returns (s': Sys, started: bool, ghost schedule: seq<Step>)
    requires Tracks(store, s, p, Looking)
    requires forall k :: Foreign(others(k), p)
    modifies store
    ensures Led(s, schedule, s') && SysInv(s') && store.Valid() && store.State() == s'.rows
    ensures started <==> p in s'.procs
    ensures started ==> s'.procs[p].Starting?
  {
    OwnStep(s, p);
    LedBy(s, [], s, Advance(p));
    s' := Apply(s, Advance(p));
    schedule := [Advance(p)];
    assert [] + [Advance(p)] == [Advance(p)];
    var waiting := store.HasQueued();
    if !waiting { return s', false, schedule; }
    LedOn(s, schedule, s', others(0));
    schedule := schedule + others(0);
    s' := Meanwhile(store, s', p, Trying, others(0));
    LedBy(s, schedule, s', Advance(p));
    schedule := schedule + [Advance(p)];
    var run := s'.nextRun;
    var ok;
    s', ok := TryRun(store, s', p, Trying);
    if !ok { return s', false, schedule; }
    var s2, promoted, more := AfterInsert(store, s', p, NextInserted(run), run, None, others);
    LedOn(s, schedule, s', more);
    s', schedule := s2, schedule + more;
    started := promoted.Some?;
  }

  // ---- nobody in between -----------------------------------------------------

  /** What a send leaves when nobody interferes: the oldest message is promoted if the thread was free. */
  function AfterSend(rows: Rows, message: nat, run: nat): Rows {
    var r := Persist(rows, message);
    if r.live.Some? then r
    else Rows(r.queue[1..], r.answered + [r.queue[0]], Some(Live(run, false)))
  }

  /** What looking for the next message leaves when nobody interferes. */
  function AfterNext(rows: Rows, run: nat): Rows {
    if rows.queue == [] || rows.live.Some? then rows
    else Rows(rows.queue[1..], rows.answered + [rows.queue[0]], Some(Live(run, false)))
  }

  /** A send nobody interrupts is three steps of its goroutine, or two when the thread is busy. */
  lemma SendIsARun(s: Sys)
    requires s.nextProc !in s.procs
    ensures var t := Apply(Apply(Apply(s, Step.Send), Advance(s.nextProc)), Advance(s.nextProc));
            && t.rows == AfterSend(s.rows, |s.sent|, s.nextRun)
            && t.procs == (if s.rows.live.Some? then s.procs else s.procs[s.nextProc := Starting(s.nextRun)])
            && t.emptied == s.emptied
  {
    var p := s.nextProc;
    var t1 := Apply(s, Step.Send);
    var t2 := Apply(t1, Advance(p));
    if s.rows.live.Some? {
      assert t2.procs == s.procs;
    } else {
      assert t2.procs == s.procs[p := Inserted(|s.sent|, s.nextRun)];
      assert Apply(t2, Advance(p)).procs == s.procs[p := Starting(s.nextRun)];
    }
  }

  /** Nor can a finisher nobody interrupts promote from an empty queue: three steps are `AfterNext`. */
  lemma NextIsARun(s: Sys, p: nat)
    requires p in s.procs && s.procs[p].Looking?
    ensures var t := Apply(Apply(Apply(s, Advance(p)), Advance(p)), Advance(p));
            && t.rows == AfterNext(s.rows, s.nextRun)
            && t.procs == (if s.rows.queue == [] || s.rows.live.Some? then s.procs - {p} else s.procs[p := Starting(s.nextRun)])
            && t.emptied == s.emptied
  {
    var t1 := Apply(s, Advance(p));
    var t2 := Apply(t1, Advance(p));
    if s.rows.queue == [] {
      assert t1.procs == s.procs - {p} && t2 == t1;
    } else if s.rows.live.Some? {
      assert t2.procs == s.procs - {p};
    } else {
      assert t2.procs == s.procs[p := NextInserted(s.nextRun)];
      assert Apply(t2, Advance(p)).procs == s.procs[p := Starting(s.nextRun)];
    }
  }
}
