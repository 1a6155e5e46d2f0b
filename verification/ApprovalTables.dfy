/**
 The approval store as it runs: tables that each transaction updates row by row, committing
 at its end or not at all. Every method is proved against the transaction of the same name.
 */
module ApprovalTables {
  import opened Wrappers
  import opened ToolGate
  import opened ApprovalStore

  /** A sweep settles its candidates one by one; a store failure abandons the rest and the resumes gathered so far. */
  function Sweep(st: Store, ids: seq<nat>, faults: set<nat>, now: int): (Store, Option<seq<Start>>)
  {
    if ids == [] then (st, Some([]))
    else
      var last := |ids| - 1;
      match Sweep(st, ids[..last], faults, now)
      case (before, None) => (before, None)
      case (before, Some(starts)) =>
        if last in faults then (before, None)
        else if ids[last] !in before.actions then (before, Some(starts))
        else
          match Transition(before, before.actions[ids[last]].creator, "", ids[last], Expired, Absent, false, now)
          case Failure(AlreadyDecided) => (before, Some(starts))
          case Failure(NotFound) => (before, Some(starts))
          case Failure(_) => (before, None)
          case Success((after, None)) => (after, Some(starts))
          case Success((after, Some(start))) => (after, Some(starts + [start]))
  }

  predicate Overdue(st: Store, now: int, a: nat) {
    a in st.actions && st.actions[a].status.Pending? && st.actions[a].expiresAt <= now
  }

  /** At most `limit` overdue actions, earliest deadline first, leaving out none that is earlier than one of them. */
  ghost predicate OldestOverdue(st: Store, now: int, limit: nat, ids: seq<nat>) {
    && |ids| <= limit
    && (forall k :: 0 <= k < |ids| ==> Overdue(st, now, ids[k]))
    && (forall j, k :: 0 <= j < k < |ids| ==> ids[j] != ids[k] && st.actions[ids[j]].expiresAt <= st.actions[ids[k]].expiresAt)
    && (forall a :: Overdue(st, now, a) && a !in ids ==>
          |ids| == limit && forall k :: 0 <= k < |ids| ==> st.actions[ids[k]].expiresAt <= st.actions[a].expiresAt)
  }

  class PgStore {
    var runs: map<nat, Run>
    var messages: map<nat, Message>
    var actions: map<nat, Action>
    var audit: map<nat, seq<AuditEvent>>
    var nextId: nat

    ghost function State(): Store
      reads this
    {
      Store(runs, messages, actions, audit, nextId)
    }

    function Snapshot(): (st: Store)
      reads this
      ensures st == State()
    {
      Store(runs, messages, actions, audit, nextId)
    }

    method Commit(st: Store)
      modifies this
      ensures State() == st
    {
      runs, messages, actions, audit, nextId := st.runs, st.messages, st.actions, st.audit, st.nextId;
    }

    method PauseForApproval(user: nat, role: string, run: nat, calls: seq<Call>, requests: seq<Request>)
      returns (r: Result<seq<nat>, Error>)
      modifies this
      ensures match Pause(old(State()), user, role, run, calls, requests)
              case Failure(e) => r == Failure(e) && State() == old(State())
              case Success(st) => State() == st && r == Success(seq(|requests|, k requires 0 <= k < |requests| => old(nextId) + 1 + k))
    {
      if requests == [] {
        return Failure(NothingRequested);
      }
      if run !in runs || !runs[run].status.Running? {
        return Failure(RunNotRunning);
      }
      var message, tx := nextId, Snapshot();
      tx := tx.(messages := tx.messages[message := Message(run, calls)], nextId := message + 1);
      var parts := {};
      var j := 0;
      while j < |calls|
        invariant 0 <= j <= |calls|
        invariant forall id :: id in parts <==> HasPart(calls[..j], id)
      {
        assert calls[..j + 1] == calls[..j] + [calls[j]];
        parts := parts + {calls[j].id};
        j := j + 1;
      }
      assert calls[..j] == calls;
      tx := tx.(runs := tx.runs[run := tx.runs[run].(status := PausedApproval)]);
      ghost var parked := tx;
      assert parked == ParkedRun(State(), run, calls);
      var ids: seq<nat> := [];
      var i := 0;
      while i < |requests|
        invariant 0 <= i <= |requests|
        invariant State() == old(State())
        invariant InsertActions(parked, user, role, run, message, requests[..i]) == Success(tx)
        invariant tx.nextId == message + 1 + i && tx.messages == parked.messages
        invariant ids == seq(i, k requires 0 <= k < i => message + 1 + k)
      {
        var request := requests[i];
        assert requests[..i + 1][..i] == requests[..i];
        if request.call.id !in parts {
          InsertFails(parked, user, role, run, message, requests, i);
          return Failure(PartMissing);
        }
        if !request.call.arguments.Object? || CallTaken(tx, run, request.call.id) {
          InsertFails(parked, user, role, run, message, requests, i);
          return Failure(Constraint);
        }
        var id := tx.nextId;
        tx := tx.(actions := tx.actions[id := Action(run, message, user, role, request.call, Absent, Pending, None, request.expiresAt)],
                  audit := tx.audit[id := [Created]], nextId := id + 1);
        ids := ids + [id];
        i := i + 1;
      }
      assert requests[..i] == requests;
      Commit(tx);
      r := Success(ids);
    }

    method CountPending(run: nat) returns (n: nat)
      ensures n == 0 <==> !AwaitsDecision(State(), run)
    {
      var pending := set a | a in actions && actions[a].run == run && actions[a].status.Pending?;
      assert forall a :: a in pending <==> a in State().actions && State().actions[a].run == run && State().actions[a].status.Pending?;
      n := |pending|;
    }

    /** `transitionPendingAction`: decide or expire one action and, if it was the run's last, claim the resume. */
    method TransitionPendingAction(user: nat, role: string, id: nat, verdict: Status, edited: Json, human: bool, now: int)
      returns (r: Result<Option<Start>, Error>)
      modifies this
      ensures match Transition(old(State()), user, role, id, verdict, edited, human, now)
              case Failure(e) => r == Failure(e) && State() == old(State())
              case Success((st, start)) => State() == st && r == Success(start)
    {
      if id !in actions || id !in audit || actions[id].creator != user {
        return Failure(NotFound);
      }
      var current := actions[id];
      if !current.status.Pending? {
        return Failure(AlreadyDecided);
      }
      var status, edits, byHuman := verdict, edited, human;
      if current.expiresAt <= now {
        status, edits, byHuman := Expired, Absent, false;
      }
      if edits.Other? {
        return Failure(Constraint);
      }
      var updated := current.(status := status, edited := edits, decidedBy := if byHuman then Some(user) else None);
      if byHuman {
        updated := updated.(role := role);
      }
      assert updated == Decided(current, user, role, verdict, edited, human, now);
      actions := actions[id := updated];
      audit := audit[id := audit[id] + [Became(status)]];
      var start := ClaimResume(updated);
      return Success(start);
    }

    /** The last decision of a paused run lets the run go on and claims its resume. */
    method ClaimResume(a: Action) returns (start: Option<Start>)
      modifies this`runs
      ensures (State(), start) == LetGo(old(State()), a)
    {
      var pending := CountPending(a.run);
      if pending == 0 && a.run in runs && runs[a.run].status.PausedApproval? {
        runs := runs[a.run := runs[a.run].(status := Running)];
        return Some(Start(a.creator, a.role, a.run, a.message));
      }
      return None;
    }

    /** The candidates of a sweep, as its query returns them. */
    method OverdueActions(now: int, limit: nat) returns (ids: seq<nat>)
      ensures OldestOverdue(State(), now, limit, ids)
    {
      var rest := set a | a in actions && actions[a].status.Pending? && actions[a].expiresAt <= now;
      ids := [];
      while rest != {} && |ids| < limit
        invariant |ids| <= limit
        invariant forall k :: 0 <= k < |ids| ==> Overdue(State(), now, ids[k]) && ids[k] !in rest
        invariant forall a :: a in rest ==> Overdue(State(), now, a)
        invariant forall a :: Overdue(State(), now, a) ==> a in rest || a in ids
        invariant forall j, k :: 0 <= j < k < |ids| ==> ids[j] != ids[k] && actions[ids[j]].expiresAt <= actions[ids[k]].expiresAt
        invariant forall k, a :: 0 <= k < |ids| && a in rest ==> actions[ids[k]].expiresAt <= actions[a].expiresAt
        decreases |rest|
      {
        var first := Earliest(rest);
        ids, rest := ids + [first], rest - {first};
      }
    }

    method Earliest(rest: set<nat>) returns (first: nat)
      requires rest != {} && forall a :: a in rest ==> a in actions
      ensures first in rest && forall a :: a in rest ==> actions[first].expiresAt <= actions[a].expiresAt
    {
      first :| first in rest;
      var todo := rest - {first};
      while todo != {}
        invariant first in rest && todo <= rest
        invariant forall a :: a in rest && a !in todo ==> actions[first].expiresAt <= actions[a].expiresAt
        decreases |todo|
      {
        var a :| a in todo;
        if actions[a].expiresAt < actions[first].expiresAt {
          first := a;
        }
        todo := todo - {a};
      }
    }

    /** One transaction per candidate read; `faults` says at which of them the store fails. */
    method SettleOverdue(ids: seq<nat>, faults: set<nat>, now: int) returns (starts: Option<seq<Start>>)
      modifies this
      ensures (State(), starts) == Sweep(old(State()), ids, faults, now)
    {
      var gathered: seq<Start> := [];
      var i := 0;
      while i < |ids|
        invariant 0 <= i <= |ids|
        invariant Sweep(old(State()), ids[..i], faults, now) == (State(), Some(gathered))
      {
        assert ids[..i + 1][..i] == ids[..i];
        if i in faults {
          SweepFails(old(State()), ids, faults, now, i + 1);
          return None;
        }
        if ids[i] in actions {
          var r := TransitionPendingAction(actions[ids[i]].creator, "", ids[i], Expired, Absent, false, now);
          match r
          case Failure(AlreadyDecided) =>
          case Failure(NotFound) =>
          case Failure(_) =>
            SweepFails(old(State()), ids, faults, now, i + 1);
            return None;
          case Success(None) =>
          case Success(Some(start)) => gathered := gathered + [start];
        }
        i := i + 1;
      }
      assert ids[..i] == ids;
      return Some(gathered);
    }

    /** `ExpirePendingActions`: read the candidates, unless that fails, then settle them; `ids` are those read. */
    method ExpirePendingActions(limit: nat, readable: bool, faults: set<nat>, now: int) returns (starts: Option<seq<Start>>, ghost ids: seq<nat>)
      modifies this
      ensures !readable ==> State() == old(State()) && starts == None
      ensures readable ==> OldestOverdue(old(State()), now, limit, ids) && (State(), starts) == Sweep(old(State()), ids, faults, now)
    {
      ids := [];
      if !readable { return None, ids; }
      var candidates := OverdueActions(now, limit);
      starts := SettleOverdue(candidates, faults, now);
      ids := candidates;
    }

    method RecordApprovalOutcome(id: nat, outcome: Status) returns (ok: bool)
      modifies this
      ensures ok <==> old(id in actions && id in audit)
      ensures State() == if ok then RecordOutcome(old(State()), id, outcome) else old(State())
    {
      if id !in actions || id !in audit {
        return false;
      }
      if actions[id].status.Approved? {
        actions := actions[id := actions[id].(status := outcome)];
      }
      audit := audit[id := audit[id] + [Became(outcome)]];
      return true;
    }

    /** One audit row for each of these actions. */
    method AppendAudit(ids: set<nat>, event: AuditEvent)
      requires ids <= audit.Keys
      modifies this`audit
      ensures audit.Keys == old(audit).Keys
      ensures forall a :: a in audit ==> audit[a] == if a in ids then old(audit)[a] + [event] else old(audit)[a]
    {
      ghost var before := audit;
      var todo := ids;
      while todo != {}
        invariant todo <= ids && audit.Keys == before.Keys
        invariant forall a :: a in audit ==> audit[a] == if a in ids && a !in todo then before[a] + [event] else before[a]
        decreases |todo|
      {
        var a :| a in todo;
        audit := audit[a := audit[a] + [event]];
        todo := todo - {a};
      }
    }

    /** `CancelApprovalRun`: every action that could still run is rejected, one audit row each. */
    method CancelApprovalRun(user: nat, run: nat) returns (r: Result<(), Error>)
      requires actions.Keys == audit.Keys
      modifies this
      ensures match Cancel(old(State()), user, run)
              case Failure(e) => r == Failure(e) && State() == old(State())
              case Success(st) => State() == st && r == Success(())
    {
      if run !in runs || !runs[run].status.PausedApproval? || runs[run].owner != user {
        return Failure(NotFound);
      }
      ghost var before := State();
      var revoked := set a | a in actions && Revocable(Snapshot(), user, run, a);
      actions := map a | a in actions :: if a in revoked then actions[a].(status := Rejected, decidedBy := Some(user)) else actions[a];
      assert actions == Revoke(before, user, run).actions;
      AppendAudit(revoked, Became(Rejected));
      assert audit == Revoke(before, user, run).audit;
      FinishRun(run, Cancelled);
      return Success(());
    }

    method FinishRun(run: nat, status: RunStatus)
      modifies this`runs
      ensures State() == Finish(old(State()), run, status)
    {
      if run in runs && runs[run].status.Live() {
        runs := runs[run := runs[run].(status := status)];
      }
    }

    method RecoverStuckRuns() returns (failed: nat)
      modifies this`runs
      ensures State() == Recover(old(State()))
      ensures failed == |set r | r in old(runs) && old(runs)[r].status.Running?|
    {
      failed := |set r | r in runs && runs[r].status.Running?|;
      runs := map r | r in runs :: if runs[r].status.Running? then runs[r].(status := RunFailed) else runs[r];
    }

    /** The actions of one message, by call id. */
    method IndexByCall(listed: set<nat>) returns (byCall: map<string, nat>)
      requires forall a :: a in listed ==> a in actions
      ensures forall id :: id in byCall ==> byCall[id] in listed && actions[byCall[id]].call.id == id
      ensures forall a :: a in listed ==> actions[a].call.id in byCall
    {
      byCall := map[];
      var todo := listed;
      while todo != {}
        invariant todo <= listed
        invariant forall id :: id in byCall ==> byCall[id] in listed && actions[byCall[id]].call.id == id
        invariant forall a :: a in listed - todo ==> actions[a].call.id in byCall
        decreases |todo|
      {
        var a :| a in todo;
        byCall := byCall[actions[a].call.id := a];
        todo := todo - {a};
      }
    }

    /** `LoadApprovalBatch`: the calls of one message, paired with their actions by call id. */
    method LoadApprovalBatch(run: nat, message: nat) returns (r: Result<seq<BatchCall>, Error>)
      requires forall a, b :: a in actions && b in actions && a != b && actions[a].run == actions[b].run ==> actions[a].call.id != actions[b].call.id
      ensures r == LoadBatch(State(), run, message)
    {
      var listed := set a | a in actions && actions[a].run == run && actions[a].message == message;
      assert forall a :: a in listed <==> a in State().actions && State().actions[a].run == run && State().actions[a].message == message;
      if listed == {} || message !in messages {
        return Failure(NotFound);
      }
      var byCall := IndexByCall(listed);
      var calls, batch := messages[message].calls, [];
      for i := 0 to |calls|
        invariant |batch| == i
        invariant forall k :: 0 <= k < i ==> batch[k] == BatchCall(calls[k], Link(State(), run, message, calls[k].id))
      {
        var call := calls[i];
        var action := if call.id in byCall then Some(Linked(byCall[call.id], actions[byCall[call.id]])) else None;
        assert action == Link(State(), run, message, call.id) by {
          if call.id in byCall {
            assert Pairs(State(), run, message, call.id, byCall[call.id]);
          }
        }
        batch := batch + [BatchCall(call, action)];
      }
      assert batch == LoadBatch(State(), run, message).value;
      return Success(batch);
    }
  }

  /** A failed insert fails the whole pause. */
  lemma {:induction false} InsertFails(st: Store, user: nat, role: string, run: nat, message: nat, requests: seq<Request>, n: nat)
    requires n < |requests| && InsertActions(st, user, role, run, message, requests[..n]).Success?
    requires InsertAction(InsertActions(st, user, role, run, message, requests[..n]).value, user, role, run, message, requests[n]).Failure?
    ensures InsertActions(st, user, role, run, message, requests) ==
            Failure(InsertAction(InsertActions(st, user, role, run, message, requests[..n]).value, user, role, run, message, requests[n]).error)
    decreases |requests|
  {
    var shorter := requests[..|requests| - 1];
    if n < |requests| - 1 {
      assert shorter[..n] == requests[..n];
      InsertFails(st, user, role, run, message, shorter, n);
    }
  }

  lemma {:induction false} SweepFails(st: Store, ids: seq<nat>, faults: set<nat>, now: int, n: nat)
    requires n <= |ids| && Sweep(st, ids[..n], faults, now).1.None?
    ensures Sweep(st, ids, faults, now) == Sweep(st, ids[..n], faults, now)
    decreases |ids|
  {
    if n == |ids| {
      assert ids[..n] == ids;
    } else {
      assert ids[..|ids| - 1][..n] == ids[..n];
      SweepFails(st, ids[..|ids| - 1], faults, now, n);
    }
  }
}
