/** Attach is exact, reconnecting loses and repeats nothing, and the proviso under which that holds is the exact one. */
module StreamSafety {
  import opened Wrappers
  import opened StreamLog
  import opened StreamProtocol

  // ---- what holds of the server ----------------------------------------------

  ghost predicate ServerOk(s: Sys) {
    && s.counter == |s.history|
    && |s.log| <= |s.history| && s.log == Stretch(s.history, |s.history| - |s.log|, |s.history|)
    && |s.wire| <= |s.history| && s.wire == Stretch(s.history, |s.history| - |s.wire|, |s.history|)
  }

  // ---- what holds of a reader ------------------------------------------------

  function Max(a: nat, b: nat): nat {
    if a < b then b else a
  }

  /** The history between two positions, nothing when they are the wrong way round. */
  function Part(h: seq<string>, i: nat, j: nat): seq<Entry>
    requires j <= |h|
  {
    if i < j then Stretch(h, i, j) else []
  }

  /** Where the replay starts to count, and where the live feed does. */
  function ReplayFrom(rd: Reader): nat {
    Max(rd.after, rd.marks.lo)
  }

  function LiveFrom(rd: Reader): nat {
    Max(if rd.marks.read > ReplayFrom(rd) then rd.marks.read else rd.after, rd.marks.join)
  }

  /** What a reader has sent once it is through the log up to `replayed` and through the live feed up to `taken`. */
  function Sent(h: seq<string>, rd: Reader, replayed: nat, taken: nat): seq<Entry>
    requires replayed <= |h| && taken <= |h|
  {
    Part(h, ReplayFrom(rd), replayed) + Part(h, LiveFrom(rd), taken)
  }

  ghost predicate Pristine(rd: Reader) {
    rd.frames == [] && rd.backlog == [] && rd.marks.taken == rd.marks.join
  }

  ghost predicate Pumped(h: seq<string>, rd: Reader) {
    var m := rd.marks;
    && rd.after <= m.read <= |h| && m.lo <= m.replayed <= m.read && m.join <= m.read && m.taken <= |h|
    && rd.backlog == Stretch(h, m.replayed, m.read)
    && (m.replayed < m.read ==> m.taken == m.join)
    && rd.frames == Sent(h, rd, m.replayed, m.taken)
    && rd.high == (if m.taken > LiveFrom(rd) then m.taken else if m.replayed > ReplayFrom(rd) then m.replayed else rd.after)
  }

  ghost predicate BufferOk(h: seq<string>, dispatched: nat, rd: Reader) {
    var m := rd.marks;
    && dispatched <= |h| && m.join <= m.taken && m.taken + |rd.buffer| <= dispatched
    && rd.buffer == Stretch(h, m.taken, m.taken + |rd.buffer|)
    && (rd.registered ==> m.taken + |rd.buffer| == dispatched)
  }

  ghost predicate ReaderOk(h: seq<string>, dispatched: nat, rd: Reader) {
    && BufferOk(h, dispatched, rd)
    && match rd.phase
       case Joined => Pristine(rd)
       case Counted => Pristine(rd) && rd.after <= |h|
       case Pumping => Pumped(h, rd)
       case Ended => Pristine(rd) || Pumped(h, rd)
  }

  ghost predicate ReaderAt(s: Sys, r: nat) {
    r in s.readers ==> ReaderOk(s.history, Dispatched(s), s.readers[r])
  }

  // ---- steps of a reader -----------------------------------------------------

  lemma PartNext(h: seq<string>, i: nat, j: nat)
    requires j < |h|
    ensures Part(h, i, j + 1) == Part(h, i, j) + if i <= j then [Entry(j + 1, h[j])] else []
  {
    if i < j { StretchSplit(h, i, j, j + 1); }
  }

  lemma ReplaySends(h: seq<string>, rd: Reader)
    requires Pumped(h, rd) && rd.backlog != []
    ensures rd.backlog[0] == Entry(rd.marks.replayed + 1, h[rd.marks.replayed])
    ensures Replay(rd).frames == rd.frames + if ReplayFrom(rd) <= rd.marks.replayed then [rd.backlog[0]] else []
  {
    assert Part(h, LiveFrom(rd), rd.marks.taken) == [];
  }

  lemma ReplayKeeps(h: seq<string>, rd: Reader)
    requires Pumped(h, rd) && rd.backlog != []
    ensures Pumped(h, Replay(rd))
  {
    var m := rd.marks;
    var rd' := Replay(rd);
    ReplaySends(h, rd);
    StretchSplit(h, m.replayed, m.replayed + 1, m.read);
    assert ReplayFrom(rd') == ReplayFrom(rd) && LiveFrom(rd') == LiveFrom(rd);
    PartNext(h, ReplayFrom(rd), m.replayed);
    assert Part(h, LiveFrom(rd), m.taken) == [];
  }

  lemma FollowPumps(h: seq<string>, rd: Reader)
    requires Pumped(h, rd) && rd.backlog == [] && rd.marks.taken < |h|
    requires rd.buffer != [] && rd.buffer[0] == Entry(rd.marks.taken + 1, h[rd.marks.taken]) && rd.marks.join <= rd.marks.taken
    ensures Pumped(h, Follow(rd))
  {
    var m := rd.marks;
    var rd' := Follow(rd);
    assert m.replayed == m.read;
    assert LiveFrom(rd') == LiveFrom(rd) && ReplayFrom(rd') == ReplayFrom(rd);
    PartNext(h, LiveFrom(rd), m.taken);
    FollowSends(h, rd);
  }

  lemma FollowSends(h: seq<string>, rd: Reader)
    requires Pumped(h, rd) && rd.backlog == [] && rd.marks.taken < |h|
    requires rd.buffer != [] && rd.buffer[0] == Entry(rd.marks.taken + 1, h[rd.marks.taken]) && rd.marks.join <= rd.marks.taken
    ensures Follow(rd).frames == rd.frames + if LiveFrom(rd) <= rd.marks.taken then [rd.buffer[0]] else []
  {
  }

  lemma FollowBuffers(h: seq<string>, dispatched: nat, rd: Reader)
    requires BufferOk(h, dispatched, rd) && rd.backlog == [] && rd.buffer != []
    ensures BufferOk(h, dispatched, Follow(rd))
    ensures rd.marks.taken < |h| && rd.buffer[0] == Entry(rd.marks.taken + 1, h[rd.marks.taken])
  {
    StretchSplit(h, rd.marks.taken, rd.marks.taken + 1, rd.marks.taken + |rd.buffer|);
  }

  lemma SnapshotKeeps(s: Sys, rd: Reader)
    requires ServerOk(s) && ReaderOk(s.history, Dispatched(s), rd) && rd.phase.Counted?
    ensures ReaderOk(s.history, Dispatched(s), Snapshot(s, rd))
  {
  }

  /** The pump does not look at the buffer's own bookkeeping. */
  lemma PumpedSame(h: seq<string>, rd: Reader, rd': Reader)
    requires Pumped(h, rd) && rd' == rd.(registered := rd'.registered, buffer := rd'.buffer, phase := rd'.phase)
    ensures Pumped(h, rd')
  {
    assert ReplayFrom(rd') == ReplayFrom(rd) && LiveFrom(rd') == LiveFrom(rd);
  }

  lemma OfferBuffers(h: seq<string>, dispatched: nat, rd: Reader, entry: Entry)
    requires dispatched < |h| && BufferOk(h, dispatched, rd) && entry == Entry(dispatched + 1, h[dispatched])
    ensures BufferOk(h, dispatched + 1, Offer(rd, entry))
  {
    if rd.registered {
      StretchSplit(h, rd.marks.taken, dispatched, dispatched + 1);
      assert Stretch(h, dispatched, dispatched + 1) == [entry];
    }
  }

  lemma OfferKeeps(h: seq<string>, dispatched: nat, rd: Reader, entry: Entry)
    requires dispatched < |h| && ReaderOk(h, dispatched, rd) && entry == Entry(dispatched + 1, h[dispatched])
    ensures ReaderOk(h, dispatched + 1, Offer(rd, entry))
  {
    OfferBuffers(h, dispatched, rd, entry);
    if Pumped(h, rd) { PumpedSame(h, rd, Offer(rd, entry)); }
  }

  lemma PublishReader(h: seq<string>, dispatched: nat, rd: Reader, payload: string)
    requires ReaderOk(h, dispatched, rd)
    ensures ReaderOk(h + [payload], dispatched, rd)
  {
    var m := rd.marks;
    StretchGrows(h, payload, m.taken, m.taken + |rd.buffer|);
    if Pumped(h, rd) {
      StretchGrows(h, payload, m.replayed, m.read);
      if ReplayFrom(rd) < m.replayed { StretchGrows(h, payload, ReplayFrom(rd), m.replayed); }
      if LiveFrom(rd) < m.taken { StretchGrows(h, payload, LiveFrom(rd), m.taken); }
      assert Pumped(h + [payload], rd);
    }
  }

  lemma PublishLog(h: seq<string>, log: seq<Entry>, payload: string, cap: nat)
    requires |log| <= |h| && log == Stretch(h, |h| - |log|, |h|)
    ensures var log' := Trim(log + [Entry(|h| + 1, payload)], cap);
            |log'| <= |h| + 1 && log' == Stretch(h + [payload], |h| + 1 - |log'|, |h| + 1)
  {
    StretchGrows(h, payload, |h| - |log|, |h|);
    var full := log + [Entry(|h| + 1, payload)];
    var log' := Trim(full, cap);
    StretchSplit(h + [payload], |h| - |log|, |h| + 1 - |log'|, |h| + 1);
  }

  lemma PublishServer(s: Sys, payload: string, cap: nat)
    requires ServerOk(s)
    ensures ServerOk(DoPublish(s, payload, cap)) && Dispatched(DoPublish(s, payload, cap)) == Dispatched(s)
  {
    PublishLog(s.history, s.log, payload, cap);
    StretchGrows(s.history, payload, |s.history| - |s.wire|, |s.history|);
  }

  // ---- what a reader delivers ------------------------------------------------

  /** Frames are numbered upwards from above the offset, and each is the event of that number. */
  lemma FramesAreTrue(h: seq<string>, rd: Reader, j: nat, k: nat)
    requires Pumped(h, rd) && j < k < |rd.frames|
    ensures rd.after < rd.frames[j].id < rd.frames[k].id <= |h|
    ensures rd.frames[j].payload == h[rd.frames[j].id - 1] && rd.frames[k].payload == h[rd.frames[k].id - 1]
  {
  }

  lemma FrameIsTrue(h: seq<string>, rd: Reader, k: nat)
    requires Pumped(h, rd) && k < |rd.frames|
    ensures rd.after < rd.frames[k].id <= |h| && rd.frames[k].payload == h[rd.frames[k].id - 1]
  {
  }

  /** Covered readers deliver one contiguous stretch from their offset on. */
  lemma CoveredIsContiguous(h: seq<string>, rd: Reader, replayed: nat, taken: nat)
    requires rd.after <= rd.marks.read <= |h| && rd.marks.lo <= rd.marks.read && rd.marks.join <= rd.marks.read
    requires replayed <= rd.marks.read && taken <= |h| && (replayed < rd.marks.read ==> taken == rd.marks.join)
    requires Covered(rd)
    ensures var f := Sent(h, rd, replayed, taken);
            rd.after + |f| <= |h| && f == Stretch(h, rd.after, rd.after + |f|)
  {
    var m := rd.marks;
    if m.read > ReplayFrom(rd) && m.read < taken {
      StretchSplit(h, rd.after, m.read, taken);
    }
  }

  /** Uncovered readers miss an event right at the start. */
  lemma UncoveredSkips(h: seq<string>, rd: Reader)
    requires Pumped(h, rd) && !Covered(rd) && rd.frames != []
    ensures rd.frames[0].id > rd.after + 1
  {
    var m := rd.marks;
    if m.replayed > ReplayFrom(rd) {
      assert rd.frames[0] == Stretch(h, ReplayFrom(rd), m.replayed)[0];
    } else {
      assert rd.frames[0] == Stretch(h, LiveFrom(rd), m.taken)[0];
    }
  }

  // ---- clients ---------------------------------------------------------------

  ghost predicate ClientOk(s: Sys, c: nat) {
    c in s.clients ==>
      var k := s.clients[c];
      && k.start + |k.got| <= k.last <= |s.history|
      && (k.covered ==> k.last == k.start + |k.got| && k.got == Stretch(s.history, k.start, k.last))
      && (!k.covered ==> k.last > k.start + |k.got|)
      && (k.reader.Some? ==>
            && k.reader.value in s.readers
            && var rd := s.readers[k.reader.value];
               && k.read <= |rd.frames|
               && (k.read == 0 ==> rd.after == k.last)
               && (k.read > 0 ==> rd.frames[k.read - 1].id == k.last && (k.covered ==> Covered(rd))))
  }

  ghost predicate SysInv(s: Sys) {
    && ServerOk(s)
    && (forall r {:trigger ReaderAt(s, r)} :: ReaderAt(s, r))
    && (forall c {:trigger ClientOk(s, c)} :: ClientOk(s, c))
  }

  /** A reader moved on without taking back a frame, its offset, or what it covers. */
  ghost predicate MovesOn(rd: Reader, rd': Reader) {
    && rd.frames <= rd'.frames && (rd.frames != [] ==> Covered(rd') == Covered(rd)) && rd'.after == rd.after
  }

  lemma ClientFrame(s: Sys, s': Sys, c: nat)
    requires ClientOk(s, c) && (c in s'.clients ==> c in s.clients && s'.clients[c] == s.clients[c])
    requires s.history <= s'.history
    requires c in s.clients && s.clients[c].reader.Some? ==>
               var r := s.clients[c].reader.value;
               r in s.readers ==> r in s'.readers && (MovesOn(s.readers[r], s'.readers[r]) || Waiting(s.counter, s.readers[r], s'.readers[r]))
    requires s.counter == |s.history|
    ensures ClientOk(s', c)
  {
    if c in s'.clients {
      var k := s.clients[c];
      if k.covered {
        assert s'.history[..|s.history|] == s.history;
        assert Stretch(s'.history, k.start, k.last) == Stretch(s.history, k.start, k.last);
      }
    }
  }

  /** A reader that has sent nothing yet keeps any offset that is not stale. */
  ghost predicate Waiting(counter: nat, rd: Reader, rd': Reader) {
    rd.frames == [] && rd'.frames == [] && (rd.after <= counter ==> rd'.after == rd.after)
  }

  ghost predicate Moved(s: Sys, s': Sys, r: nat) {
    r in s.readers ==> r in s'.readers && (MovesOn(s.readers[r], s'.readers[r]) || Waiting(s.counter, s.readers[r], s'.readers[r]))
  }

  /** The readers moved on and nothing else happened to the clients. */
  lemma ReadersMove(s: Sys, s': Sys)
    requires SysInv(s) && ServerOk(s') && s'.clients == s.clients && s.history <= s'.history
    requires forall r {:trigger ReaderAt(s', r)} :: ReaderAt(s', r)
    requires forall r {:trigger Moved(s, s', r)} :: Moved(s, s', r)
    ensures SysInv(s')
  {
    forall c ensures ClientOk(s', c) {
      assert ClientOk(s, c);
      assert c in s.clients && s.clients[c].reader.Some? ==> Moved(s, s', s.clients[c].reader.value);
      ClientFrame(s, s', c);
    }
  }

  lemma ReaderStepKeeps(s: Sys, r: nat, rd': Reader)
    requires SysInv(s) && r in s.readers && ReaderOk(s.history, Dispatched(s), rd')
    requires MovesOn(s.readers[r], rd') || Waiting(s.counter, s.readers[r], rd')
    ensures SysInv(WithReader(s, r, rd'))
  {
    var s' := WithReader(s, r, rd');
    forall q ensures ReaderAt(s', q) { assert ReaderAt(s, q); }
    forall q ensures Moved(s, s', q) { }
    ReadersMove(s, s');
  }

  lemma EmitMovesOn(rd: Reader, entry: Entry)
    ensures MovesOn(rd, Emit(rd, entry))
  {
  }

  lemma ReplayMoves(s: Sys, r: nat)
    requires SysInv(s) && r in s.readers && s.readers[r].phase.Pumping?
    ensures SysInv(WithReader(s, r, Replay(s.readers[r])))
  {
    var rd := s.readers[r];
    assert ReaderAt(s, r);
    if rd.backlog != [] {
      ReplayKeeps(s.history, rd);
      EmitMovesOn(rd, rd.backlog[0]);
    }
    ReaderStepKeeps(s, r, Replay(rd));
  }

  lemma FollowMoves(s: Sys, r: nat)
    requires SysInv(s) && r in s.readers && s.readers[r].phase.Pumping?
    ensures SysInv(WithReader(s, r, Follow(s.readers[r])))
  {
    var rd := s.readers[r];
    assert ReaderAt(s, r);
    if rd.backlog == [] {
      if rd.buffer != [] {
        FollowBuffers(s.history, Dispatched(s), rd);
        FollowPumps(s.history, rd);
        EmitMovesOn(rd, rd.buffer[0]);
      } else {
        PumpedSame(s.history, rd, Follow(rd));
      }
    }
    ReaderStepKeeps(s, r, Follow(rd));
  }

  lemma LeaveKeeps(s: Sys, r: nat)
    requires SysInv(s) && r in s.readers
    ensures SysInv(WithReader(s, r, s.readers[r].(phase := Ended, registered := false)))
  {
    var rd := s.readers[r];
    var rd' := rd.(phase := Ended, registered := false);
    assert ReaderAt(s, r);
    if Pumped(s.history, rd) { PumpedSame(s.history, rd, rd'); }
    ReaderStepKeeps(s, r, rd');
  }

  lemma DoReaderKeeps(s: Sys, r: nat, step: Step)
    requires SysInv(s) && r in s.readers
    ensures SysInv(DoReader(s, r, step))
  {
    var rd := s.readers[r];
    assert ReaderAt(s, r);
    match (step, rd.phase)
    case (ReadCounter(_), Joined) => ReaderStepKeeps(s, r, Count(s, rd));
    case (ReadLog(_), Counted) =>
      SnapshotKeeps(s, rd);
      ReaderStepKeeps(s, r, Snapshot(s, rd));
    case (PumpBacklog(_), Pumping) => ReplayMoves(s, r);
    case (PumpLive(_), Pumping) => FollowMoves(s, r);
    case (Leave(_), _) => LeaveKeeps(s, r);
    case _ =>
  }

  lemma ReceiveClient(s: Sys, c: nat)
    requires SysInv(s) && c in s.clients
    ensures ClientOk(DoReceive(s, c), c)
  {
    var k := s.clients[c];
    assert ClientOk(s, c);
    if k.reader.Some? && k.read < |s.readers[k.reader.value].frames| {
      var rd := s.readers[k.reader.value];
      assert ReaderAt(s, k.reader.value);
      ReceivedFrame(s.history, rd, k.read);
      if k.covered && Covered(rd) {
        StretchSplit(s.history, k.start, k.last, k.last + 1);
        assert Stretch(s.history, k.last, k.last + 1) == [rd.frames[k.read]];
      }
    }
  }

  lemma ReceiveKeeps(s: Sys, c: nat)
    requires SysInv(s) && c in s.clients
    ensures SysInv(DoReceive(s, c))
  {
    var s' := DoReceive(s, c);
    ReceiveClient(s, c);
    forall r ensures ReaderAt(s', r) { assert ReaderAt(s, r); }
    forall d ensures ClientOk(s', d) {
      assert ClientOk(s, d);
      if d != c { ClientFrame(s, s', d); }
    }
  }

  /** The next frame follows the previous one immediately, unless it is the first of an uncovered reader. */
  lemma ReceivedFrame(h: seq<string>, rd: Reader, k: nat)
    requires Pumped(h, rd) && k < |rd.frames|
    ensures var before := if k == 0 then rd.after else rd.frames[k - 1].id;
            && before < rd.frames[k].id <= |h|
            && (Covered(rd) ==> rd.frames[k] == Entry(before + 1, h[before]))
            && (!Covered(rd) && k == 0 ==> rd.frames[k].id > before + 1)
  {
    FrameIsTrue(h, rd, k);
    if k > 0 { FramesAreTrue(h, rd, k - 1, k); }
    if Covered(rd) {
      CoveredFrame(h, rd, k);
    } else if k == 0 {
      UncoveredSkips(h, rd);
    }
  }

  /** A covered reader's k-th frame is the k-th event after its offset. */
  lemma CoveredFrame(h: seq<string>, rd: Reader, k: nat)
    requires Pumped(h, rd) && Covered(rd) && k < |rd.frames|
    ensures rd.after + |rd.frames| <= |h| && rd.frames[k] == Entry(rd.after + k + 1, h[rd.after + k])
    ensures k > 0 ==> rd.frames[k - 1].id == rd.after + k
  {
    CoveredIsContiguous(h, rd, rd.marks.replayed, rd.marks.taken);
    var f := rd.frames;
    assert f == Stretch(h, rd.after, rd.after + |f|);
  }

  lemma NewReaderKeeps(s: Sys, r: nat, after: nat)
    requires SysInv(s) && r !in s.readers
    ensures SysInv(WithReader(s, r, NewReader(s, after)))
  {
    var s' := WithReader(s, r, NewReader(s, after));
    forall q ensures ReaderAt(s', q) { assert ReaderAt(s, q); }
    forall q ensures Moved(s, s', q) { }
    ReadersMove(s, s');
  }

  lemma PublishKeeps(cap: nat, s: Sys, payload: string)
    requires SysInv(s)
    ensures SysInv(DoPublish(s, payload, cap))
  {
    var s' := DoPublish(s, payload, cap);
    PublishServer(s, payload, cap);
    forall r ensures ReaderAt(s', r) {
      assert ReaderAt(s, r);
      if r in s.readers { PublishReader(s.history, Dispatched(s), s.readers[r], payload); }
    }
    forall r ensures Moved(s, s', r) { }
    ReadersMove(s, s');
  }

  lemma DispatchKeeps(s: Sys)
    requires SysInv(s)
    ensures SysInv(DoDispatch(s))
  {
    if s.wire != [] {
      var s' := DoDispatch(s);
      StretchSplit(s.history, Dispatched(s), Dispatched(s) + 1, |s.history|);
      assert s.wire[0] == Entry(Dispatched(s) + 1, s.history[Dispatched(s)]);
      forall r ensures ReaderAt(s', r) {
        assert ReaderAt(s, r);
        if r in s.readers { OfferKeeps(s.history, Dispatched(s), s.readers[r], s.wire[0]); }
      }
      forall r ensures Moved(s, s', r) { }
      ReadersMove(s, s');
    }
  }

  lemma CloseAllKeeps(cap: nat, s: Sys)
    requires SysInv(s)
    ensures SysInv(Apply(cap, s, CloseAll))
  {
    var s' := Apply(cap, s, CloseAll);
    forall r ensures ReaderAt(s', r) {
      assert ReaderAt(s, r);
      if r in s.readers && Pumped(s.history, s.readers[r]) { PumpedSame(s.history, s.readers[r], s'.readers[r]); }
    }
    forall r ensures Moved(s, s', r) { }
    ReadersMove(s, s');
  }

  lemma ConnectKeeps(cap: nat, s: Sys, c: nat, r: nat)
    requires SysInv(s)
    ensures SysInv(Apply(cap, s, Connect(c, r)))
  {
    if c in s.clients && r !in s.readers {
      var s1 := WithReader(s, r, NewReader(s, s.clients[c].last));
      var s' := Apply(cap, s, Connect(c, r));
      NewReaderKeeps(s, r, s.clients[c].last);
      forall q ensures ReaderAt(s', q) { assert ReaderAt(s1, q); }
      forall d ensures ClientOk(s', d) { assert ClientOk(s1, d); }
    }
  }

  lemma ApplyKeeps(cap: nat, s: Sys, step: Step)
    requires SysInv(s)
    ensures SysInv(Apply(cap, s, step))
  {
    var s' := Apply(cap, s, step);
    match step
    case Publish(payload) => PublishKeeps(cap, s, payload);
    case Clear =>
      forall r ensures ReaderAt(s', r) { assert ReaderAt(s, r); }
      ReadersMove(s, s');
    case Dispatch => DispatchKeeps(s);
    case Join(r, after) => if r !in s.readers { NewReaderKeeps(s, r, if after < 0 then 0 else after); }
    case CloseAll => CloseAllKeeps(cap, s);
    case Open(c, start) =>
      forall r ensures ReaderAt(s', r) { assert ReaderAt(s, r); }
      forall d ensures ClientOk(s', d) { assert ClientOk(s, d); }
    case Connect(c, r) => ConnectKeeps(cap, s, c, r);
    case Receive(c) => if c in s.clients { ReceiveKeeps(s, c); }
    case _ => if step.r in s.readers { DoReaderKeeps(s, step.r, step); }
  }

  lemma {:induction false} Invariant(cap: nat, schedule: seq<Step>)
    ensures SysInv(Exec(cap, schedule))
  {
    if schedule != [] {
      Invariant(cap, schedule[..|schedule| - 1]);
      ApplyKeeps(cap, Exec(cap, schedule[..|schedule| - 1]), schedule[|schedule| - 1]);
    }
  }

  /** Some schedule leads to this state. */
  ghost predicate Reachable(cap: nat, s: Sys) {
    exists schedule: seq<Step> :: s == Exec(cap, schedule)
  }

  lemma ReachedInv(cap: nat, s: Sys)
    requires Reachable(cap, s)
    ensures SysInv(s)
  {
    var schedule: seq<Step> :| s == Exec(cap, schedule);
    Invariant(cap, schedule);
  }

  lemma ReachedPumped(cap: nat, s: Sys, r: nat)
    requires Reachable(cap, s)
    requires r in s.readers && s.readers[r].frames != []
    ensures Pumped(s.history, s.readers[r]) && BufferOk(s.history, Dispatched(s), s.readers[r])
  {
    ReachedInv(cap, s);
    assert ReaderAt(s, r);
  }

  lemma PartGrows(h: seq<string>, i: nat, j: nat, k: nat)
    requires j <= k <= |h|
    ensures Part(h, i, j) <= Part(h, i, k)
  {
    if i < j { StretchSplit(h, i, j, k); }
  }

  lemma SentGrows(h: seq<string>, dispatched: nat, rd: Reader)
    requires Pumped(h, rd) && BufferOk(h, dispatched, rd)
    ensures rd.frames <= Sent(h, rd, rd.marks.read, dispatched)
  {
    var m := rd.marks;
    PartGrows(h, ReplayFrom(rd), m.replayed, m.read);
    PartGrows(h, LiveFrom(rd), m.taken, dispatched);
    if m.replayed < m.read {
      assert Part(h, LiveFrom(rd), m.taken) == [];
    }
  }

  // ---- the promises ----------------------------------------------------------

  /** Frames are strictly increasing, above the effective offset, and each is the event of its number. */
  ghost predicate InOrder(h: seq<string>, rd: Reader) {
    && (forall j, k :: 0 <= j < k < |rd.frames| ==> rd.frames[j].id < rd.frames[k].id)
    && (forall k :: 0 <= k < |rd.frames| ==> rd.after < rd.frames[k].id <= |h| && rd.frames[k].payload == h[rd.frames[k].id - 1])
  }

  lemma PumpedInOrder(h: seq<string>, rd: Reader)
    requires Pumped(h, rd)
    ensures InOrder(h, rd)
  {
    forall j, k | 0 <= j < k < |rd.frames| ensures rd.frames[j].id < rd.frames[k].id { FramesAreTrue(h, rd, j, k); }
    forall k | 0 <= k < |rd.frames| ensures rd.after < rd.frames[k].id <= |h| && rd.frames[k].payload == h[rd.frames[k].id - 1] {
      FrameIsTrue(h, rd, k);
    }
  }

  lemma FramesAreHistory(cap: nat, s: Sys, r: nat)
    requires Reachable(cap, s)
    requires r in s.readers
    ensures InOrder(s.history, s.readers[r])
  {
    if s.readers[r].frames != [] {
      ReachedPumped(cap, s, r);
      PumpedInOrder(s.history, s.readers[r]);
    }
  }

  /** The frames are the consecutive events after the offset. */
  ghost predicate Contiguous(h: seq<string>, rd: Reader) {
    rd.after + |rd.frames| <= |h| && rd.frames == Stretch(h, rd.after, rd.after + |rd.frames|)
  }

  lemma PumpedIsExact(h: seq<string>, rd: Reader)
    requires Pumped(h, rd) && rd.frames != []
    ensures Covered(rd) <==> Contiguous(h, rd)
  {
    if Covered(rd) {
      CoveredIsContiguous(h, rd, rd.marks.replayed, rd.marks.taken);
    } else {
      UncoveredSkips(h, rd);
      FirstOfStretch(h, rd);
    }
  }

  lemma FirstOfStretch(h: seq<string>, rd: Reader)
    requires rd.frames != []
    ensures Contiguous(h, rd) ==> rd.frames[0].id == rd.after + 1
  {
  }

  /** They are the consecutive events after the offset exactly when the log or the live feed left nothing out. */
  lemma AttachIsExact(cap: nat, s: Sys, r: nat)
    requires Reachable(cap, s)
    requires r in s.readers
    ensures var rd := s.readers[r];
            rd.frames != [] ==> (Covered(rd) <==> Contiguous(s.history, rd))
  {
    if s.readers[r].frames != [] {
      ReachedPumped(cap, s, r);
      PumpedIsExact(s.history, s.readers[r]);
    }
  }

  /** In particular, when the log still held every event after the offset at the moment it was read. */
  lemma FullLogCovers(cap: nat, s: Sys, r: nat)
    requires Reachable(cap, s)
    requires r in s.readers && s.readers[r].frames != [] && s.readers[r].marks.lo <= s.readers[r].after
    ensures Covered(s.readers[r])
  {
    ReachedPumped(cap, s, r);
  }

  /** A covered reader that is still attached and has caught up has delivered everything after its offset. */
  lemma NothingIsMissing(cap: nat, s: Sys, r: nat)
    requires Reachable(cap, s)
    requires r in s.readers && s.wire == []
             && var rd := s.readers[r]; rd.phase.Pumping? && rd.registered && rd.backlog == [] && rd.buffer == [] && Covered(rd)
    ensures var rd := s.readers[r];
            rd.after <= |s.history| && rd.frames == Stretch(s.history, rd.after, |s.history|)
  {
    ReachedInv(cap, s);
    assert ReaderAt(s, r);
    CoveredIsContiguous(s.history, s.readers[r], s.readers[r].marks.replayed, s.readers[r].marks.taken);
  }

  /** A dropped reader loses only a tail of what it would have sent had it kept up. */
  lemma DroppedReadersLoseATail(cap: nat, s: Sys, r: nat)
    requires Reachable(cap, s)
    requires r in s.readers && s.readers[r].frames != []
    ensures var rd := s.readers[r];
            && rd.marks.read <= |s.history| && Dispatched(s) <= |s.history|
            && rd.frames <= Sent(s.history, rd, rd.marks.read, Dispatched(s))
            && (rd.registered && rd.backlog == [] && rd.buffer == [] ==> rd.frames == Sent(s.history, rd, rd.marks.read, Dispatched(s)))
  {
    ReachedPumped(cap, s, r);
    SentGrows(s.history, Dispatched(s), s.readers[r]);
  }

  /**
   However often a client is cut off and reconnects with its last id, what it received is one
   contiguous stretch of the history, with no loss and no repeat, exactly when every connection
   it received from was covered.
   */
  lemma ReconnectionComposes(cap: nat, s: Sys, c: nat)
    requires Reachable(cap, s)
    requires c in s.clients
    ensures var k := s.clients[c];
            k.covered <==> k.start + |k.got| <= |s.history| && k.got == Stretch(s.history, k.start, k.start + |k.got|)
  {
    ReachedInv(cap, s);
    assert ClientOk(s, c);
    var schedule: seq<Step> :| s == Exec(cap, schedule);
    LastIsLast(cap, schedule, c);
  }

  ghost predicate CursorOk(s: Sys, c: nat) {
    c in s.clients ==>
      var k := s.clients[c];
      k.last == if k.got == [] then k.start else k.got[|k.got| - 1].id
  }

  lemma CursorStep(cap: nat, s: Sys, step: Step, c: nat)
    requires CursorOk(s, c)
    ensures CursorOk(Apply(cap, s, step), c)
  {
  }

  /** A client's cursor is the id of the last frame it received. */
  lemma {:induction false} LastIsLast(cap: nat, schedule: seq<Step>, c: nat)
    ensures CursorOk(Exec(cap, schedule), c)
  {
    if schedule != [] {
      LastIsLast(cap, schedule[..|schedule| - 1], c);
      CursorStep(cap, Exec(cap, schedule[..|schedule| - 1]), schedule[|schedule| - 1], c);
    }
  }
}
