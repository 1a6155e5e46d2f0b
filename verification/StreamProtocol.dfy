/**
 Replay plus live fan-out as a state machine. Publishers run the atomic script, the shared
 subscriber dispatches messages one by one, readers attach in three steps and then pump, and
 clients reconnect with the last id they received (section 9.2 of the WHATWG HTML Standard).
 */
module StreamProtocol {
  import opened Wrappers
  import opened StreamLog

  const SubscriberBuffer := 256

  datatype Phase = Joined | Counted | Pumping | Ended

  /**
   Where a reader stood: events dispatched before it joined, the log it read (everything after
   `lo` up to `read`), how far it has worked through that log, and how far through the live feed.
   */
  datatype Marks = Marks(join: nat, lo: nat, read: nat, replayed: nat, taken: nat)

  datatype Reader = Reader(
    phase: Phase, after: nat, registered: bool, buffer: seq<Entry>, backlog: seq<Entry>,
    high: nat, frames: seq<Entry>, marks: Marks)

  /** A browser: where it started, what it received, and the connection it holds. */
  datatype Client = Client(start: nat, last: nat, got: seq<Entry>, reader: Option<nat>, read: nat, covered: bool)

  datatype Sys = Sys(
    history: seq<string>, counter: nat, log: seq<Entry>, wire: seq<Entry>,
    readers: map<nat, Reader>, clients: map<nat, Client>)

  datatype Step =
    | Publish(payload: string)
    | Clear
    | Dispatch
    | Join(r: nat, after: int)
    | ReadCounter(r: nat)
    | ReadLog(r: nat)
    | PumpBacklog(r: nat)
    | PumpLive(r: nat)
    | Leave(r: nat)
    | CloseAll
    | Open(c: nat, start: nat)
    | Connect(c: nat, r: nat)
    | Receive(c: nat)

  const Init := Sys([], 0, [], [], map[], map[])

  // ---- the server ------------------------------------------------------------

  /** `publishChunk`: number, append, trim and fan out in one evaluation. */
  function DoPublish(s: Sys, payload: string, cap: nat): Sys {
    var entry := Entry(s.counter + 1, payload);
    s.(history := s.history + [payload], counter := s.counter + 1, log := Trim(s.log + [entry], cap), wire := s.wire + [entry])
  }

  /** `deliver` to one reader: a reader whose buffer is full is dropped. */
  function Offer(rd: Reader, entry: Entry): Reader {
    if !rd.registered then rd
    else if |rd.buffer| < SubscriberBuffer then rd.(buffer := rd.buffer + [entry])
    else rd.(registered := false)
  }

  function DoDispatch(s: Sys): Sys {
    if s.wire == [] then s
    else s.(wire := s.wire[1..], readers := map r | r in s.readers :: Offer(s.readers[r], s.wire[0]))
  }

  function Dispatched(s: Sys): nat {
    if |s.wire| <= |s.history| then |s.history| - |s.wire| else 0
  }

  function NewReader(s: Sys, after: nat): Reader {
    Reader(Joined, after, true, [], [], 0, [], Marks(Dispatched(s), 0, 0, 0, Dispatched(s)))
  }

  // ---- one reader ------------------------------------------------------------

  /** An offset ahead of the counter is stale: replay starts from the beginning of the log. */
  function Count(s: Sys, rd: Reader): Reader {
    rd.(phase := Counted, after := if rd.after > 0 && s.counter < rd.after then 0 else rd.after)
  }

  function Snapshot(s: Sys, rd: Reader): Reader {
    var lo := if |s.log| <= |s.history| then |s.history| - |s.log| else 0;
    rd.(phase := Pumping, backlog := s.log, high := rd.after,
        marks := rd.marks.(lo := lo, read := |s.history|, replayed := lo))
  }

  /** One entry of the replay or of the live feed: anything at or below `high` was delivered already. */
  function Emit(rd: Reader, entry: Entry): Reader {
    if entry.id <= rd.high then rd else rd.(frames := rd.frames + [entry], high := entry.id)
  }

  function Replay(rd: Reader): Reader {
    if rd.backlog == [] then rd
    else Emit(rd, rd.backlog[0]).(backlog := rd.backlog[1..], marks := rd.marks.(replayed := rd.marks.replayed + 1))
  }

  /** After the backlog: forward what is buffered, and end once the buffer is closed and drained. */
  function Follow(rd: Reader): Reader {
    if rd.backlog != [] then rd
    else if rd.buffer != [] then
      Emit(rd, rd.buffer[0]).(buffer := rd.buffer[1..], marks := rd.marks.(taken := rd.marks.taken + 1))
    else if rd.registered then rd
    else rd.(phase := Ended)
  }

  /** The log the reader read, or the live feed it had joined, left out nothing after its offset. */
  predicate Covered(rd: Reader) {
    var m := rd.marks;
    if m.lo < m.read then m.lo <= rd.after || rd.after == m.read else m.join <= rd.after
  }

  // ---- schedules -------------------------------------------------------------

  function WithReader(s: Sys, r: nat, rd: Reader): Sys {
    s.(readers := s.readers[r := rd])
  }

  function DoReader(s: Sys, r: nat, step: Step): Sys
    requires r in s.readers
  {
    var rd := s.readers[r];
    match (step, rd.phase)
    case (ReadCounter(_), Joined) => WithReader(s, r, Count(s, rd))
    case (ReadLog(_), Counted) => WithReader(s, r, Snapshot(s, rd))
    case (PumpBacklog(_), Pumping) => WithReader(s, r, Replay(rd))
    case (PumpLive(_), Pumping) => WithReader(s, r, Follow(rd))
    case (Leave(_), _) => WithReader(s, r, rd.(phase := Ended, registered := false))
    case _ => s
  }

  /** A client takes the next frame of its connection. */
  function DoReceive(s: Sys, c: nat): Sys
    requires c in s.clients
  {
    var k := s.clients[c];
    if k.reader.None? || k.reader.value !in s.readers || |s.readers[k.reader.value].frames| <= k.read then s
    else
      var rd := s.readers[k.reader.value];
      var frame := rd.frames[k.read];
      s.(clients := s.clients[c := k.(got := k.got + [frame], last := frame.id, read := k.read + 1, covered := k.covered && Covered(rd))])
  }

  function Apply(cap: nat, s: Sys, step: Step): Sys {
    match step
    case Publish(payload) => DoPublish(s, payload, cap)
    case Clear => s.(log := [])
    case Dispatch => DoDispatch(s)
    case Join(r, after) => if r in s.readers then s else WithReader(s, r, NewReader(s, if after < 0 then 0 else after))
    case CloseAll => s.(readers := map r | r in s.readers :: s.readers[r].(registered := false))
    case Open(c, start) =>
      if c in s.clients || start > s.counter then s
      else s.(clients := s.clients[c := Client(start, start, [], None, 0, true)])
    case Connect(c, r) =>
      if c !in s.clients || r in s.readers then s
      else
        var s1 := WithReader(s, r, NewReader(s, s.clients[c].last));
        s1.(clients := s1.clients[c := s1.clients[c].(reader := Some(r), read := 0)])
    case Receive(c) => if c in s.clients then DoReceive(s, c) else s
    case _ => if step.r in s.readers then DoReader(s, step.r, step) else s
  }

  function Exec(cap: nat, schedule: seq<Step>): Sys {
    if schedule == [] then Init else Apply(cap, Exec(cap, schedule[..|schedule| - 1]), schedule[|schedule| - 1])
  }
}
