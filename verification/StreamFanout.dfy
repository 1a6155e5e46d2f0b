/**
 The two mutable ends of the stream: the keys the publishing script updates, and the
 in-process fan-out that hands every message to the readers attached on this node.
 */
module StreamFanout {
  import opened StreamLog
  import opened StreamProtocol

  /** The three keys of one thread. Clearing keeps the counter: it is the thread's numbering. */
  class ThreadKeys {
    var counter: nat
    var log: seq<Entry>
    var channel: seq<Entry>

    constructor ()
      ensures counter == 0 && log == [] && channel == []
    {
      counter, log, channel := 0, [], [];
    }

    /** The keys as the protocol's server, given what was published and who reads. */
    ghost function Server(h: seq<string>, readers: map<nat, Reader>, clients: map<nat, Client>): Sys
      reads this
    {
      Sys(h, counter, log, channel, readers, clients)
    }

    method PublishChunk(payload: string, cap: nat) returns (id: nat)
      modifies this
      ensures id == counter == old(counter) + 1
      ensures log == Trim(old(log) + [Entry(id, payload)], cap)
      ensures channel == old(channel) + [Entry(id, payload)]
      ensures forall h, readers, clients :: Server(h + [payload], readers, clients) == DoPublish(old(Server(h, readers, clients)), payload, cap)
    {
      counter := counter + 1;
      id := counter;
      var entry := Entry(id, payload);
      log := log + [entry];
      if |log| > cap {
        log := log[|log| - cap..];
      }
      channel := channel + [entry];
    }

    method Clear()
      modifies this`log
      ensures log == []
    {
      log := [];
    }
  }

  /** One attached reader: its buffered channel, and the flag that guards closing it. */
  class Slot {
    const thread: nat
    var envelope: seq<Entry>
    var closed: bool
    var channelClosed: bool

    constructor (thread: nat)
      ensures this.thread == thread && envelope == [] && !closed && !channelClosed
    {
      this.thread, envelope, closed, channelClosed := thread, [], false, false;
    }

    /** Sending on a closed channel is a panic. */
    method Send(entry: Entry)
      requires !channelClosed && |envelope| < SubscriberBuffer
      modifies this`envelope
      ensures envelope == old(envelope) + [entry]
    {
      envelope := envelope + [entry];
    }

    /** Closing a closed channel is a panic. */
    method CloseChannel()
      requires !channelClosed
      modifies this`channelClosed
      ensures channelClosed
    {
      channelClosed := true;
    }

    /** `closeLocked`: closes at most once, whoever calls it and however often. */
    method CloseLocked()
      requires closed == channelClosed
      modifies this`closed, this`channelClosed
      ensures closed && channelClosed
    {
      if closed {
        return;
      }
      closed := true;
      CloseChannel();
    }
  }

  class Fanout {
    var readers: map<nat, set<Slot>>

    ghost function Objects(): set<Slot>
      reads this
    {
      set t, rd | t in readers && rd in readers[t] :: rd
    }

    /** The readers of one thread. */
    ghost function On(t: nat): set<Slot>
      reads this
    {
      if t in readers then readers[t] else {}
    }

    predicate Registered(rd: Slot)
      reads this
    {
      rd.thread in readers && rd in readers[rd.thread]
    }

    /** Every registered reader is open and filed under its own thread, and no thread is kept without readers. */
    ghost predicate Valid()
      reads this, Objects()
    {
      forall t :: t in readers ==>
        readers[t] != {} && forall rd :: rd in readers[t] ==> rd.thread == t && !rd.closed && !rd.channelClosed
    }

    /** The slot's share of a protocol reader: whether it is registered, and what it buffers. */
    ghost function View(rd: Slot, r: Reader): Reader
      reads this, rd
    {
      r.(registered := Registered(rd), buffer := rd.envelope)
    }

    constructor ()
      ensures Valid() && readers == map[]
    {
      readers := map[];
    }

    method AddReader(t: nat) returns (rd: Slot)
      requires Valid()
      modifies this
      ensures Valid() && fresh(rd) && rd.thread == t && rd.envelope == [] && Registered(rd)
      ensures readers == old(readers)[t := (if t in old(readers) then old(readers)[t] else {}) + {rd}]
    {
      rd := new Slot(t);
      readers := readers[t := (if t in readers then readers[t] else {}) + {rd}];
    }

    /** Removing a reader that was dropped already changes nothing, so its channel is not closed again. */
    method RemoveReader(rd: Slot)
      requires Valid()
      modifies this, rd
      ensures Valid() && !Registered(rd) && rd.envelope == old(rd.envelope)
      ensures old(Registered(rd)) ==> rd.closed && rd.channelClosed
      ensures !old(Registered(rd)) ==> unchanged(this) && unchanged(rd)
      ensures forall u :: u != rd.thread ==> (u in readers <==> u in old(readers)) && (u in readers ==> readers[u] == old(readers)[u])
      ensures On(rd.thread) == old(On(rd.thread)) - {rd}
    {
      if !Registered(rd) {
        return;
      }
      var rest := readers[rd.thread] - {rd};
      if rest == {} {
        readers := readers - {rd.thread};
      } else {
        readers := readers[rd.thread := rest];
      }
      rd.CloseLocked();
    }

    /** `deliver`: a reader with room gets the message, a reader without is dropped and closed. */
    method Deliver(t: nat, entry: Entry)
      requires Valid()
      modifies this, if t in readers then readers[t] else {}
      ensures Valid()
      ensures forall u :: u != t ==> (u in readers <==> u in old(readers)) && (u in readers ==> readers[u] == old(readers)[u])
      ensures t in readers ==> t in old(readers) && readers[t] <= old(readers)[t]
      ensures t in old(readers) ==> forall rd :: rd in old(readers)[t] ==>
                if old(|rd.envelope|) < SubscriberBuffer
                then Registered(rd) && rd.envelope == old(rd.envelope) + [entry] && !rd.channelClosed
                else !Registered(rd) && rd.envelope == old(rd.envelope) && rd.channelClosed
      ensures t in old(readers) ==> forall rd, r: Reader :: rd in old(readers)[t] ==>
                View(rd, r) == Offer(old(View(rd, r)), entry)
    {
      if t !in readers {
        return;
      }
      var all := readers[t];
      var kept: set<Slot>, todo: set<Slot> := all, all;
      while todo != {}
        invariant todo <= kept <= all
        invariant readers == old(readers)
        invariant forall rd :: rd in todo ==> rd.envelope == old(rd.envelope) && !rd.closed && !rd.channelClosed
        invariant forall rd :: rd in all - todo ==>
                    if old(|rd.envelope|) < SubscriberBuffer
                    then rd in kept && rd.envelope == old(rd.envelope) + [entry] && !rd.closed && !rd.channelClosed
                    else rd !in kept && rd.envelope == old(rd.envelope) && rd.closed && rd.channelClosed
        decreases |todo|
      {
        var rd: Slot :| rd in todo;
        todo := todo - {rd};
        if |rd.envelope| < SubscriberBuffer {
          rd.Send(entry);
        } else {
          kept := kept - {rd};
          rd.CloseLocked();
        }
      }
      if kept == {} {
        readers := readers - {t};
      } else {
        readers := readers[t := kept];
      }
    }

    /** `Close`: every attached reader is released, each exactly once. */
    method Close()
      requires Valid()
      modifies this, Objects()
      ensures Valid() && readers == map[]
      ensures forall rd :: rd in old(Objects()) ==> rd.closed && rd.channelClosed && rd.envelope == old(rd.envelope)
    {
      ghost var before := Objects();
      var todo := set t, rd | t in readers && rd in readers[t] :: rd;
      while todo != {}
        invariant todo <= before && readers == old(readers)
        invariant forall rd :: rd in todo ==> !rd.closed && !rd.channelClosed && rd.envelope == old(rd.envelope)
        invariant forall rd :: rd in before - todo ==> rd.closed && rd.channelClosed && rd.envelope == old(rd.envelope)
        decreases |todo|
      {
        var rd: Slot :| rd in todo;
        todo := todo - {rd};
        rd.CloseLocked();
      }
      readers := map[];
    }
  }

  /** Emitting entries one after the other, each filtered by the cursor the ones before it left. */
  function EmitAll(rd: Reader, entries: seq<Entry>): Reader {
    if entries == [] then rd else Emit(EmitAll(rd, entries[..|entries| - 1]), entries[|entries| - 1])
  }

  function AtOffset(after: nat): Reader {
    Reader(Pumping, after, true, [], [], after, [], Marks(0, 0, 0, 0, 0))
  }

  /** The loops of `pump` over a backlog and the live messages that followed it. */
  method Pump(after: nat, backlog: seq<Entry>, live: seq<Entry>) returns (out: seq<Entry>, high: nat)
    ensures EmitAll(AtOffset(after), backlog + live) == AtOffset(after).(frames := out, high := high)
  {
    out, high := [], after;
    var i := 0;
    while i < |backlog|
      invariant 0 <= i <= |backlog|
      invariant EmitAll(AtOffset(after), backlog[..i]) == AtOffset(after).(frames := out, high := high)
    {
      assert backlog[..i + 1][..i] == backlog[..i];
      if backlog[i].id > high {
        out, high := out + [backlog[i]], backlog[i].id;
      }
      i := i + 1;
    }
    assert backlog[..i] == backlog + live[..0];
    i := 0;
    while i < |live|
      invariant 0 <= i <= |live|
      invariant EmitAll(AtOffset(after), backlog + live[..i]) == AtOffset(after).(frames := out, high := high)
    {
      assert (backlog + live[..i + 1])[..|backlog| + i] == backlog + live[..i];
      if live[i].id > high {
        out, high := out + [live[i]], live[i].id;
      }
      i := i + 1;
    }
    assert live[..i] == live;
  }

  /** The reader's own steps taken until nothing is left in its backlog and its buffer. */
  function Drained(rd: Reader): Reader
    decreases |rd.backlog| + |rd.buffer|
  {
    if rd.backlog != [] then Drained(StreamProtocol.Replay(rd))
    else if rd.buffer != [] then Drained(Follow(rd))
    else rd
  }

  lemma {:induction false} EmitFirst(rd: Reader, entries: seq<Entry>)
    requires entries != []
    ensures EmitAll(rd, entries) == EmitAll(Emit(rd, entries[0]), entries[1..])
    decreases |entries|
  {
    var last := |entries| - 1;
    if last > 0 {
      EmitFirst(rd, entries[..last]);
      assert entries[..last][1..] == entries[1..][..last - 1];
    }
  }

  /** Emitting looks at the cursor and the frames only. */
  lemma {:induction false} EmitSame(rd: Reader, rd': Reader, entries: seq<Entry>)
    requires rd'.high == rd.high && rd'.frames == rd.frames
    ensures EmitAll(rd', entries).high == EmitAll(rd, entries).high && EmitAll(rd', entries).frames == EmitAll(rd, entries).frames
  {
    if entries != [] { EmitSame(rd, rd', entries[..|entries| - 1]); }
  }

  /** The loop and the protocol's reader agree on what is sent. */
  lemma {:induction false} PumpDrains(rd: Reader)
    ensures Drained(rd).frames == EmitAll(rd, rd.backlog + rd.buffer).frames
    ensures Drained(rd).high == EmitAll(rd, rd.backlog + rd.buffer).high
    decreases |rd.backlog| + |rd.buffer|
  {
    var all := rd.backlog + rd.buffer;
    if all != [] {
      var next := if rd.backlog != [] then StreamProtocol.Replay(rd) else Follow(rd);
      PumpDrains(next);
      assert next.backlog + next.buffer == all[1..];
      EmitFirst(rd, all);
      EmitSame(next, Emit(rd, all[0]), all[1..]);
    }
  }
}
