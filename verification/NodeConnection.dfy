// One node's delivery connection at the coordinator: a queue of tasks run one at a time,
// the backlog drain first, then live events and keepalives in the order they were enqueued.
module NodeConnection {
  import opened WalSpec
  import opened SyncEngine

  datatype Task =
    | Drain(from: nat, batch: seq<Event>)  // cursor, and what is left of the batch last read
    | Send(out: Wire)

  datatype Connection = Connection(
    lastWritten: nat,
    closed: bool,
    queue: seq<Task>,
    written: seq<Wire>)

  predicate CarriesLsn(out: Wire) {
    (out.EntryMsg? || out.RotateMsg?) && out.lsn.Some?
  }

  function Enqueue(c: Connection, task: Task): Connection {
    if c.closed then c else c.(queue := c.queue + [task])
  }

  /** A queued event: dropped when the drain already covered it. */
  function Write(c: Connection, out: Wire): Connection {
    if c.closed || out.NoEvent? || (CarriesLsn(out) && out.lsn.value <= c.lastWritten) then c
    else c.(written := c.written + [out], lastWritten := if CarriesLsn(out) then out.lsn.value else c.lastWritten)
  }

  /** A backlog event: the drain knows its own position. */
  function WriteDirect(c: Connection, e: Event): Connection {
    if c.closed then c else c.(written := c.written + [ToWire(e)], lastWritten := e.lsn)
  }

  class NodeConnectionImpl {
    var lastWrittenLsn: nat
    var closed: bool
    var queue: seq<Task>
    var written: seq<Wire>
    var lastSentLsn: nat       // the registry's record for this node

    function Value(): Connection
      reads this
    {
      Connection(lastWrittenLsn, closed, queue, written)
    }

    constructor (resumeFromLsn: nat)
      ensures Value() == Connection(resumeFromLsn, false, [], [])
    {
      lastWrittenLsn := resumeFromLsn;
      closed := false;
      queue := [];
      written := [];
      lastSentLsn := 0;
    }

    method EnqueueTask(task: Task)
      modifies this`queue
      ensures Value() == Enqueue(old(Value()), task)
      ensures !closed ==> queue == old(queue) + [task]
    {
      if closed {
        return;
      }
      queue := queue + [task];
    }

    method WriteMessage(message: Wire)
      modifies this`written
      ensures written == if closed then old(written) else old(written) + [message]
    {
      if closed {
        return;
      }
      written := written + [message];
    }

    method WriteQueued(event: Wire)
      modifies this`written, this`lastWrittenLsn, this`lastSentLsn
      ensures Value() == Write(old(Value()), event)
      ensures !closed && (event.Keepalive? || event.Resnapshot?) ==> written == old(written) + [event]
      ensures !closed && CarriesLsn(event) ==>
        if event.lsn.value <= old(lastWrittenLsn) then written == old(written)
        else written == old(written) + [event] && lastWrittenLsn == event.lsn.value
      ensures lastSentLsn
        == if CarriesLsn(event) && lastWrittenLsn != old(lastWrittenLsn) then event.lsn.value else old(lastSentLsn)
    {
      if closed {
        return;
      }
      if event.NoEvent? {
        return;
      }
      if CarriesLsn(event) && event.lsn.value <= lastWrittenLsn {
        return;
      }
      WriteMessage(event);
      if CarriesLsn(event) {
        lastWrittenLsn := event.lsn.value;
        lastSentLsn := event.lsn.value;
      }
    }

    method WriteBacklog(event: Event)
      modifies this`written, this`lastWrittenLsn, this`lastSentLsn
      ensures Value() == WriteDirect(old(Value()), event)
      ensures !closed ==> written == old(written) + [ToWire(event)] && lastWrittenLsn == event.lsn
      ensures lastSentLsn == if closed then old(lastSentLsn) else event.lsn
    {
      if closed {
        return;
      }
      WriteMessage(ToWire(event));
      lastWrittenLsn := event.lsn;
      lastSentLsn := event.lsn;
    }

    method Close()
      modifies this`closed
      ensures Value() == old(Value()).(closed := true)
    {
      closed := true;
    }
  }
}
