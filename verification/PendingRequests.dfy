/** The table of requests waiting for an answer: each request is settled exactly once, by whatever comes first. */
module PendingRequests {
  import opened Wrappers

  datatype Settlement = Resolved(value: string) | Rejected(message: string)

  /** A message from the server: an answer to a request, or something without an id. */
  datatype Incoming = Response(id: int, error: Option<string>, value: string) | Notification

  class Client {
    var running: bool
    var closed: bool
    var nextId: int
    var pending: set<int>
    /** Cancellations announced to the server. */
    var cancelled: seq<int>
    ghost var settled: map<int, Settlement>

    /** Every request made is either waiting or settled, never both; nothing waits once the client is closed. */
    ghost predicate Valid()
      reads this
    {
      && nextId >= 1
      && (forall id :: id in pending || id in settled <==> 1 <= id < nextId)
      && (forall id :: !(id in pending && id in settled))
      && (closed ==> pending == {})
    }

    constructor ()
      ensures Valid() && !running && !closed && pending == {} && settled == map[] && cancelled == []
    {
      running, closed, nextId, pending, cancelled, settled := false, false, 1, {}, [], map[];
    }

    method Start() returns (ok: bool)
      requires Valid()
      modifies this`running
      ensures Valid() && (ok <==> !closed) && running == (ok || old(running))
    {
      ok := !closed;
      if ok {
        running := true;
      }
    }

    /** A new request; writing it may fail. */
    method Request() returns (id: Option<int>)
      requires Valid()
      modifies this`nextId, this`pending, this`settled
      ensures Valid() && (id.Some? <==> running && !closed)
      ensures id.None? ==> pending == old(pending) && settled == old(settled)
      ensures id.Some? ==> id.value !in old(pending) && id.value !in old(settled)
      ensures id.Some? ==> if id.value in pending then pending == old(pending) + {id.value} && settled == old(settled)
                           else pending == old(pending) && settled.Keys == old(settled).Keys + {id.value}
      ensures forall k :: k in old(settled) ==> k in settled && settled[k] == old(settled)[k]
    {
      if !running || closed {
        return None;
      }
      var n := nextId;
      nextId := nextId + 1;
      pending := pending + {n};
      if * {
        pending := pending - {n};
        settled := settled[n := Rejected("write failed")];
      }
      return Some(n);
    }

    /** A timeout or an abort: only a request that still waits is rejected and announced as cancelled. */
    method Cancel(id: int, message: string)
      requires Valid()
      modifies this`pending, this`settled, this`cancelled
      ensures Valid() && pending == old(pending) - {id}
      ensures settled == if id in old(pending) then old(settled)[id := Rejected(message)] else old(settled)
      ensures cancelled == if id in old(pending) && running && !closed then old(cancelled) + [id] else old(cancelled)
    {
      if id !in pending {
        return;
      }
      pending := pending - {id};
      settled := settled[id := Rejected(message)];
      if running && !closed {
        cancelled := cancelled + [id];
      }
    }

    /** An answer settles its request; late, repeated and unknown answers change nothing. */
    method HandleMessage(m: Incoming)
      requires Valid()
      modifies this`pending, this`settled
      ensures Valid()
      ensures if m.Response? && m.id in old(pending)
              then pending == old(pending) - {m.id} && settled == old(settled)[m.id := Answer(m)]
              else pending == old(pending) && settled == old(settled)
    {
      if m.Notification? || m.id !in pending {
        return;
      }
      pending := pending - {m.id};
      settled := settled[m.id := Answer(m)];
    }

    /** Rejects everything that waits, oldest first. */
    method FailAll(message: string)
      requires Valid()
      modifies this`pending, this`settled
      ensures Valid() && pending == {}
      ensures settled.Keys == old(settled).Keys + old(pending)
      ensures forall k :: k in settled ==> settled[k] == if k in old(settled) then old(settled)[k] else Rejected(message)
    {
      for id := 1 to nextId
        invariant Valid() && pending <= old(pending) && settled.Keys == old(settled).Keys + (old(pending) - pending)
        invariant forall k :: k in pending ==> k >= id
        invariant forall k :: k in settled ==> settled[k] == if k in old(settled) then old(settled)[k] else Rejected(message)
      {
        if id in pending {
          settled := settled[id := Rejected(message)];
          pending := pending - {id};
        }
      }
    }

    /** The client is closed, or its process has exited. */
    method Close(message: string)
      requires Valid()
      modifies this`closed, this`running, this`pending, this`settled
      ensures Valid() && closed && pending == {}
      ensures !old(closed) ==> settled.Keys == old(settled).Keys + old(pending)
      ensures forall k :: k in old(settled) ==> k in settled && settled[k] == old(settled)[k]
    {
      if closed {
        return;
      }
      FailAll(message);
      closed, running := true, false;
    }
  }

  function Answer(m: Incoming): Settlement
    requires m.Response?
  {
    if m.error.Some? then Rejected(m.error.value) else Resolved(m.value)
  }
}
