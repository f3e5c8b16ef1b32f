/** The registry of running tailers: one per run, resumed from its cursor or started over. */
module Registry {
  import opened Bytes
  import opened Transducer
  import Resume
  import Tailer

  datatype Error = InvalidKeys | RegistryClosed

  /** How a registry is wired, and what object storage answers to it. */
  datatype Wiring = Wiring(parse: Parser, canReadCursors: bool, canRemove: bool,
                           ringBytes: nat, chunkBytes: nat, queueLen: nat, reopenMaxAttempts: nat)
  {
    predicate Valid() { ringBytes >= 1 && queueLen >= 1 }
  }

  class TailerRegistry {
    const wiring: Wiring
    var tailers: map<string, Tailer.Tailer>
    var closed: bool

    constructor (wiring: Wiring)
      ensures this.wiring == wiring && tailers == map[] && !closed
    {
      this.wiring, tailers, closed := wiring, map[], false;
    }

    /**
     Starts a tailer for a run that has none: at its cursor, keeping the chunks, or from the
     beginning after wiping them. A second call, and a call after Shutdown, change nothing.
     */
    method EnsureTailer(id: string, keysValid: bool, store: Tailer.LogStore, readOk: bool, removeOk: bool)
      returns (err: Option<Error>)
      requires wiring.Valid()
      modifies this`tailers, store
      ensures err == (if !keysValid then Some(InvalidKeys) else if closed then Some(RegistryClosed) else None)
      ensures store.cursor == old(store.cursor)
      ensures err.Some? || id in old(tailers) ==> unchanged(this) && unchanged(store)
      ensures err.None? && id !in old(tailers) ==>
        var resume := if wiring.canReadCursors && readOk then old(store.cursor) else None;
        && tailers.Keys == old(tailers).Keys + {id}
        && (forall other :: other in old(tailers) ==> tailers[other] == old(tailers)[other])
        && fresh(tailers[id]) && tailers[id].store == store
        && tailers[id].pending == []
        && (match resume
            case Some(c) =>
              tailers[id].pos == c.pos && tailers[id].chunkSeq == c.nextSeq && store.chunks == old(store.chunks)
            case None =>
              tailers[id].pos == START && tailers[id].chunkSeq == 0
              && store.chunks == if wiring.canRemove && removeOk then map[] else old(store.chunks))
    {
      if !keysValid {
        return Some(InvalidKeys);
      }
      if closed {
        return Some(RegistryClosed);
      }
      if id in tailers {
        return None;
      }
      var resume := if wiring.canReadCursors && readOk then store.cursor else None;
      if resume.None? && wiring.canRemove {
        store.RemoveChunks(removeOk);
      }
      var t := new Tailer.Tailer(wiring.parse, store, resume, wiring.ringBytes, wiring.chunkBytes,
                                 wiring.queueLen, wiring.reopenMaxAttempts);
      tailers := tailers[id := t];
      return None;
    }

    /** Takes a run's tailer out; the caller then waits for its last flush. */
    method StopTailer(id: string) returns (stopped: Option<Tailer.Tailer>)
      modifies this`tailers
      ensures stopped == if id in old(tailers) then Some(old(tailers)[id]) else None
      ensures tailers == old(tailers) - {id}
    {
      if id !in tailers {
        return None;
      }
      stopped := Some(tailers[id]);
      tailers := tailers - {id};
    }

    method Shutdown() returns (stopped: set<Tailer.Tailer>)
      modifies this
      ensures stopped == old(tailers).Values && tailers == map[] && closed
    {
      stopped := tailers.Values;
      tailers, closed := map[], true;
    }
  }
}
