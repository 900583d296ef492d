/** What the goroutines share, updated in place: the object store behind the API server and the
    timer table behind TimerLock. Each method does to the fields exactly what the machine's
    Effect does for the step that calls it, and gives exactly an answer the machine allows. */
module SharedState {
  import opened HealthChecks
  import opened Goroutines
  import opened Machine
  import TimerSafety

  /** A goroutine's next call is GetTimerByName on `name`. */
  predicate Asks(t: Thread, name: string, now: Time) {
    || t.pc == CancelLookup(name)
    || (t.key.name == name && (t.pc.CancelRead? || (t.pc.Decide? && ConsultsTable(t.hc, now))))
  }

  class Shared {
    var now: Time
    var store: map<Key, Object>
    var nextRv: nat
    var submitted: set<string>
    const mapMade: bool
    var lock: Option<nat>
    var table: map<string, nat>
    var timers: seq<RepeatTimer>

    /** NewHealthCheckReconciler makes the timer map; the construction in cmd/main.go does not. */
    constructor (now: Time, mapMade: bool)
      ensures View([]) == Init(now, mapMade)
    {
      this.now, this.mapMade := now, mapMade;
      store, nextRv, submitted := map[], 0, {};
      lock, table, timers := None, map[], [];
    }

    ghost function View(threads: seq<Thread>): State
      reads this
    {
      State(now, store, nextRv, submitted, mapMade, lock, table, timers, threads)
    }

    /** r.Get: the object as it is stored. */
    method Get(key: Key) returns (a: Answer)
      ensures forall threads :: GetAnswer(View(threads), key, a)
    {
      if key !in store {
        return NotFound;
      }
      return Fetched(CopyOf(store[key]), store[key].rv);
    }

    /** r.Status().Update on the version `rv`: the status goes in, the rest of `t.hc` does not. */
    method UpdateStatus(ghost threads: seq<Thread>, ghost tid: nat, t: Thread) returns (a: Answer)
      requires t.pc.WritePut?
      modifies this`store, this`nextRv
      ensures Answerable(old(View(threads)), t, a)
      ensures View(threads) == Effect(old(View(threads)), tid, t, a)
    {
      if t.key !in store {
        return NotFound;
      }
      if store[t.key].rv != t.pc.rv {
        return Conflict;
      }
      store := store[t.key := PutStatus(store[t.key], t.hc.status, nextRv, t.unsaved)];
      nextRv := nextRv + 1;
      return Done;
    }

    /** r.Update: everything but the status. */
    method Update(ghost threads: seq<Thread>, ghost tid: nat, t: Thread) returns (a: Answer)
      requires t.pc.LastPut?
      modifies this`store, this`nextRv
      ensures Answerable(old(View(threads)), t, a)
      ensures View(threads) == Effect(old(View(threads)), tid, t, a)
    {
      if t.key !in store {
        return NotFound;
      }
      if store[t.key].rv != t.pc.rv {
        return Conflict;
      }
      store := store[t.key := PutMain(store[t.key], t.pc.spec, nextRv)];
      nextRv := nextRv + 1;
      return Done;
    }

    /** GetTimerByName (1480-1485), which waits for the lock to be free: it gives every goroutine
        that asks for the name the one answer the machine allows, and, once the table is in order,
        the name's pending timer if there is one and never another name's. */
    method GetTimerByName(name: string) returns (timer: Option<nat>)
      requires lock.None?
      ensures forall threads, t, a :: Asks(t, name, now) ==> (Answerable(View(threads), t, a) <==> a == Entry(timer))
      ensures TimerSafety.TableOk(View([])) ==>
                && (timer.Some? ==> timer.value < |timers| && timers[timer.value].key.name == name)
                && forall i :: 0 <= i < |timers| && timers[i].live && timers[i].key.name == name ==> timer == Some(i)
    {
      if name in table {
        return Some(table[name]);
      }
      return None;
    }

    method StopTimer(ghost threads: seq<Thread>, ghost tid: nat, t: Thread)
      requires t.pc.CancelStop?
      modifies this`timers
      ensures View(threads) == Effect(old(View(threads)), tid, t, Done)
    {
      Stop(t.pc.timer);
    }

    method Stop(id: nat)
      modifies this`timers
      ensures timers == Cancelled(old(timers), id)
    {
      if id < |timers| {
        timers := timers[id := timers[id].(live := false)];
      }
    }

    /** Lines 747-750, on entry to the critical section. */
    method LockAndStop(ghost threads: seq<Thread>, tid: nat, t: Thread) returns (previous: Option<nat>)
      requires lock.None? && t.pc.Rearm?
      modifies this`lock, this`timers
      ensures Answerable(old(View(threads)), t, Entry(previous))
      ensures View(threads) == Effect(old(View(threads)), tid, t, Entry(previous))
    {
      lock := Some(tid);
      previous := None;
      if t.key.name in table {
        previous := Some(table[t.key.name]);
        Stop(table[t.key.name]);
      }
    }

    /** Lines 751-752: AfterFunc runs before the write to the map, which panics on a nil map and
        then skips the unlock. */
    method StartAndUnlock(ghost threads: seq<Thread>, tid: nat, t: Thread) returns (a: Answer)
      requires lock == Some(tid) && t.pc.RearmStart?
      modifies this`lock, this`timers, this`table
      ensures Answerable(old(View(threads)), t, a)
      ensures View(threads) == Effect(old(View(threads)), tid, t, a)
    {
      var id := |timers|;
      timers := timers + [RepeatTimer(t.key, now + t.hc.spec.repeatAfterSec * SECOND, true)];
      if !mapMade {
        return Broken;
      }
      table := table[t.key.name := id];
      lock := None;
      return Done;
    }
  }
}
