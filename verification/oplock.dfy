/**
 * The operation lock of backend/src/shared/shared.ts: a counter `inOp` of
 * operations that have entered `startOp`, and a FIFO queue `ops` of callers
 * suspended until an `endOp` releases them. A suspended caller is represented
 * by a ticket; resuming it is handing that ticket back.
 */
module OpLock {
  import opened Wrappers

  type Ticket = nat

  /** The lock's bookkeeping: the counter and the queue of suspended callers. */
  datatype LockState = LockState(inOp: int, ops: seq<Ticket>)

  const Idle := LockState(0, [])

  /** `startOp`: always counts the caller; it waits in the queue only when an operation was already running. */
  function StartStep(s: LockState, t: Ticket): LockState {
    if s.inOp > 0 then LockState(s.inOp + 1, s.ops + [t]) else LockState(s.inOp + 1, s.ops)
  }

  /** `endOp`: uncounts one operation and resumes the caller at the front of the queue, if any. */
  function EndStep(s: LockState): (LockState, Option<Ticket>) {
    if s.ops == [] then (LockState(s.inOp - 1, []), None)
    else (LockState(s.inOp - 1, s.ops[1..]), Some(s.ops[0]))
  }

  /**
   * The lock is used correctly: either nobody holds it and nobody waits, or
   * exactly one caller holds it and every other counted caller waits.
   */
  predicate Disciplined(s: LockState) {
    (s.inOp == 0 && s.ops == []) || s.inOp == |s.ops| + 1
  }

  /** Number of callers running inside the lock (counted but not waiting). */
  function Holders(s: LockState): int {
    s.inOp - |s.ops|
  }

  lemma StartCountsAndQueuesOnlyWhenBusy(s: LockState, t: Ticket)
    ensures StartStep(s, t).inOp == s.inOp + 1
    ensures StartStep(s, t).ops == s.ops + [t] <==> s.inOp > 0
    ensures s.inOp <= 0 ==> StartStep(s, t).ops == s.ops
  {
    if s.inOp <= 0 {
      assert |s.ops + [t]| != |s.ops|;
    }
  }

  lemma EndUncountsAndReleasesFront(s: LockState)
    ensures EndStep(s).0.inOp == s.inOp - 1
    ensures EndStep(s).1 == (if s.ops == [] then None else Some(s.ops[0]))
    ensures EndStep(s).1.Some? ==> [EndStep(s).1.value] + EndStep(s).0.ops == s.ops
    ensures EndStep(s).1.None? ==> EndStep(s).0.ops == s.ops
  {
  }

  /** A disciplined lock has at most one holder, and exactly one whenever it is counted. */
  lemma DisciplineMeansMutualExclusion(s: LockState)
    requires Disciplined(s)
    ensures 0 <= Holders(s) <= 1
    ensures Holders(s) == 1 <==> s.inOp > 0
  {
  }

  lemma StartKeepsDiscipline(s: LockState, t: Ticket)
    requires Disciplined(s)
    ensures Disciplined(StartStep(s, t))
    ensures StartStep(s, t).inOp > 0
  {
  }

  lemma EndKeepsDiscipline(s: LockState)
    requires Disciplined(s) && s.inOp > 0
    ensures Disciplined(EndStep(s).0)
    ensures EndStep(s).0 == Idle <==> s.inOp == 1
  {
  }

  /** There is no guard against an `endOp` without a matching `startOp`: the counter goes negative. */
  lemma EndWhenIdleUnderflows()
    ensures EndStep(Idle) == (LockState(-1, []), None)
    ensures !Disciplined(EndStep(Idle).0)
  {
  }

  /** A sequence of calls into the lock. */
  datatype Event = Start(ticket: Ticket) | End

  /** The outcome of a run of calls: final state, the tickets queued and the tickets resumed, in order. */
  datatype Trace = Trace(final: LockState, queued: seq<Ticket>, released: seq<Ticket>)

  function Run(s: LockState, events: seq<Event>): Trace
    decreases |events|
  {
    if events == [] then Trace(s, [], [])
    else match events[0]
      case Start(t) =>
        var rest := Run(StartStep(s, t), events[1..]);
        Trace(rest.final, (if s.inOp > 0 then [t] else []) + rest.queued, rest.released)
      case End =>
        var (s', r) := EndStep(s);
        var rest := Run(s', events[1..]);
        Trace(rest.final, rest.queued, (if r.Some? then [r.value] else []) + rest.released)
  }

  /**
   * First in, first out: the callers resumed, followed by those still waiting,
   * are exactly those waiting at the start followed by those queued during the
   * run, in the same order. So every resumption is of the longest-waiting caller.
   */
  lemma {:induction false} RunIsFifo(s: LockState, events: seq<Event>)
    ensures Run(s, events).released + Run(s, events).final.ops == s.ops + Run(s, events).queued
    decreases |events|
  {
    if events != [] {
      match events[0]
      case Start(t) =>
        var rest := Run(StartStep(s, t), events[1..]);
        RunIsFifo(StartStep(s, t), events[1..]);
        assert Run(s, events) == Trace(rest.final, (if s.inOp > 0 then [t] else []) + rest.queued, rest.released);
      case End =>
        var rest := Run(EndStep(s).0, events[1..]);
        RunIsFifo(EndStep(s).0, events[1..]);
        assert Run(s, events) == Trace(rest.final, rest.queued, (if s.ops == [] then [] else [s.ops[0]]) + rest.released);
        if s.ops != [] {
          calc {
            [s.ops[0]] + rest.released + rest.final.ops;
            [s.ops[0]] + (rest.released + rest.final.ops);
            [s.ops[0]] + (s.ops[1..] + rest.queued);
            ([s.ops[0]] + s.ops[1..]) + rest.queued;
            { assert [s.ops[0]] + s.ops[1..] == s.ops; }
            s.ops + rest.queued;
          }
        }
    }
  }

  /** A run in which no `endOp` comes while the lock is idle. */
  predicate EndsMatched(s: LockState, events: seq<Event>)
    decreases |events|
  {
    events == [] ||
    match events[0]
      case Start(t) => EndsMatched(StartStep(s, t), events[1..])
      case End => s.inOp > 0 && EndsMatched(EndStep(s).0, events[1..])
  }

  /** Matched calls keep the lock disciplined. */
  lemma {:induction false} RunKeepsDiscipline(s: LockState, events: seq<Event>)
    requires Disciplined(s) && EndsMatched(s, events)
    ensures Disciplined(Run(s, events).final)
    decreases |events|
  {
    if events != [] {
      match events[0]
      case Start(t) =>
        StartKeepsDiscipline(s, t);
        RunKeepsDiscipline(StartStep(s, t), events[1..]);
      case End =>
        EndKeepsDiscipline(s);
        RunKeepsDiscipline(EndStep(s).0, events[1..]);
    }
  }

  /**
   * The module-level `state` object together with the `ops` queue:
   * `inOp`, `runningMain` (initially true) and `screeningIndex` (initially -1).
   */
  class SharedState {
    var inOp: int
    var ops: seq<Ticket>
    var runningMain: bool
    var screeningIndex: int

    constructor ()
      ensures Lock() == Idle && runningMain && screeningIndex == -1
    {
      inOp := 0;
      ops := [];
      runningMain := true;
      screeningIndex := -1;
    }

    function Lock(): LockState
      reads this
    {
      LockState(inOp, ops)
    }

    /** `startOp`; `suspended` tells whether the caller has to wait for its ticket to be released. */
    method StartOp(t: Ticket) returns (suspended: bool)
      modifies this
      ensures Lock() == StartStep(old(Lock()), t)
      ensures suspended <==> old(inOp) > 0
      ensures runningMain == old(runningMain) && screeningIndex == old(screeningIndex)
    {
      suspended := inOp > 0;
      if suspended {
        inOp := inOp + 1;
        ops := ops + [t];
      } else {
        inOp := inOp + 1;
      }
    }

    /** `endOp`; `resumed` is the ticket of the caller allowed to continue, if any. */
    method EndOp() returns (resumed: Option<Ticket>)
      modifies this
      ensures (Lock(), resumed) == EndStep(old(Lock()))
      ensures runningMain == old(runningMain) && screeningIndex == old(screeningIndex)
    {
      inOp := inOp - 1;
      if ops == [] {
        resumed := None;
      } else {
        resumed := Some(ops[0]);
        ops := ops[1..];
      }
    }
  }
}
