/**
  The Loki log shipper as a transition system: producers calling `enqueue`, the batching
  goroutine `run`, one goroutine per accepted push, and a caller of `shutdown`.

  Every region of the program that other goroutines can interleave with is an action of its own.
  In particular these are separate: a failed channel send and the `dropped.Add` after it, taking
  a semaphore token and `wg.Add`, giving the token back and `wg.Done`, and finding the channel
  empty while draining and the final flush.
*/
module LokiProtocol {
  import opened Seqs

  datatype Entry = Entry(ts: int, level: string, line: string)

  // The five constants of the sender; the proofs keep them symbolic.
  datatype Limits = Limits(queueSize: nat, maxBatch: nat, maxPush: nat, maxRetries: nat, warnEvery: nat) {
    predicate Valid() {
      queueSize >= 1 && maxBatch >= 1 && maxPush >= 1 && maxRetries >= 1 && warnEvery >= 2
    }
  }

  const CODE_LIMITS := Limits(1024, 100, 2, 3, 100)

  // Where the slice made by one flush is in its life.
  datatype Fate =
    | InHand                                // pushAsync has it, semaphore not tried yet
    | Lost                                  // no token was free: the batch is dropped
    | Acquired                              // token taken, wg.Add still to come
    | Counted                               // wg.Add done, goroutine not spawned yet
    | Trying(failures: nat)                 // the push goroutine, after so many failed attempts
    | Finished(ok: bool, attempts: nat)     // push has returned, token still held
    | Released(ok: bool, attempts: nat)     // token given back, wg.Done still to come
    | Gone(ok: bool, attempts: nat)         // goroutine over

  // The slice handed to pushAsync by one flush. `final` marks the flush of the drain.
  datatype Parcel = Parcel(entries: seq<Entry>, final: bool, fate: Fate)

  // Program points of the batching goroutine.
  datatype Phase =
    | Selecting     // at the outer select
    | Received      // entry appended, size not checked yet
    | Pushing       // inside pushAsync with the last parcel
    | Draining      // at the inner select
    | Drained       // the inner select found the channel empty
    | Returning     // deferred wg.Done still to come
    | Stopped

  datatype Caller = NotCalled | Waiting | Returned(ok: bool)

  datatype State = State(
    // shared variables of the sender
    ch: seq<Entry>, quit: bool, wg: int, dropped: nat, tokens: nat,
    // the batching goroutine, and the slices it has made
    phase: Phase, batch: seq<Entry>, parcels: seq<Parcel>,
    // producers between the failed send and the atomic add; numbers added but not yet compared
    adding: nat, tickets: set<nat>,
    // the shutdown call
    caller: Caller, done: bool,
    // history: nothing above depends on it
    offered: seq<Entry>, accepted: seq<Entry>, refused: seq<Entry>, warned: seq<nat>,
    acceptedAtQuit: nat, acceptedAtPoll: nat)

  const INIT := State([], false, 1, 0, 0, Selecting, [], [], 0, {}, NotCalled, false, [], [], [], [], 0, 0)

  datatype Action =
    | Offer(e: Entry)             // the select of enqueue
    | CountDrop                   // dropped.Add(1)
    | CheckWarn(n: nat)           // the comparison of the returned number, and the warning
    | Receive | SizeCheck | Tick | SeeQuit
    | DrainReceive | DrainEmpty | FinalFlush
    | TryAcquire | WgAdd | Spawn  // pushAsync
    | RunDone                     // deferred wg.Done of run
    | Attempt(i: nat, ok: bool)   // one doPush of pusher i
    | Release(i: nat)             // deferred receive from pushSem
    | PusherDone(i: nat)          // deferred wg.Done of pusher i
    | CloseQuit | WaiterWake | ReturnNil | ReturnError

  predicate Warns(c: Limits, n: nat)
    requires c.Valid()
  {
    n == 1 || n % c.warnEvery == 0
  }

  predicate LastIs(s: State, f: Fate) {
    s.parcels != [] && Last(s.parcels).fate == f
  }

  predicate Enabled(c: Limits, s: State, a: Action)
    requires c.Valid()
  {
    match a
    case Offer(_) => true
    case CountDrop => s.adding > 0
    case CheckWarn(n) => n in s.tickets
    case Receive => s.phase.Selecting? && s.ch != []
    case SizeCheck => s.phase.Received?
    case Tick => s.phase.Selecting?
    case SeeQuit => s.phase.Selecting? && s.quit
    case DrainReceive => s.phase.Draining? && s.ch != []
    case DrainEmpty => s.phase.Draining? && s.ch == []
    case FinalFlush => s.phase.Drained?
    case TryAcquire => s.phase.Pushing? && LastIs(s, InHand)
    case WgAdd => s.phase.Pushing? && LastIs(s, Acquired)
    case Spawn => s.phase.Pushing? && LastIs(s, Counted)
    case RunDone => s.phase.Returning?
    case Attempt(i, _) => i < |s.parcels| && s.parcels[i].fate.Trying?
    // The receive blocks on an empty semaphore channel.
    case Release(i) => i < |s.parcels| && s.parcels[i].fate.Finished? && s.tokens > 0
    case PusherDone(i) => i < |s.parcels| && s.parcels[i].fate.Released?
    case CloseQuit => s.caller.NotCalled?
    case WaiterWake => !s.caller.NotCalled? && !s.done && s.wg == 0
    case ReturnNil => s.caller.Waiting? && s.done
    case ReturnError => s.caller.Waiting?
  }

  // The flush closure on a non-empty batch: copy, truncate, enter pushAsync.
  function Flush(s: State, final: bool): State {
    s.(batch := [], parcels := s.parcels + [Parcel(s.batch, final, InHand)], phase := Pushing)
  }

  function SetFate(ps: seq<Parcel>, i: nat, f: Fate): seq<Parcel>
    requires i < |ps|
  {
    ps[i := ps[i].(fate := f)]
  }

  // Where run continues when pushAsync returns.
  function AfterPush(s: State): Phase
    requires s.parcels != []
  {
    if Last(s.parcels).final then Returning else Selecting
  }

  function TakeEntry(s: State, next: Phase): State
    requires s.ch != []
  {
    s.(ch := s.ch[1..], batch := s.batch + [s.ch[0]], phase := next)
  }

  function Apply(c: Limits, s: State, a: Action): State
    requires c.Valid() && Enabled(c, s, a)
  {
    match a
    case Offer(e) =>
      if |s.ch| < c.queueSize then
        s.(offered := s.offered + [e], ch := s.ch + [e], accepted := s.accepted + [e])
      else
        s.(offered := s.offered + [e], refused := s.refused + [e], adding := s.adding + 1)
    case CountDrop =>
      s.(adding := s.adding - 1, dropped := s.dropped + 1, tickets := s.tickets + {s.dropped + 1})
    case CheckWarn(n) =>
      s.(tickets := s.tickets - {n}, warned := if Warns(c, n) then s.warned + [n] else s.warned)
    case Receive => TakeEntry(s, Received)
    case SizeCheck => if |s.batch| >= c.maxBatch then Flush(s, false) else s.(phase := Selecting)
    case Tick => if s.batch == [] then s else Flush(s, false)
    case SeeQuit => s.(phase := Draining)
    case DrainReceive => TakeEntry(s, Draining)
    case DrainEmpty => s.(phase := Drained, acceptedAtPoll := |s.accepted|)
    case FinalFlush => if s.batch == [] then s.(phase := Returning) else Flush(s, true)
    case TryAcquire =>
      var i := |s.parcels| - 1;
      if s.tokens < c.maxPush then
        s.(tokens := s.tokens + 1, parcels := SetFate(s.parcels, i, Acquired))
      else
        s.(parcels := SetFate(s.parcels, i, Lost), phase := AfterPush(s))
    case WgAdd => s.(wg := s.wg + 1, parcels := SetFate(s.parcels, |s.parcels| - 1, Counted))
    case Spawn => s.(parcels := SetFate(s.parcels, |s.parcels| - 1, Trying(0)), phase := AfterPush(s))
    case RunDone => s.(wg := s.wg - 1, phase := Stopped)
    case Attempt(i, ok) =>
      var k := s.parcels[i].fate.failures + 1;
      var f := if ok then Finished(true, k) else if k >= c.maxRetries then Finished(false, k) else Trying(k);
      s.(parcels := SetFate(s.parcels, i, f))
    case Release(i) =>
      var f := s.parcels[i].fate;
      s.(tokens := s.tokens - 1, parcels := SetFate(s.parcels, i, Fate.Released(f.ok, f.attempts)))
    case PusherDone(i) =>
      var f := s.parcels[i].fate;
      s.(wg := s.wg - 1, parcels := SetFate(s.parcels, i, Gone(f.ok, f.attempts)))
    case CloseQuit => s.(quit := true, caller := Waiting, acceptedAtQuit := |s.accepted|)
    case WaiterWake => s.(done := true)
    case ReturnNil => s.(caller := Returned(true))
    case ReturnError => s.(caller := Returned(false))
  }

  // Runs: any finite interleaving of enabled actions.

  predicate Allowed(c: Limits, s: State, acts: seq<Action>)
    requires c.Valid()
    decreases acts
  {
    acts == [] || (Enabled(c, s, acts[0]) && Allowed(c, Apply(c, s, acts[0]), acts[1..]))
  }

  function Run(c: Limits, s: State, acts: seq<Action>): State
    requires c.Valid() && Allowed(c, s, acts)
    decreases acts
  {
    if acts == [] then s else Run(c, Apply(c, s, acts[0]), acts[1..])
  }

  lemma {:induction false} RunConcat(c: Limits, s: State, a: seq<Action>, b: seq<Action>)
    requires c.Valid() && Allowed(c, s, a) && Allowed(c, Run(c, s, a), b)
    ensures Allowed(c, s, a + b) && Run(c, s, a + b) == Run(c, Run(c, s, a), b)
    decreases a
  {
    if a == [] {
      assert a + b == b;
    } else {
      assert (a + b)[1..] == a[1..] + b;
      RunConcat(c, Apply(c, s, a[0]), a[1..], b);
    }
  }

  lemma RunOne(c: Limits, s: State, a: Action)
    requires c.Valid() && Enabled(c, s, a)
    ensures Allowed(c, s, [a]) && Run(c, s, [a]) == Apply(c, s, a)
  {
    assert [a][1..] == [];
  }

  // Vocabulary of the properties.

  // The contents of every slice handed to pushAsync, in flush order.
  function Handed(ps: seq<Parcel>): seq<seq<Entry>> {
    seq(|ps|, i requires 0 <= i < |ps| => ps[i].entries)
  }

  predicate InPushAsync(f: Fate) { f.InHand? || f.Acquired? || f.Counted? }

  predicate HoldsToken(f: Fate) { f.Acquired? || f.Counted? || f.Trying? || f.Finished? }

  predicate OnWaitGroup(f: Fate) { f.Counted? || f.Trying? || f.Finished? || f.Released? }

  function Count(ps: seq<Parcel>, p: Fate -> bool): nat {
    if ps == [] then 0 else Count(ps[..|ps| - 1], p) + if p(Last(ps).fate) then 1 else 0
  }

  // The entries of the parcels whose fate satisfies p.
  function Holding(ps: seq<Parcel>, p: Fate -> bool): multiset<Entry> {
    if ps == [] then multiset{}
    else Holding(ps[..|ps| - 1], p) + if p(Last(ps).fate) then multiset(Last(ps).entries) else multiset{}
  }
}
