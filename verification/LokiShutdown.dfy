// What a nil return of shutdown means, and why the drain ends.
module LokiShutdown {
  import opened Seqs
  import opened LokiProtocol
  import opened LokiInvariants
  import opened LokiDelivery

  // Fates of a batch in a sender that has shut down.
  predicate Settled(c: Limits, f: Fate) {
    || f.Lost?
    || (f.Gone? && f.ok && 1 <= f.attempts <= c.maxRetries)
    || (f.Gone? && !f.ok && f.attempts == c.maxRetries)
  }

  lemma DoneMeansQuiet(c: Limits, s: State)
    requires c.Valid() && Inv(c, s) && s.done
    ensures s.phase.Stopped? && s.batch == [] && s.wg == 0 && s.tokens == 0
    ensures forall i :: 0 <= i < |s.parcels| ==> Settled(c, s.parcels[i].fate)
  {
    WgZero(c, s);
    CountWitness(s.parcels, HoldsToken);
  }

  lemma PolledLog(c: Limits, s: State)
    requires c.Valid() && Inv(c, s) && s.phase.Stopped?
    ensures s.acceptedAtQuit <= s.acceptedAtPoll <= |s.accepted|
    ensures Flatten(Handed(s.parcels)) == s.accepted[..s.acceptedAtPoll]
    ensures s.ch == s.accepted[s.acceptedAtPoll..]
  {
    assert Flatten(Handed(s.parcels)) + [] + s.ch == s.accepted;
  }

  // After shutdown returns nil: run has exited with an empty batch, no push is in flight and no
  // token is held; every entry accepted before quit was closed is in a batch that was delivered,
  // failed after the maximum number of attempts, or lost at the semaphore; and the channel holds
  // exactly the entries accepted after the final empty poll.
  lemma NilShutdown(c: Limits, before: seq<Action>, after: seq<Action>)
    requires c.Valid() && Allowed(c, INIT, before) && Enabled(c, Run(c, INIT, before), CloseQuit)
    requires Allowed(c, Apply(c, Run(c, INIT, before), CloseQuit), after)
    requires Run(c, Apply(c, Run(c, INIT, before), CloseQuit), after).caller == Returned(true)
    ensures var s := Run(c, INIT, before);
      var t := Run(c, Apply(c, s, CloseQuit), after);
      && t.phase.Stopped? && t.batch == [] && t.wg == 0 && t.tokens == 0
      && (forall i :: 0 <= i < |t.parcels| ==> Settled(c, t.parcels[i].fate))
      && s.accepted <= Flatten(Handed(t.parcels))
      && Flatten(Handed(t.parcels)) + t.ch == t.accepted
      && t.acceptedAtPoll <= |t.accepted| && t.ch == t.accepted[t.acceptedAtPoll..]
  {
    Reachable(c, before);
    var s := Run(c, INIT, before);
    var q := Apply(c, s, CloseQuit);
    InvStep(c, s, CloseQuit);
    InvRun(c, q, after);
    HandedIsStable(c, q, after);
    var t := Run(c, q, after);
    DoneMeansQuiet(c, t);
    PolledLog(c, t);
    PrefixOfPrefix(s.accepted, t.accepted, t.acceptedAtPoll);
  }

  lemma PrefixOfPrefix<T>(a: seq<T>, b: seq<T>, n: nat)
    requires a <= b && |a| <= n <= |b|
    ensures a <= b[..n]
  {
  }

  // No entry is left behind exactly when nothing was accepted after the final empty poll.
  lemma NothingLeftBehind(c: Limits, acts: seq<Action>)
    requires c.Valid() && Allowed(c, INIT, acts) && Run(c, INIT, acts).caller == Returned(true)
    ensures var t := Run(c, INIT, acts);
      Flatten(Handed(t.parcels)) == t.accepted <==> |t.accepted| == t.acceptedAtPoll
  {
    Reachable(c, acts);
    DoneMeansQuiet(c, Run(c, INIT, acts));
    PolledLog(c, Run(c, INIT, acts));
  }

  // "Flushes buffered entries" is not "delivers them": a run whose shutdown returns nil although the
  // entry accepted last is still in the channel.
  lemma NilShutdownLeavesEntry(c: Limits, e: Entry)
    requires c.Valid()
    ensures var acts := [CloseQuit, SeeQuit, DrainEmpty, Offer(e), FinalFlush, RunDone, WaiterWake, ReturnNil];
      && Allowed(c, INIT, acts)
      && Run(c, INIT, acts).caller == Returned(true)
      && Run(c, INIT, acts).accepted == [e] == Run(c, INIT, acts).ch
  {
    var a := LateOffer(c, e);
    var b := DrainWithoutIt(c, e);
    RunConcat(c, INIT, a, b);
    assert a + b == [CloseQuit, SeeQuit, DrainEmpty, Offer(e), FinalFlush, RunDone, WaiterWake, ReturnNil];
  }

  // The sender after its final empty poll, with one more entry accepted.
  function LateEntry(e: Entry): State {
    INIT.(quit := true, caller := Waiting, phase := Drained, ch := [e], accepted := [e], offered := [e])
  }

  lemma LateOffer(c: Limits, e: Entry) returns (acts: seq<Action>)
    requires c.Valid()
    ensures acts == [CloseQuit, SeeQuit, DrainEmpty, Offer(e)]
    ensures Allowed(c, INIT, acts) && Run(c, INIT, acts) == LateEntry(e)
  {
    var s1 := Apply(c, INIT, CloseQuit);
    var s2 := Apply(c, s1, SeeQuit);
    var s3 := Apply(c, s2, DrainEmpty);
    RunOne(c, s3, Offer(e));
    RunStep(c, s2, DrainEmpty, [Offer(e)]);
    RunStep(c, s1, SeeQuit, [DrainEmpty] + [Offer(e)]);
    RunStep(c, INIT, CloseQuit, [SeeQuit] + ([DrainEmpty] + [Offer(e)]));
    acts := [CloseQuit] + ([SeeQuit] + ([DrainEmpty] + [Offer(e)]));
  }

  lemma DrainWithoutIt(c: Limits, e: Entry) returns (acts: seq<Action>)
    requires c.Valid()
    ensures acts == [FinalFlush, RunDone, WaiterWake, ReturnNil]
    ensures Allowed(c, LateEntry(e), acts)
    ensures var t := Run(c, LateEntry(e), acts); t.caller == Returned(true) && t.accepted == [e] == t.ch
  {
    var s1 := Apply(c, LateEntry(e), FinalFlush);
    var s2 := Apply(c, s1, RunDone);
    var s3 := Apply(c, s2, WaiterWake);
    RunOne(c, s3, ReturnNil);
    RunStep(c, s2, WaiterWake, [ReturnNil]);
    RunStep(c, s1, RunDone, [WaiterWake] + [ReturnNil]);
    RunStep(c, LateEntry(e), FinalFlush, [RunDone] + ([WaiterWake] + [ReturnNil]));
    acts := [FinalFlush] + ([RunDone] + ([WaiterWake] + [ReturnNil]));
  }

  // Progress.

  function FateWork(c: Limits, f: Fate): int {
    match f
    case InHand => c.maxRetries + 5
    case Acquired => c.maxRetries + 4
    case Counted => c.maxRetries + 3
    case Trying(k) => c.maxRetries - k + 2
    case Finished(_, _) => 2
    case Released(_, _) => 1
    case _ => 0
  }

  function ParcelWork(c: Limits, ps: seq<Parcel>): int {
    if ps == [] then 0 else ParcelWork(c, ps[..|ps| - 1]) + FateWork(c, Last(ps).fate)
  }

  function PhaseWork(s: State): nat {
    match s.phase
    case Received => 5
    case Selecting => 4
    case Pushing => if s.parcels != [] && Last(s.parcels).final then 1 else 4
    case Draining => 3
    case Drained => 2
    case Returning => 1
    case Stopped => 0
  }

  function CallerWork(s: State): nat {
    (match s.caller case NotCalled => 2 case Waiting => 1 case Returned(_) => 0) + if s.done then 0 else 1
  }

  function Times(n: nat, w: nat): nat {
    if n == 0 then 0 else Times(n - 1, w) + w
  }

  // An upper bound on the steps left to everyone but the producers.
  function Measure(c: Limits, s: State): int {
    Times(|s.ch|, c.maxRetries + 8) + Times(|s.batch|, c.maxRetries + 6) + ParcelWork(c, s.parcels)
      + PhaseWork(s) + CallerWork(s) + 2 * s.adding + |s.tickets|
  }

  predicate EmptyTick(s: State, a: Action) {
    a.Tick? && s.batch == []
  }

  lemma {:induction false} ParcelWorkSetFate(c: Limits, ps: seq<Parcel>, i: nat, f: Fate)
    requires i < |ps|
    ensures ParcelWork(c, SetFate(ps, i, f)) == ParcelWork(c, ps) - FateWork(c, ps[i].fate) + FateWork(c, f)
  {
    var n := |ps| - 1;
    if i == n {
      assert SetFate(ps, i, f)[..n] == ps[..n];
    } else {
      assert SetFate(ps, i, f)[..n] == SetFate(ps[..n], i, f);
      ParcelWorkSetFate(c, ps[..n], i, f);
    }
  }

  lemma {:induction false} ParcelWorkNat(c: Limits, ps: seq<Parcel>)
    requires forall i :: 0 <= i < |ps| ==> FateOk(c, ps[i].fate)
    ensures ParcelWork(c, ps) >= 0
  {
    if ps != [] {
      ParcelWorkNat(c, ps[..|ps| - 1]);
    }
  }

  lemma MeasureNat(c: Limits, s: State)
    requires ParcelsOk(c, s)
    ensures Measure(c, s) >= 0
  {
    ParcelWorkNat(c, s.parcels);
  }

  lemma TakeDecreases(c: Limits, s: State, a: Action)
    requires c.Valid() && Enabled(c, s, a) && (a.Receive? || a.DrainReceive?)
    ensures Measure(c, Apply(c, s, a)) < Measure(c, s)
  {
  }

  lemma FlushDecreases(c: Limits, s: State, final: bool)
    requires c.Valid() && Control(c, s) && s.batch != []
    requires if final then s.phase.Drained? else s.phase in {Selecting, Received}
    ensures Measure(c, Flush(s, final)) < Measure(c, s)
  {
    assert Flush(s, final).parcels[..|s.parcels|] == s.parcels;
  }

  lemma SetFateDecreases(c: Limits, s: State, t: State, i: nat, f: Fate)
    requires i < |s.parcels| && t.parcels == SetFate(s.parcels, i, f) && FateWork(c, f) < FateWork(c, s.parcels[i].fate)
    requires t.ch == s.ch && t.batch == s.batch && t.adding == s.adding && t.tickets == s.tickets
    requires PhaseWork(t) == PhaseWork(s) && CallerWork(t) == CallerWork(s)
    ensures Measure(c, t) < Measure(c, s)
  {
    ParcelWorkSetFate(c, s.parcels, i, f);
  }

  lemma PusherDecreases(c: Limits, s: State, a: Action)
    requires c.Valid() && ParcelsOk(c, s) && Enabled(c, s, a)
    requires a.Attempt? || a.Release? || a.PusherDone?
    ensures Measure(c, Apply(c, s, a)) < Measure(c, s)
  {
    var t := Apply(c, s, a);
    assert FateOk(c, s.parcels[a.i].fate);
    SetFateDecreases(c, s, t, a.i, t.parcels[a.i].fate);
  }

  lemma PushAsyncDecreases(c: Limits, s: State, a: Action)
    requires c.Valid() && Enabled(c, s, a) && a in {TryAcquire, WgAdd, Spawn}
    ensures Measure(c, Apply(c, s, a)) < Measure(c, s)
  {
    var t := Apply(c, s, a);
    SetFateDecreases(c, s, t, |s.parcels| - 1, Last(t.parcels).fate);
  }

  lemma CountingDecreases(c: Limits, s: State, a: Action)
    requires c.Valid() && Enabled(c, s, a) && (a.CountDrop? || a.CheckWarn?)
    ensures Measure(c, Apply(c, s, a)) < Measure(c, s)
  {
    if a.CheckWarn? {
      assert s.tickets == (s.tickets - {a.n}) + {a.n};
    } else {
      assert |s.tickets + {s.dropped + 1}| <= |s.tickets| + 1;
    }
  }

  // Every step but a producer's send and a tick on an empty batch takes work off the measure.
  lemma StepDecreases(c: Limits, s: State, a: Action)
    requires c.Valid() && Control(c, s) && ParcelsOk(c, s) && Enabled(c, s, a) && !a.Offer?
    ensures if EmptyTick(s, a) then Apply(c, s, a) == s else Measure(c, Apply(c, s, a)) < Measure(c, s)
  {
    match a {
      case Offer(_) =>
      case Receive => TakeDecreases(c, s, a);
      case DrainReceive => TakeDecreases(c, s, a);
      case SizeCheck => if |s.batch| >= c.maxBatch { FlushDecreases(c, s, false); }
      case Tick => if s.batch != [] { FlushDecreases(c, s, false); }
      case FinalFlush => if s.batch != [] { FlushDecreases(c, s, true); }
      case TryAcquire => PushAsyncDecreases(c, s, a);
      case WgAdd => PushAsyncDecreases(c, s, a);
      case Spawn => PushAsyncDecreases(c, s, a);
      case Attempt(_, _) => PusherDecreases(c, s, a);
      case Release(_) => PusherDecreases(c, s, a);
      case PusherDone(_) => PusherDecreases(c, s, a);
      case CountDrop => CountingDecreases(c, s, a);
      case CheckWarn(_) => CountingDecreases(c, s, a);
      case _ => assert Apply(c, s, a).parcels == s.parcels;
    }
  }

  // The steps of a run that are not ticks on an empty batch.
  function Work(c: Limits, s: State, acts: seq<Action>): nat
    requires c.Valid() && Allowed(c, s, acts)
    decreases acts
  {
    if acts == [] then 0
    else (if EmptyTick(s, acts[0]) then 0 else 1) + Work(c, Apply(c, s, acts[0]), acts[1..])
  }

  predicate NoOffers(acts: seq<Action>) {
    forall i :: 0 <= i < |acts| ==> !acts[i].Offer?
  }

  lemma WorkUnfold(c: Limits, s: State, acts: seq<Action>)
    requires c.Valid() && Inv(c, s) && Allowed(c, s, acts) && NoOffers(acts) && acts != []
    ensures var t := Apply(c, s, acts[0]);
      && Inv(c, t) && Allowed(c, t, acts[1..]) && NoOffers(acts[1..])
      && Run(c, s, acts) == Run(c, t, acts[1..])
      && Work(c, s, acts) + Measure(c, t) <= Work(c, t, acts[1..]) + Measure(c, s)
  {
    StepDecreases(c, s, acts[0]);
    InvStep(c, s, acts[0]);
  }

  lemma {:induction false} WorkBalance(c: Limits, s: State, acts: seq<Action>)
    requires c.Valid() && Inv(c, s) && Allowed(c, s, acts) && NoOffers(acts)
    ensures Work(c, s, acts) + Measure(c, Run(c, s, acts)) <= Measure(c, s)
    decreases acts
  {
    if acts != [] {
      WorkUnfold(c, s, acts);
      WorkBalance(c, Apply(c, s, acts[0]), acts[1..]);
    }
  }

  predicate Unfinished(f: Fate) { !f.Lost? && !f.Gone? }

  lemma {:induction false} TimesIsProduct(n: nat, w: nat)
    ensures Times(n, w) == n * w
  {
    if n > 0 {
      TimesIsProduct(n - 1, w);
      assert (n - 1) * w + w == n * w;
    }
  }

  lemma {:induction false} ParcelWorkBound(c: Limits, ps: seq<Parcel>)
    requires forall i :: 0 <= i < |ps| ==> FateOk(c, ps[i].fate)
    ensures ParcelWork(c, ps) <= Times(Count(ps, Unfinished), c.maxRetries + 5)
  {
    if ps != [] {
      ParcelWorkBound(c, ps[..|ps| - 1]);
    }
  }

  lemma MeasureBound(c: Limits, s: State)
    requires ParcelsOk(c, s)
    ensures Measure(c, s)
         <= |s.ch| * (c.maxRetries + 8) + |s.batch| * (c.maxRetries + 6)
            + Count(s.parcels, Unfinished) * (c.maxRetries + 5) + 8 + 2 * s.adding + |s.tickets|
  {
    TimesIsProduct(|s.ch|, c.maxRetries + 8);
    TimesIsProduct(|s.batch|, c.maxRetries + 6);
    TimesIsProduct(Count(s.parcels, Unfinished), c.maxRetries + 5);
    ParcelWorkBound(c, s.parcels);
  }

  // Only ticks are no work.
  lemma {:induction false} WorkAndTicks(c: Limits, s: State, acts: seq<Action>)
    requires c.Valid() && Allowed(c, s, acts)
    ensures |acts| <= Work(c, s, acts) + multiset(acts)[Tick]
    decreases acts
  {
    if acts != [] {
      WorkAndTicks(c, Apply(c, s, acts[0]), acts[1..]);
      assert acts == [acts[0]] + acts[1..];
    }
  }

  // Once producers stop, a run makes at most Measure steps besides empty ticks: so many for each queued
  // entry, each entry of the batch, each batch that is not finished, and each producer.
  lemma WorkIsBounded(c: Limits, s: State, acts: seq<Action>)
    requires c.Valid() && Inv(c, s) && Allowed(c, s, acts) && NoOffers(acts)
    ensures Work(c, s, acts) <= Measure(c, s)
    ensures |acts| - multiset(acts)[Tick]
         <= |s.ch| * (c.maxRetries + 8) + |s.batch| * (c.maxRetries + 6)
            + Count(s.parcels, Unfinished) * (c.maxRetries + 5) + 8 + 2 * s.adding + |s.tickets|
  {
    WorkBalance(c, s, acts);
    InvRun(c, s, acts);
    MeasureNat(c, Run(c, s, acts));
    MeasureBound(c, s);
    WorkAndTicks(c, s, acts);
  }

  // A step of run, of a push goroutine or of the goroutine waiting on the wait group, and not a tick.
  predicate BackgroundStep(a: Action) {
    || a in {Receive, SizeCheck, SeeQuit, DrainReceive, DrainEmpty, FinalFlush, TryAcquire, WgAdd, Spawn, RunDone}
    || a.Attempt? || a.Release? || a.PusherDone? || a.WaiterWake?
  }

  // Until done is closed, run, a pusher or the waiter can take a step that is not a tick.
  lemma NoDeadlock(c: Limits, s: State) returns (a: Action)
    requires c.Valid() && Inv(c, s) && s.quit && !s.done
    ensures Enabled(c, s, a) && BackgroundStep(a)
  {
    match s.phase {
      case Selecting => a := SeeQuit;
      case Received => a := SizeCheck;
      case Draining => a := if s.ch == [] then DrainEmpty else DrainReceive;
      case Drained => a := FinalFlush;
      case Returning => a := RunDone;
      case Pushing =>
        a := match Last(s.parcels).fate case InHand => TryAcquire case Acquired => WgAdd case _ => Spawn;
      case Stopped =>
        WgZero(c, s);
        if s.wg == 0 {
          a := WaiterWake;
        } else {
          a := PusherCanStep(c, s);
        }
    }
  }

  lemma PusherCanStep(c: Limits, s: State) returns (a: Action)
    requires c.Valid() && Inv(c, s) && s.phase.Stopped? && s.wg != 0
    ensures Enabled(c, s, a) && (a.Attempt? || a.Release? || a.PusherDone?)
  {
    WgZero(c, s);
    CountWitness(s.parcels, HoldsToken);
    var i :| 0 <= i < |s.parcels| && OnWaitGroup(s.parcels[i].fate);
    match s.parcels[i].fate {
      case Trying(_) => a := Attempt(i, true);
      case Finished(_, _) => a := Release(i);
      case _ => a := PusherDone(i);
    }
  }

  // So a drain that goes on as long as these goroutines can move ends with done closed, whatever the
  // producers are doing, and shutdown can return nil.
  lemma DrainCompletes(c: Limits, s: State, acts: seq<Action>)
    requires c.Valid() && Inv(c, s) && s.quit && Allowed(c, s, acts)
    requires forall a :: Enabled(c, Run(c, s, acts), a) ==> !BackgroundStep(a)
    ensures Run(c, s, acts).done
    ensures Run(c, s, acts).caller.Waiting? ==> Enabled(c, Run(c, s, acts), ReturnNil)
  {
    InvRun(c, s, acts);
    HandedIsStable(c, s, acts);
    var t := Run(c, s, acts);
    if !t.done {
      var a := NoDeadlock(c, t);
    }
  }
}
