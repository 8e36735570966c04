// Whether shutdown loses entries at the semaphore, by what is known when it is called.
module LokiLoss {
  import opened Seqs
  import opened LokiProtocol
  import opened LokiInvariants
  import opened LokiDelivery
  import opened LokiShutdown
  import opened LokiLate
  import opened LokiArrival

  // The tokens that can be wanted at once if every pending entry is flushed alone: those taken, one for
  // a batch in pushAsync, one for the current batch, and one for each queued entry.
  function Demand(s: State): nat {
    s.tokens + (if LastIs(s, InHand) then 1 else 0) + (if s.batch != [] then 1 else 0) + |s.ch|
  }

  // No parcel is lost in t that was not lost in s.
  ghost predicate NoNewLoss(s: State, t: State) {
    forall i :: 0 <= i < |t.parcels| && t.parcels[i].fate.Lost? ==> i < |s.parcels| && s.parcels[i].fate.Lost?
  }

  // The demand grows only by sends.

  lemma DemandStep(c: Limits, s: State, a: Action)
    requires c.Valid() && Control(c, s) && Accounts(c, s) && Enabled(c, s, a)
    ensures Demand(Apply(c, s, a)) <= Demand(s) + if a.Offer? then 1 else 0
  {
    if a.Attempt? || a.Release? || a.PusherDone? {
      PusherDemand(c, s, a);
    }
  }

  // A pusher's step never puts its parcel back in hand.
  lemma PusherDemand(c: Limits, s: State, a: Action)
    requires c.Valid() && Enabled(c, s, a) && (a.Attempt? || a.Release? || a.PusherDone?)
    ensures Demand(Apply(c, s, a)) <= Demand(s)
  {
    ParcelStep(c, s, a);
  }

  lemma NoLossStep(c: Limits, s: State, a: Action)
    requires c.Valid() && Accounts(c, s) && Enabled(c, s, a) && Demand(s) <= c.maxPush
    ensures NoNewLoss(s, Apply(c, s, a))
  {
    var t := Apply(c, s, a);
    forall i | 0 <= i < |t.parcels| && t.parcels[i].fate.Lost?
      ensures i < |s.parcels| && s.parcels[i].fate.Lost?
    {
      if !(i < |s.parcels| && s.parcels[i].fate.Lost?) {
        LostStep(c, s, a, i);
        assert false;
      }
    }
  }

  lemma {:induction false} LowDemandLosesNothing(c: Limits, s: State, acts: seq<Action>)
    requires c.Valid() && Inv(c, s) && Allowed(c, s, acts) && Demand(s) + OfferCount(acts) <= c.maxPush
    ensures NoNewLoss(s, Run(c, s, acts))
    decreases acts
  {
    if acts != [] {
      assert acts == [acts[0]] + acts[1..];
      OfferCountCons(acts[0], acts[1..]);
      DemandStep(c, s, acts[0]);
      NoLossStep(c, s, acts[0]);
      InvStep(c, s, acts[0]);
      LowDemandLosesNothing(c, Apply(c, s, acts[0]), acts[1..]);
    }
  }

  // A higher demand can be met by a loss: no pusher moves, and every entry is flushed alone.

  // run's next step on the way to a loss.
  function LossStep(s: State): Action
    requires s.parcels != [] || !s.phase.Pushing?
  {
    match s.phase
    case Received => SizeCheck
    case Pushing =>
      (match Last(s.parcels).fate case InHand => TryAcquire case Acquired => WgAdd case _ => Spawn)
    case _ => if s.batch != [] then Tick else Receive
  }

  predicate BeforeDrain(s: State) {
    s.phase.Selecting? || s.phase.Received? || (s.phase.Pushing? && s.parcels != [] && !Last(s.parcels).final)
  }

  lemma LossStepEnabled(c: Limits, s: State)
    requires c.Valid() && Control(c, s) && Accounts(c, s) && BeforeDrain(s)
    requires Demand(s) > c.maxPush || s.ch != []
    ensures var a := LossStep(s); Enabled(c, s, a) && !a.Offer? && !EmptyTick(s, a)
    ensures BeforeDrain(Apply(c, s, LossStep(s))) && Apply(c, s, LossStep(s)).caller == s.caller
  {
  }

  // Taking that step keeps the demand, or loses the batch in pushAsync.
  lemma LossStepDemand(c: Limits, s: State)
    requires c.Valid() && Control(c, s) && BeforeDrain(s) && Enabled(c, s, LossStep(s))
    ensures var t := Apply(c, s, LossStep(s));
      || Demand(t) == Demand(s)
      || (LastIs(s, InHand) && LastIs(t, Lost) && |t.parcels| == |s.parcels|)
  {
  }

  lemma {:induction false} LostStays(c: Limits, s: State, acts: seq<Action>, i: nat)
    requires c.Valid() && Allowed(c, s, acts) && i < |s.parcels| && s.parcels[i].fate.Lost?
    ensures i < |Run(c, s, acts).parcels| && Run(c, s, acts).parcels[i].fate.Lost?
    ensures Run(c, s, acts).parcels[i].entries == s.parcels[i].entries
    decreases acts
  {
    if acts != [] {
      ParcelStep(c, s, acts[0]);
      LostStays(c, Apply(c, s, acts[0]), acts[1..], i);
    }
  }

  // A parcel that is not lost in s is lost in t.
  predicate Loses(s: State, t: State, i: nat) {
    i < |t.parcels| && t.parcels[i].fate.Lost? && !(i < |s.parcels| && s.parcels[i].fate.Lost?)
  }

  // With k sends to come the tokens can run out.
  ghost predicate CanLose(c: Limits, s: State, k: nat) {
    Control(c, s) && ParcelsOk(c, s) && Accounts(c, s) && BeforeDrain(s) && Demand(s) + k > c.maxPush
  }

  // t is a step nearer to a loss, or the last parcel has just been lost.
  ghost predicate NearLoss(c: Limits, s: State, t: State, k: nat) {
    && BeforeDrain(t) && t.caller == s.caller && 0 <= Measure(c, t) < Measure(c, s)
    && (CanLose(c, t, k) || (s.parcels != [] && Loses(s, t, |s.parcels| - 1)))
  }

  lemma LossProgress(c: Limits, s: State, k: nat) returns (a: Action)
    requires c.Valid() && CanLose(c, s, k) && (k == 0 || s.ch != [])
    ensures Enabled(c, s, a) && !a.Offer? && NearLoss(c, s, Apply(c, s, a), k)
  {
    a := LossStep(s);
    LossStepEnabled(c, s);
    LossStepDemand(c, s);
    ControlStep(c, s, a);
    AccountsStep(c, s, a);
    StepDecreases(c, s, a);
    MeasureNat(c, Apply(c, s, a));
  }

  // While there is room, the sends still allowed are made.
  lemma OfferProgress(c: Limits, s: State, k: nat, e: Entry)
    requires c.Valid() && CanLose(c, s, k) && k > 0 && |s.ch| < c.queueSize
    ensures CanLose(c, Apply(c, s, Offer(e)), k - 1) && Apply(c, s, Offer(e)).caller == s.caller
  {
    ControlStep(c, s, Offer(e));
    AccountsStep(c, s, Offer(e));
  }

  lemma {:induction false} ToLoss(c: Limits, s: State, k: nat) returns (acts: seq<Action>, i: nat)
    requires c.Valid() && CanLose(c, s, k)
    ensures Allowed(c, s, acts) && OfferCount(acts) <= k
    ensures BeforeDrain(Run(c, s, acts)) && Run(c, s, acts).caller == s.caller
    ensures Loses(s, Run(c, s, acts), i)
    decreases k, Measure(c, s)
  {
    var rest;
    if k > 0 && |s.ch| < c.queueSize {
      var e := Entry(0, "", "");
      OfferProgress(c, s, k, e);
      rest, i := ToLoss(c, Apply(c, s, Offer(e)), k - 1);
      acts := LossCons(c, s, Offer(e), rest, i);
    } else {
      var a := LossProgress(c, s, k);
      var t := Apply(c, s, a);
      if CanLose(c, t, k) {
        rest, i := ToLoss(c, t, k);
      } else {
        rest, i := [], |s.parcels| - 1;
      }
      acts := LossCons(c, s, a, rest, i);
    }
  }

  // Putting a step before a run that loses parcel i, or has nothing more to lose.
  lemma LossCons(c: Limits, s: State, a: Action, rest: seq<Action>, i: nat) returns (acts: seq<Action>)
    requires c.Valid() && Enabled(c, s, a) && Allowed(c, Apply(c, s, a), rest)
    requires Loses(Apply(c, s, a), Run(c, Apply(c, s, a), rest), i) || (rest == [] && Loses(s, Apply(c, s, a), i))
    ensures Allowed(c, s, acts) && Run(c, s, acts) == Run(c, Apply(c, s, a), rest)
    ensures OfferCount(acts) == OfferCount(rest) + if a.Offer? then 1 else 0
    ensures Loses(s, Run(c, s, acts), i)
  {
    RunStep(c, s, a, rest);
    OfferCountCons(a, rest);
    acts := [a] + rest;
    if Loses(Apply(c, s, a), Run(c, Apply(c, s, a), rest), i) {
      NotLostBefore(c, s, a, i);
    }
  }

  // What is lost stays lost, so a parcel that is not lost now was not lost before.
  lemma NotLostBefore(c: Limits, s: State, a: Action, i: nat)
    requires c.Valid() && Enabled(c, s, a)
    requires !(i < |Apply(c, s, a).parcels| && Apply(c, s, a).parcels[i].fate.Lost?)
    ensures !(i < |s.parcels| && s.parcels[i].fate.Lost?)
  {
    ParcelStep(c, s, a);
  }

  // From before the drain to a nil return, with background steps and no send.
  lemma DrainToNilReturn(c: Limits, s: State) returns (acts: seq<Action>)
    requires c.Valid() && Inv(c, s) && s.caller.Waiting? && BeforeDrain(s)
    ensures Allowed(c, s, acts) && OfferCount(acts) == 0 && Run(c, s, acts).caller == Returned(true)
  {
    var drain := ToDrained(c, s);
    BackgroundFrame(c, s, drain);
    InvRun(c, s, drain);
    var rest := ToNilReturn(c, Run(c, s, drain));
    assert NoOffers(drain);
    OfferCountZero(drain);
    OfferCountConcat(drain, rest);
    RunConcat(c, s, drain, rest);
    acts := drain + rest;
  }

  // A continuation of shutdown, called after `before`, with at most k sends.
  ghost predicate Continuation(c: Limits, before: seq<Action>, after: seq<Action>, k: nat)
    requires c.Valid()
  {
    && Allowed(c, INIT, before) && Enabled(c, Run(c, INIT, before), CloseQuit)
    && Allowed(c, Apply(c, Run(c, INIT, before), CloseQuit), after) && OfferCount(after) <= k
  }

  // A nil return after a, which has lost parcel i.
  lemma FinishLoss(c: Limits, before: seq<Action>, a: seq<Action>, i: nat) returns (after: seq<Action>)
    requires c.Valid() && Continuation(c, before, a, OfferCount(a))
    requires var t := Outcome(c, before, a);
      BeforeDrain(t) && t.caller.Waiting? && i < |t.parcels| && t.parcels[i].fate.Lost?
    ensures NilReturn(c, before, after) && OfferCount(after) == OfferCount(a)
    ensures var ps := Outcome(c, before, after).parcels;
      i < |ps| && ps[i].fate.Lost? && ps[i].entries == Outcome(c, before, a).parcels[i].entries
  {
    var q := Apply(c, Run(c, INIT, before), CloseQuit);
    ReachableAfterQuit(c, before, a);
    var b := DrainToNilReturn(c, Run(c, q, a));
    LostStays(c, Run(c, q, a), b, i);
    RunConcat(c, q, a, b);
    OfferCountConcat(a, b);
    after := a + b;
  }

  lemma ReachableAfterQuit(c: Limits, before: seq<Action>, after: seq<Action>)
    requires c.Valid() && Continuation(c, before, after, OfferCount(after))
    ensures Inv(c, Outcome(c, before, after))
  {
    Reachable(c, before);
    InvStep(c, Run(c, INIT, before), CloseQuit);
    InvRun(c, Apply(c, Run(c, INIT, before), CloseQuit), after);
  }

  // Until quit is closed run is not draining.
  lemma QuitCanLose(c: Limits, s: State, k: nat)
    requires c.Valid() && Control(c, s) && ParcelsOk(c, s) && Accounts(c, s) && Quitting(c, s)
    requires Enabled(c, s, CloseQuit) && Demand(s) + k > c.maxPush
    ensures CanLose(c, Apply(c, s, CloseQuit), k)
  {
    ControlStep(c, s, CloseQuit);
    AccountsStep(c, s, CloseQuit);
  }

  lemma CanLoseAtQuit(c: Limits, before: seq<Action>, k: nat)
    requires c.Valid() && Allowed(c, INIT, before) && Enabled(c, Run(c, INIT, before), CloseQuit)
    requires Demand(Run(c, INIT, before)) + k > c.maxPush
    ensures CanLose(c, Apply(c, Run(c, INIT, before), CloseQuit), k)
  {
    Reachable(c, before);
    QuitCanLose(c, Run(c, INIT, before), k);
  }

  lemma ShutdownCanLose(c: Limits, before: seq<Action>, k: nat) returns (after: seq<Action>, i: nat)
    requires c.Valid() && Allowed(c, INIT, before) && Enabled(c, Run(c, INIT, before), CloseQuit)
    requires Demand(Run(c, INIT, before)) + k > c.maxPush
    ensures NilReturn(c, before, after) && OfferCount(after) <= k
    ensures Loses(Run(c, INIT, before), Outcome(c, before, after), i)
  {
    CanLoseAtQuit(c, before, k);
    var a;
    a, i := ToLoss(c, Apply(c, Run(c, INIT, before), CloseQuit), k);
    after := FinishLoss(c, before, a, i);
  }

  lemma ShutdownLosesNothing(c: Limits, before: seq<Action>, after: seq<Action>, k: nat)
    requires c.Valid() && Continuation(c, before, after, k) && Demand(Run(c, INIT, before)) + k <= c.maxPush
    ensures NoNewLoss(Run(c, INIT, before), Outcome(c, before, after))
  {
    ReachableAfterQuit(c, before, []);
    LowDemandLosesNothing(c, Apply(c, Run(c, INIT, before), CloseQuit), after);
  }

  // Whenever shutdown is called: if at most k sends can still happen afterwards, it is sure to lose no
  // batch at the semaphore, if and only if the demand at the call and k are together at most maxPush.
  lemma NoLossIff(c: Limits, before: seq<Action>, k: nat)
    requires c.Valid() && Allowed(c, INIT, before) && Enabled(c, Run(c, INIT, before), CloseQuit)
    ensures (forall after :: Continuation(c, before, after, k) ==>
               NoNewLoss(Run(c, INIT, before), Outcome(c, before, after)))
       <==> Demand(Run(c, INIT, before)) + k <= c.maxPush
  {
    if Demand(Run(c, INIT, before)) + k <= c.maxPush {
      forall after | Continuation(c, before, after, k)
        ensures NoNewLoss(Run(c, INIT, before), Outcome(c, before, after))
      {
        ShutdownLosesNothing(c, before, after, k);
      }
    } else {
      var after, i := ShutdownCanLose(c, before, k);
      assert Continuation(c, before, after, k) && !NoNewLoss(Run(c, INIT, before), Outcome(c, before, after));
    }
  }

  // The same among the continuations in which shutdown returns nil.
  lemma NilReturnLosesNothingIff(c: Limits, before: seq<Action>, k: nat)
    requires c.Valid() && Allowed(c, INIT, before) && Enabled(c, Run(c, INIT, before), CloseQuit)
    ensures (forall after :: NilReturn(c, before, after) && OfferCount(after) <= k ==>
               NoNewLoss(Run(c, INIT, before), Outcome(c, before, after)))
       <==> Demand(Run(c, INIT, before)) + k <= c.maxPush
  {
    if Demand(Run(c, INIT, before)) + k <= c.maxPush {
      forall after | NilReturn(c, before, after) && OfferCount(after) <= k
        ensures NoNewLoss(Run(c, INIT, before), Outcome(c, before, after))
      {
        ShutdownLosesNothing(c, before, after, k);
      }
    } else {
      var after, i := ShutdownCanLose(c, before, k);
      assert !NoNewLoss(Run(c, INIT, before), Outcome(c, before, after));
    }
  }

  // The caller has this parcel posted: accepted by Loki, or tried as often as allowed.
  predicate Posted(c: Limits, q: Parcel) {
    q.fate.Gone? && (q.fate.ok || q.fate.attempts == c.maxRetries)
  }

  // So a shutdown that returns nil, under that condition, has posted every entry accepted before the
  // call, apart from the batches lost before it.
  lemma ShutdownPostsEverything(c: Limits, before: seq<Action>, after: seq<Action>)
    requires c.Valid() && NilReturn(c, before, after)
    requires Demand(Run(c, INIT, before)) + OfferCount(after) <= c.maxPush
    ensures var s := Run(c, INIT, before);
      var t := Outcome(c, before, after);
      && s.accepted <= Flatten(Handed(t.parcels))
      && forall i :: 0 <= i < |t.parcels| ==>
           (i < |s.parcels| && s.parcels[i].fate.Lost?) || Posted(c, t.parcels[i])
  {
    NilShutdown(c, before, after);
    ShutdownLosesNothing(c, before, after, OfferCount(after));
  }

  // An input: maxPush pushes are under way and e is queued when shutdown is called. It returns nil, and
  // e, accepted before the call, was never posted.

  lemma {:induction false} HoldTokens(c: Limits, e: Entry, n: nat) returns (acts: seq<Action>)
    requires c.Valid() && n <= c.maxPush
    ensures Allowed(c, INIT, acts)
    ensures var t := Run(c, INIT, acts);
      t.phase.Selecting? && t.ch == [] && t.batch == [] && t.tokens == n && t.caller.NotCalled?
  {
    if n == 0 {
      acts := [];
    } else {
      var a := HoldTokens(c, e, n - 1);
      var s := Run(c, INIT, a);
      var b := FlushAndSpawn(c, s, e);
      RunConcat(c, INIT, a, b);
      acts := a + b;
    }
  }

  lemma LoseOne(c: Limits, s: State, e: Entry) returns (acts: seq<Action>)
    requires c.Valid() && s.phase.Selecting? && s.ch == [e] && s.batch == [] && s.tokens == c.maxPush
    ensures Allowed(c, s, acts) && OfferCount(acts) == 0
    ensures var t := Run(c, s, acts);
      t.phase.Selecting? && t.caller == s.caller && t.parcels == s.parcels + [Parcel([e], false, Lost)]
  {
    var a := FlushQueued(c, s, e);
    var t := Run(c, s, a);
    RunOne(c, t, TryAcquire);
    RunConcat(c, s, a, [TryAcquire]);
    acts := a + [TryAcquire];
    assert NoOffers(acts);
    OfferCountZero(acts);
  }

  lemma NilShutdownLosesEntry(c: Limits, e: Entry) returns (before: seq<Action>, after: seq<Action>, i: nat)
    requires c.Valid()
    ensures NilReturn(c, before, after) && OfferCount(after) == 0
    ensures var s := Run(c, INIT, before);
      var t := Outcome(c, before, after);
      && s.ch == [e] && s.accepted != [] && Last(s.accepted) == e
      && |s.parcels| <= i < |t.parcels| && t.parcels[i].entries == [e] && t.parcels[i].fate.Lost?
  {
    var hold := HoldTokens(c, e, c.maxPush);
    var h := Run(c, INIT, hold);
    RunOne(c, h, Offer(e));
    RunConcat(c, INIT, hold, [Offer(e)]);
    before := hold + [Offer(e)];
    var s := Run(c, INIT, before);
    var a := LoseOne(c, Apply(c, s, CloseQuit), e);
    i := |s.parcels|;
    after := FinishLoss(c, before, a, i);
  }
}
