// What a caller of shutdown can rely on: entries offered after shutdown has begun are the only ones
// that a nil return can leave in the channel, and one such entry is enough, from any state.
module LokiLate {
  import opened Seqs
  import opened LokiProtocol
  import opened LokiInvariants
  import opened LokiDelivery
  import opened LokiShutdown

  // The sends attempted in a run.
  function OfferCount(acts: seq<Action>): nat {
    if acts == [] then 0 else OfferCount(acts[..|acts| - 1]) + if Last(acts).Offer? then 1 else 0
  }

  lemma {:induction false} OfferCountConcat(a: seq<Action>, b: seq<Action>)
    ensures OfferCount(a + b) == OfferCount(a) + OfferCount(b)
  {
    if b == [] {
      assert a + b == a;
    } else {
      assert (a + b)[..|a + b| - 1] == a + b[..|b| - 1];
      OfferCountConcat(a, b[..|b| - 1]);
    }
  }

  lemma OfferCountCons(a: Action, acts: seq<Action>)
    ensures OfferCount([a] + acts) == OfferCount(acts) + if a.Offer? then 1 else 0
  {
    OfferCountConcat([a], acts);
    assert [a][..0] == [];
  }

  lemma {:induction false} OfferCountZero(acts: seq<Action>)
    ensures OfferCount(acts) == 0 <==> NoOffers(acts)
  {
    if acts != [] {
      var init := acts[..|acts| - 1];
      OfferCountZero(init);
      assert forall i :: 0 <= i < |init| ==> init[i] == acts[i];
      assert NoOffers(acts) <==> NoOffers(init) && !Last(acts).Offer?;
    }
  }

  lemma {:induction false} AcceptedStays(c: Limits, s: State, acts: seq<Action>)
    requires c.Valid() && Allowed(c, s, acts) && NoOffers(acts)
    ensures Run(c, s, acts).accepted == s.accepted
    decreases acts
  {
    if acts != [] {
      AcceptedStays(c, Apply(c, s, acts[0]), acts[1..]);
    }
  }

  // shutdown is called after `before`, and returns nil in `after`.
  ghost predicate NilReturn(c: Limits, before: seq<Action>, after: seq<Action>)
    requires c.Valid()
  {
    && Allowed(c, INIT, before) && Enabled(c, Run(c, INIT, before), CloseQuit)
    && Allowed(c, Apply(c, Run(c, INIT, before), CloseQuit), after)
    && Outcome(c, before, after).caller == Returned(true)
  }

  ghost function Outcome(c: Limits, before: seq<Action>, after: seq<Action>): State
    requires c.Valid() && Allowed(c, INIT, before) && Enabled(c, Run(c, INIT, before), CloseQuit)
    requires Allowed(c, Apply(c, Run(c, INIT, before), CloseQuit), after)
  {
    Run(c, Apply(c, Run(c, INIT, before), CloseQuit), after)
  }

  // With no send after shutdown begins, a nil return leaves nothing: every entry ever accepted was
  // handed over.
  lemma NothingLeftWithoutOffers(c: Limits, before: seq<Action>, after: seq<Action>)
    requires c.Valid() && NilReturn(c, before, after) && NoOffers(after)
    ensures var t := Outcome(c, before, after);
      t.ch == [] && Flatten(Handed(t.parcels)) == t.accepted == Run(c, INIT, before).accepted
  {
    var s := Run(c, INIT, before);
    var q := Apply(c, s, CloseQuit);
    NilShutdown(c, before, after);
    AcceptedStays(c, q, after);
    HandedPrefixIsAll(s.accepted, Flatten(Handed(Run(c, q, after).parcels)), Run(c, q, after).ch);
  }

  lemma HandedPrefixIsAll<T>(all: seq<T>, handed: seq<T>, rest: seq<T>)
    requires all <= handed && handed + rest == all
    ensures rest == [] && handed == all
  {
    assert |all| <= |handed| && |handed| + |rest| == |all|;
  }

  // Completing a run with background steps only.

  ghost predicate Background(acts: seq<Action>) {
    forall i :: 0 <= i < |acts| ==> BackgroundStep(acts[i])
  }

  lemma BackgroundKeepsCaller(c: Limits, s: State, a: Action)
    requires c.Valid() && Enabled(c, s, a) && BackgroundStep(a)
    ensures Apply(c, s, a).caller == s.caller
  {
  }

  lemma {:induction false} BackgroundFrame(c: Limits, s: State, acts: seq<Action>)
    requires c.Valid() && Allowed(c, s, acts) && Background(acts)
    ensures Run(c, s, acts).caller == s.caller
    decreases acts
  {
    if acts != [] {
      BackgroundKeepsCaller(c, s, acts[0]);
      BackgroundFrame(c, Apply(c, s, acts[0]), acts[1..]);
    }
  }

  lemma Prepend(c: Limits, s: State, a: Action, acts: seq<Action>)
    requires c.Valid() && Enabled(c, s, a) && BackgroundStep(a)
    requires Allowed(c, Apply(c, s, a), acts) && Background(acts)
    ensures Allowed(c, s, [a] + acts) && Run(c, s, [a] + acts) == Run(c, Apply(c, s, a), acts)
    ensures Background([a] + acts)
  {
    RunStep(c, s, a, acts);
  }

  // The next step of run before its final poll; run itself never waits.
  function BatcherStep(s: State): Action
    requires s.parcels != [] || !s.phase.Pushing?
  {
    match s.phase
    case Received => SizeCheck
    case Pushing =>
      (match Last(s.parcels).fate case InHand => TryAcquire case Acquired => WgAdd case _ => Spawn)
    case Draining => if s.ch == [] then DrainEmpty else DrainReceive
    case _ => SeeQuit
  }

  lemma BatcherProgress(c: Limits, s: State)
    requires c.Valid() && Control(c, s) && s.quit && !Polled(s)
    ensures s.parcels != [] || !s.phase.Pushing?
    ensures var a := BatcherStep(s); Enabled(c, s, a) && BackgroundStep(a) && a != WaiterWake
    ensures var t := Apply(c, s, BatcherStep(s));
      t.quit && (Polled(t) ==> t.phase.Drained? && t.ch == [])
  {
  }

  lemma {:induction false} ToDrained(c: Limits, s: State) returns (acts: seq<Action>)
    requires c.Valid() && Control(c, s) && ParcelsOk(c, s) && s.quit && !Polled(s)
    ensures Allowed(c, s, acts) && Background(acts)
    ensures Run(c, s, acts).phase.Drained? && Run(c, s, acts).ch == []
    decreases Measure(c, s)
  {
    BatcherProgress(c, s);
    var a := BatcherStep(s);
    var t := Apply(c, s, a);
    if Polled(t) {
      RunOne(c, s, a);
      acts := [a];
    } else {
      ControlStep(c, s, a);
      StepDecreases(c, s, a);
      MeasureNat(c, s);
      var rest := ToDrained(c, t);
      Prepend(c, s, a, rest);
      acts := [a] + rest;
    }
  }

  // Past the final poll no background step takes an entry.
  lemma PolledStep(c: Limits, s: State, a: Action)
    requires c.Valid() && Control(c, s) && Polled(s) && Enabled(c, s, a) && BackgroundStep(a)
    ensures Polled(Apply(c, s, a)) && Apply(c, s, a).ch == s.ch && Apply(c, s, a).quit == s.quit
  {
    ParcelStep(c, s, a);
  }

  lemma {:induction false} ToDone(c: Limits, s: State) returns (acts: seq<Action>)
    requires c.Valid() && Inv(c, s) && s.quit && Polled(s)
    ensures Allowed(c, s, acts) && Background(acts)
    ensures Run(c, s, acts).done && Run(c, s, acts).ch == s.ch
    decreases Measure(c, s)
  {
    if s.done {
      acts := [];
    } else {
      var a := NoDeadlock(c, s);
      PolledStep(c, s, a);
      InvStep(c, s, a);
      StepDecreases(c, s, a);
      MeasureNat(c, s);
      var rest := ToDone(c, Apply(c, s, a));
      Prepend(c, s, a, rest);
      acts := [a] + rest;
    }
  }

  // From a state past the final poll, a nil return with the channel as it is.
  lemma ToNilReturn(c: Limits, s: State) returns (acts: seq<Action>)
    requires c.Valid() && Inv(c, s) && s.caller.Waiting? && Polled(s)
    ensures Allowed(c, s, acts) && OfferCount(acts) == 0
    ensures Run(c, s, acts).caller == Returned(true) && Run(c, s, acts).ch == s.ch
  {
    var steps := ToDone(c, s);
    BackgroundFrame(c, s, steps);
    assert NoOffers(steps);
    var t := Run(c, s, steps);
    RunOne(c, t, ReturnNil);
    RunConcat(c, s, steps, [ReturnNil]);
    acts := steps + [ReturnNil];
    assert NoOffers(acts);
    OfferCountZero(acts);
  }

  // From every state in which shutdown can be called: a continuation that offers e once, after the
  // final poll, returns nil and leaves e behind.
  lemma LateOfferIsLeft(c: Limits, before: seq<Action>, e: Entry) returns (after: seq<Action>)
    requires c.Valid() && Allowed(c, INIT, before) && Enabled(c, Run(c, INIT, before), CloseQuit)
    ensures NilReturn(c, before, after) && OfferCount(after) == 1
    ensures Outcome(c, before, after).ch == [e]
  {
    Reachable(c, before);
    var s := Run(c, INIT, before);
    InvStep(c, s, CloseQuit);
    var q := Apply(c, s, CloseQuit);
    var drain := ToDrained(c, q);
    BackgroundFrame(c, q, drain);
    assert NoOffers(drain);
    InvRun(c, q, drain);
    var rest := OfferAndReturn(c, Run(c, q, drain), e);
    RunConcat(c, q, drain, rest);
    after := drain + rest;
    OfferCountZero(drain);
    OfferCountConcat(drain, rest);
  }

  // One send after the final poll, and then a nil return.
  lemma OfferAndReturn(c: Limits, s: State, e: Entry) returns (acts: seq<Action>)
    requires c.Valid() && Inv(c, s) && s.phase.Drained? && s.ch == [] && s.caller.Waiting?
    ensures Allowed(c, s, acts) && OfferCount(acts) == 1
    ensures Run(c, s, acts).caller == Returned(true) && Run(c, s, acts).ch == [e]
  {
    InvStep(c, s, Offer(e));
    var rest := ToNilReturn(c, Apply(c, s, Offer(e)));
    RunStep(c, s, Offer(e), rest);
    acts := [Offer(e)] + rest;
    OfferCountCons(Offer(e), rest);
  }

  // A shutdown whose context ends can return its error at any time, and that stops nothing: what it
  // had begun goes on, and background steps alone can still take run and the pushers to their end.
  lemma ReturnErrorGoesOn(c: Limits, before: seq<Action>, during: seq<Action>) returns (after: seq<Action>)
    requires c.Valid() && Allowed(c, INIT, before) && Enabled(c, Run(c, INIT, before), CloseQuit)
    requires Allowed(c, Apply(c, Run(c, INIT, before), CloseQuit), during)
    requires Outcome(c, before, during).caller.Waiting?
    ensures Enabled(c, Outcome(c, before, during), ReturnError)
    ensures var t := Apply(c, Outcome(c, before, during), ReturnError);
      && t == Outcome(c, before, during).(caller := Returned(false))
      && Allowed(c, t, after) && Background(after)
      && Run(c, t, after).done && Run(c, t, after).caller == Returned(false)
      && Run(c, INIT, before).accepted <= Flatten(Handed(Run(c, t, after).parcels))
  {
    ReachableLate(c, before, during);
    var t := Apply(c, Outcome(c, before, during), ReturnError);
    InvStep(c, Outcome(c, before, during), ReturnError);
    after := ToEnd(c, t);
    BackgroundFrame(c, t, after);
    HandsOver(c, before, during, after);
  }

  lemma ReachableLate(c: Limits, before: seq<Action>, during: seq<Action>)
    requires c.Valid() && Allowed(c, INIT, before) && Enabled(c, Run(c, INIT, before), CloseQuit)
    requires Allowed(c, Apply(c, Run(c, INIT, before), CloseQuit), during)
    ensures Inv(c, Outcome(c, before, during))
    ensures Extends(Apply(c, Run(c, INIT, before), CloseQuit), Outcome(c, before, during))
  {
    Reachable(c, before);
    InvStep(c, Run(c, INIT, before), CloseQuit);
    InvRun(c, Apply(c, Run(c, INIT, before), CloseQuit), during);
    HandedIsStable(c, Apply(c, Run(c, INIT, before), CloseQuit), during);
  }

  // Background steps alone close done.
  lemma ToEnd(c: Limits, s: State) returns (acts: seq<Action>)
    requires c.Valid() && Inv(c, s) && s.quit
    ensures Allowed(c, s, acts) && Background(acts) && Run(c, s, acts).done
  {
    if Polled(s) {
      acts := ToDone(c, s);
    } else {
      var drain := ToDrained(c, s);
      InvRun(c, s, drain);
      HandedIsStable(c, s, drain);
      var rest := ToDone(c, Run(c, s, drain));
      RunConcat(c, s, drain, rest);
      acts := drain + rest;
    }
  }

  lemma HandsOver(c: Limits, before: seq<Action>, during: seq<Action>, after: seq<Action>)
    requires c.Valid() && Allowed(c, INIT, before) && Enabled(c, Run(c, INIT, before), CloseQuit)
    requires Allowed(c, Apply(c, Run(c, INIT, before), CloseQuit), during)
    requires Enabled(c, Outcome(c, before, during), ReturnError)
    requires Allowed(c, Apply(c, Outcome(c, before, during), ReturnError), after)
    requires Run(c, Apply(c, Outcome(c, before, during), ReturnError), after).done
    ensures Run(c, INIT, before).accepted
         <= Flatten(Handed(Run(c, Apply(c, Outcome(c, before, during), ReturnError), after).parcels))
  {
    var q := Apply(c, Run(c, INIT, before), CloseQuit);
    RunStep(c, Outcome(c, before, during), ReturnError, after);
    RunConcat(c, q, during, [ReturnError] + after);
    var all := during + ([ReturnError] + after);
    ReachableLate(c, before, all);
    var t := Outcome(c, before, all);
    DoneMeansQuiet(c, t);
    PolledLog(c, t);
    PrefixOfPrefix(Run(c, INIT, before).accepted, t.accepted, t.acceptedAtPoll);
  }

  // Whenever shutdown is called: if at most k sends can still happen afterwards, a nil return is
  // sure to leave nothing in the channel if and only if k is zero.
  lemma NothingLeftIff(c: Limits, before: seq<Action>, k: nat)
    requires c.Valid() && Allowed(c, INIT, before) && Enabled(c, Run(c, INIT, before), CloseQuit)
    ensures (forall after :: NilReturn(c, before, after) && OfferCount(after) <= k ==> Outcome(c, before, after).ch == [])
       <==> k == 0
  {
    if k == 0 {
      forall after | NilReturn(c, before, after) && OfferCount(after) <= 0
        ensures Outcome(c, before, after).ch == []
      {
        OfferCountZero(after);
        NothingLeftWithoutOffers(c, before, after);
      }
    } else {
      var after := LateOfferIsLeft(c, before, Entry(0, "", ""));
    }
  }
}
