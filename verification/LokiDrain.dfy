// The drain's batch is not limited by maxBatch: what it holds exactly, that the bound of BatchBounds
// is reached, and that producers who keep sending keep the drain going.
module LokiDrain {
  import opened Seqs
  import opened LokiProtocol
  import opened LokiInvariants
  import opened LokiDelivery

  // n entries received one at a time without filling the batch.
  lemma {:induction false} FillBatch(c: Limits, e: Entry, n: nat) returns (acts: seq<Action>)
    requires c.Valid() && n < c.maxBatch
    ensures Allowed(c, INIT, acts)
    ensures var t := Run(c, INIT, acts);
      t.phase.Selecting? && t.ch == [] && |t.batch| == n && t.caller.NotCalled? && t.parcels == []
  {
    if n == 0 {
      acts := [];
    } else {
      var before := FillBatch(c, e, n - 1);
      var s := Run(c, INIT, before);
      var one := ReceiveOne(c, s, e);
      RunConcat(c, INIT, before, one);
      acts := before + one;
    }
  }

  lemma ReceiveOne(c: Limits, s: State, e: Entry) returns (acts: seq<Action>)
    requires c.Valid() && s.phase.Selecting? && s.ch == [] && |s.batch| + 1 < c.maxBatch
    ensures Allowed(c, s, acts)
    ensures var t := Run(c, s, acts);
      && t.phase.Selecting? && t.ch == [] && |t.batch| == |s.batch| + 1
      && t.caller == s.caller && t.parcels == s.parcels
  {
    var s1 := Apply(c, s, Offer(e));
    var s2 := Apply(c, s1, Receive);
    RunOne(c, s2, SizeCheck);
    RunStep(c, s1, Receive, [SizeCheck]);
    RunStep(c, s, Offer(e), [Receive] + [SizeCheck]);
    acts := [Offer(e)] + ([Receive] + [SizeCheck]);
  }

  lemma {:induction false} FillQueue(c: Limits, s: State, e: Entry, n: nat) returns (acts: seq<Action>)
    requires c.Valid() && |s.ch| + n <= c.queueSize
    ensures Allowed(c, s, acts)
    ensures var t := Run(c, s, acts);
      && |t.ch| == |s.ch| + n && t.batch == s.batch
      && t.phase == s.phase && t.caller == s.caller && t.parcels == s.parcels
    decreases n
  {
    if n == 0 {
      acts := [];
    } else {
      var rest := FillQueue(c, Apply(c, s, Offer(e)), e, n - 1);
      RunStep(c, s, Offer(e), rest);
      acts := [Offer(e)] + rest;
    }
  }

  lemma {:induction false} EmptyQueue(c: Limits, s: State) returns (acts: seq<Action>)
    requires c.Valid() && s.phase.Draining?
    ensures Allowed(c, s, acts)
    ensures var t := Run(c, s, acts);
      && t.ch == [] && |t.batch| == |s.batch| + |s.ch| && t.phase.Draining?
      && t.accepted == s.accepted && t.acceptedAtQuit == s.acceptedAtQuit && t.parcels == s.parcels
    decreases |s.ch|
  {
    if s.ch == [] {
      acts := [];
    } else {
      var rest := EmptyQueue(c, Apply(c, s, DrainReceive));
      RunStep(c, s, DrainReceive, rest);
      acts := [DrainReceive] + rest;
    }
  }

  lemma QuitAndDrain(c: Limits, s: State) returns (acts: seq<Action>)
    requires c.Valid() && s.phase.Selecting? && s.caller.NotCalled? && |s.batch| + |s.ch| >= 1
    ensures Allowed(c, s, acts)
    ensures var t := Run(c, s, acts);
      && t.acceptedAtQuit == |t.accepted|
      && t.parcels != [] && Last(t.parcels).final && |Last(t.parcels).entries| == |s.batch| + |s.ch|
  {
    var s2 := Apply(c, Apply(c, s, CloseQuit), SeeQuit);
    var drain := EmptyQueue(c, s2);
    var s3 := Run(c, s2, drain);
    RunOne(c, Apply(c, s3, DrainEmpty), FinalFlush);
    RunStep(c, s3, DrainEmpty, [FinalFlush]);
    RunConcat(c, s2, drain, [DrainEmpty] + [FinalFlush]);
    var rest := drain + ([DrainEmpty] + [FinalFlush]);
    RunStep(c, Apply(c, s, CloseQuit), SeeQuit, rest);
    RunStep(c, s, CloseQuit, [SeeQuit] + rest);
    acts := [CloseQuit] + ([SeeQuit] + rest);
  }

  // With nothing accepted after quit closes, the drained batch can have all maxBatch - 1 + queueSize
  // entries: the bound cannot be improved.
  lemma DrainBoundIsReached(c: Limits, e: Entry) returns (acts: seq<Action>)
    requires c.Valid()
    ensures Allowed(c, INIT, acts)
    ensures var t := Run(c, INIT, acts);
      && t.acceptedAtQuit == |t.accepted|
      && t.parcels != [] && |Last(t.parcels).entries| == c.maxBatch - 1 + c.queueSize
      && (c == CODE_LIMITS ==> |Last(t.parcels).entries| == 1123)
  {
    var a := FillBatch(c, e, c.maxBatch - 1);
    var s := Run(c, INIT, a);
    var b := FillQueue(c, s, e, c.queueSize);
    var t := Run(c, s, b);
    var d := QuitAndDrain(c, t);
    RunConcat(c, s, b, d);
    RunConcat(c, INIT, a, b + d);
    acts := a + (b + d);
  }

  // Nothing ends the drain while producers keep up: after quit is closed it can take any number of
  // entries and still be draining.
  lemma {:induction false} DrainCanGoOn(c: Limits, s: State, e: Entry, n: nat) returns (acts: seq<Action>)
    requires c.Valid() && s.phase.Draining? && s.ch == []
    ensures Allowed(c, s, acts)
    ensures var t := Run(c, s, acts); t.phase.Draining? && t.ch == [] && |t.batch| == |s.batch| + n
    decreases n
  {
    if n == 0 {
      acts := [];
    } else {
      var s1 := Apply(c, s, Offer(e));
      var s2 := Apply(c, s1, DrainReceive);
      var rest := DrainCanGoOn(c, s2, e, n - 1);
      RunStep(c, s1, DrainReceive, rest);
      RunStep(c, s, Offer(e), [DrainReceive] + rest);
      acts := [Offer(e)] + ([DrainReceive] + rest);
    }
  }

  // What the drain hands over, in any run.

  lemma PolledStays(c: Limits, s: State, a: Action)
    requires c.Valid() && Polled(s) && Enabled(c, s, a)
    ensures Polled(Apply(c, s, a))
  {
    ParcelStep(c, s, a);
  }

  lemma DrainingStep(c: Limits, s: State, a: Action)
    requires c.Valid() && Control(c, s) && s.phase.Draining? && Enabled(c, s, a)
    ensures Handed(Apply(c, s, a).parcels) == Handed(s.parcels)
    ensures Apply(c, s, a).phase.Draining? || Polled(Apply(c, s, a))
  {
    HandedStep(c, s, a);
  }

  lemma {:induction false} PolledForGood(c: Limits, s: State, acts: seq<Action>)
    requires c.Valid() && Polled(s) && Allowed(c, s, acts)
    ensures Polled(Run(c, s, acts))
    decreases acts
  {
    if acts != [] {
      PolledStays(c, s, acts[0]);
      PolledForGood(c, Apply(c, s, acts[0]), acts[1..]);
    }
  }

  // Until the final poll the drain hands nothing over.
  lemma {:induction false} DrainHandsNothing(c: Limits, s: State, acts: seq<Action>)
    requires c.Valid() && Inv(c, s) && s.phase.Draining? && Allowed(c, s, acts) && Run(c, s, acts).phase.Draining?
    ensures Handed(Run(c, s, acts).parcels) == Handed(s.parcels)
    decreases acts
  {
    if acts != [] {
      var t := Apply(c, s, acts[0]);
      DrainingStep(c, s, acts[0]);
      InvStep(c, s, acts[0]);
      if t.phase.Draining? {
        DrainHandsNothing(c, t, acts[1..]);
      } else {
        PolledForGood(c, t, acts[1..]);
        assert false;
      }
    }
  }

  // Two states of one log that differ in what came after the same flushed part.
  lemma GrownTail<T>(h: seq<T>, x: seq<T>, y: seq<T>, a: seq<T>, b: seq<T>)
    requires h + x == a && h + y == b && a <= b
    ensures y == x + b[|a|..]
  {
    assert x == a[|h|..] && y == b[|h|..];
    assert b == a + b[|a|..];
  }

  lemma BatchAtPoll(c: Limits, s: State, acts: seq<Action>)
    requires c.Valid() && Inv(c, s) && s.phase.Draining? && Allowed(c, s, acts)
    requires Enabled(c, Run(c, s, acts), DrainEmpty)
    ensures var u := Run(c, s, acts);
      s.accepted <= u.accepted && u.batch == s.batch + s.ch + u.accepted[|s.accepted|..]
  {
    var u := Run(c, s, acts);
    InvRun(c, s, acts);
    HandedIsStable(c, s, acts);
    DrainHandsNothing(c, s, acts);
    SameHandedTails(c, s, u);
  }

  lemma SameHandedTails(c: Limits, s: State, u: State)
    requires Fifo(c, s) && Fifo(c, u) && Handed(u.parcels) == Handed(s.parcels)
    requires u.ch == [] && s.accepted <= u.accepted
    ensures u.batch == s.batch + s.ch + u.accepted[|s.accepted|..]
  {
    var h := Flatten(Handed(s.parcels));
    assert h + (s.batch + s.ch) == s.accepted;
    assert h + u.batch == u.accepted;
    GrownTail(h, s.batch + s.ch, u.batch, s.accepted, u.accepted);
  }

  // After the poll the only flush hands over the batch as it was then.
  ghost predicate FinalIs(s: State, before: nat, batch: seq<Entry>) {
    if s.phase.Drained? then |s.parcels| == before && s.batch == batch
    else if batch == [] then |s.parcels| == before && Polled(s)
    else |s.parcels| == before + 1 && Polled(s) && Last(s.parcels).final && Last(s.parcels).entries == batch
  }

  lemma FinalIsStep(c: Limits, s: State, a: Action, before: nat, batch: seq<Entry>)
    requires c.Valid() && Control(c, s) && Polled(s) && FinalIs(s, before, batch) && Enabled(c, s, a)
    ensures FinalIs(Apply(c, s, a), before, batch)
  {
    PolledStays(c, s, a);
    if a.Attempt? || a.Release? || a.PusherDone? || a in {TryAcquire, WgAdd, Spawn} {
      LastStays(c, s, a);
    }
  }

  // Changing fates leaves the last parcel's contents alone.
  lemma LastStays(c: Limits, s: State, a: Action)
    requires c.Valid() && Enabled(c, s, a) && s.parcels != []
    requires a.Attempt? || a.Release? || a.PusherDone? || a in {TryAcquire, WgAdd, Spawn}
    ensures var t := Apply(c, s, a);
      && |t.parcels| == |s.parcels|
      && Last(t.parcels).entries == Last(s.parcels).entries && Last(t.parcels).final == Last(s.parcels).final
  {
    ParcelStep(c, s, a);
  }

  lemma {:induction false} FinalIsRun(c: Limits, s: State, acts: seq<Action>, before: nat, batch: seq<Entry>)
    requires c.Valid() && Inv(c, s) && Polled(s) && FinalIs(s, before, batch) && Allowed(c, s, acts)
    ensures FinalIs(Run(c, s, acts), before, batch)
    decreases acts
  {
    if acts != [] {
      FinalIsStep(c, s, acts[0], before, batch);
      PolledStays(c, s, acts[0]);
      InvStep(c, s, acts[0]);
      FinalIsRun(c, Apply(c, s, acts[0]), acts[1..], before, batch);
    }
  }

  // Any run, cut where quit was seen (in state s) and where the channel was found empty (in state u):
  // the batch of the drain is the batch and the channel at the first cut, then what was accepted up to
  // the second. So it exceeds maxBatch exactly when those add up to more than maxBatch.
  lemma DrainBatchExactly(c: Limits, before: seq<Action>, during: seq<Action>, after: seq<Action>,
                          s: State, u: State, t: State)
    requires c.Valid() && Allowed(c, INIT, before) && s == Run(c, INIT, before) && Enabled(c, s, SeeQuit)
    requires Allowed(c, Apply(c, s, SeeQuit), during) && u == Run(c, Apply(c, s, SeeQuit), during)
    requires Enabled(c, u, DrainEmpty)
    requires Allowed(c, Apply(c, u, DrainEmpty), after) && t == Run(c, Apply(c, u, DrainEmpty), after)
    requires !t.phase.Drained?
    ensures s.accepted <= u.accepted
    ensures var all := s.batch + s.ch + u.accepted[|s.accepted|..];
      if all == [] then |t.parcels| == |u.parcels|
      else
        && t.parcels != [] && Last(t.parcels).final && Last(t.parcels).entries == all
        && (|Last(t.parcels).entries| > c.maxBatch <==>
              |s.batch| + |s.ch| + (|u.accepted| - |s.accepted|) > c.maxBatch)
  {
    Reachable(c, before);
    InvStep(c, s, SeeQuit);
    InvRun(c, Apply(c, s, SeeQuit), during);
    BatchAtPoll(c, Apply(c, s, SeeQuit), during);
    InvStep(c, u, DrainEmpty);
    FinalIsRun(c, Apply(c, u, DrainEmpty), after, |u.parcels|, u.batch);
  }
}
