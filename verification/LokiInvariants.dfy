// What every step of the Loki sender keeps, and so what holds in every reachable state.
module LokiInvariants {
  import opened Seqs
  import opened LokiProtocol

  // The FIFO log: flushed batches, then the current batch, then the channel, are the accepted entries.
  ghost predicate Fifo(c: Limits, s: State) {
    && |s.ch| <= c.queueSize
    && Flatten(Handed(s.parcels)) + s.batch + s.ch == s.accepted
    && multiset(s.offered) == multiset(s.accepted) + multiset(s.refused)
  }

  // Program points of run against the current batch and the parcel in pushAsync.
  ghost predicate Control(c: Limits, s: State) {
    && (s.phase.Selecting? ==> |s.batch| < c.maxBatch)
    && (s.phase.Received? ==> 1 <= |s.batch| <= c.maxBatch)
    && (s.phase in {Pushing, Returning, Stopped} ==> s.batch == [])
    && (s.phase.Pushing? ==> s.parcels != [] && InPushAsync(Last(s.parcels).fate))
    && (forall i :: 0 <= i < |s.parcels| && InPushAsync(s.parcels[i].fate) ==>
          s.phase.Pushing? && i == |s.parcels| - 1)
  }

  ghost predicate FateOk(c: Limits, f: Fate) {
    match f
    case Trying(k) => k < c.maxRetries
    case Finished(ok, k) => 1 <= k <= c.maxRetries && (ok || k == c.maxRetries)
    case Released(ok, k) => 1 <= k <= c.maxRetries && (ok || k == c.maxRetries)
    case Gone(ok, k) => 1 <= k <= c.maxRetries && (ok || k == c.maxRetries)
    case _ => true
  }

  // Sizes and retry counts of the parcels; only the last parcel can come from the drain.
  ghost predicate ParcelsOk(c: Limits, s: State) {
    && (forall i :: 0 <= i < |s.parcels| ==> FateOk(c, s.parcels[i].fate) && s.parcels[i].entries != [])
    && (forall i :: 0 <= i < |s.parcels| && !s.parcels[i].final ==> |s.parcels[i].entries| <= c.maxBatch)
    && (forall i :: 0 <= i < |s.parcels| && s.parcels[i].final ==>
          i == |s.parcels| - 1 && s.phase in {Pushing, Returning, Stopped})
  }

  // Semaphore and wait group accounting.
  ghost predicate Accounts(c: Limits, s: State) {
    && s.tokens == Count(s.parcels, HoldsToken) <= c.maxPush
    && s.wg == (if s.phase.Stopped? then 0 else 1) + Count(s.parcels, OnWaitGroup)
  }

  // run is past the final empty poll of the channel.
  predicate Polled(s: State) {
    || s.phase in {Drained, Returning, Stopped}
    || (s.phase.Pushing? && s.parcels != [] && Last(s.parcels).final)
  }

  ghost predicate Quitting(c: Limits, s: State) {
    && (s.quit <==> !s.caller.NotCalled?)
    && (s.phase.Draining? || Polled(s) ==> s.quit)
    && (s.quit ==> s.acceptedAtQuit <= |s.accepted|)
    && (Polled(s) ==> s.acceptedAtQuit <= s.acceptedAtPoll && |s.ch| == |s.accepted| - s.acceptedAtPoll)
    && (s.done ==> s.quit && s.wg == 0)
    && (s.caller == Returned(true) ==> s.done)
  }

  // The batch grows past maxBatch only by what the channel held when the drain began
  // and what was accepted since quit was closed.
  ghost predicate DrainBound(c: Limits, s: State) {
    && (s.phase.Draining? ==>
          |s.batch| + |s.ch| <= c.maxBatch - 1 + c.queueSize + |s.accepted| - s.acceptedAtQuit)
    && (s.phase.Drained? ==>
          |s.batch| <= c.maxBatch - 1 + c.queueSize + s.acceptedAtPoll - s.acceptedAtQuit)
    && (forall i :: 0 <= i < |s.parcels| && s.parcels[i].final ==>
          |s.parcels[i].entries| <= c.maxBatch - 1 + c.queueSize + s.acceptedAtPoll - s.acceptedAtQuit)
  }

  // Every number 1..dropped has been returned by the counter; those worth a warning
  // have been printed once, or their producer has not compared them yet.
  ghost predicate Warnings(c: Limits, s: State)
    requires c.Valid()
  {
    && |s.refused| == s.dropped + s.adding
    && (forall n :: n in s.tickets ==> 1 <= n <= s.dropped)
    && Distinct(s.warned)
    && (forall n :: n in s.warned ==> 1 <= n <= s.dropped && Warns(c, n) && n !in s.tickets)
    && (forall n :: 1 <= n <= s.dropped && Warns(c, n) ==> n in s.tickets || n in s.warned)
  }

  ghost predicate Inv(c: Limits, s: State)
    requires c.Valid()
  {
    Fifo(c, s) && Control(c, s) && ParcelsOk(c, s) && Accounts(c, s) && Quitting(c, s) && DrainBound(c, s) &&
    Warnings(c, s)
  }

  // Counting parcels by fate.

  lemma CountAppend(ps: seq<Parcel>, q: Parcel, p: Fate -> bool)
    ensures Count(ps + [q], p) == Count(ps, p) + if p(q.fate) then 1 else 0
  {
    assert (ps + [q])[..|ps|] == ps;
  }

  lemma {:induction false} CountSetFate(ps: seq<Parcel>, i: nat, f: Fate, p: Fate -> bool)
    requires i < |ps|
    ensures Count(SetFate(ps, i, f), p)
         == Count(ps, p) - (if p(ps[i].fate) then 1 else 0) + (if p(f) then 1 else 0)
  {
    var n := |ps| - 1;
    if i == n {
      assert SetFate(ps, i, f)[..n] == ps[..n];
    } else {
      assert SetFate(ps, i, f)[..n] == SetFate(ps[..n], i, f);
      CountSetFate(ps[..n], i, f, p);
    }
  }

  lemma {:induction false} CountWitness(ps: seq<Parcel>, p: Fate -> bool)
    ensures Count(ps, p) == 0 <==> forall i :: 0 <= i < |ps| ==> !p(ps[i].fate)
  {
    if ps != [] {
      CountWitness(ps[..|ps| - 1], p);
      assert forall i :: 0 <= i < |ps| - 1 ==> ps[..|ps| - 1][i] == ps[i];
    }
  }

  // An action appends one parcel, changes one fate, or leaves the parcels alone.
  lemma ParcelStep(c: Limits, s: State, a: Action)
    requires c.Valid() && Enabled(c, s, a)
    ensures var t := Apply(c, s, a);
      if a.Attempt? || a.Release? || a.PusherDone? then t.parcels == SetFate(s.parcels, a.i, t.parcels[a.i].fate)
      else if a in {TryAcquire, WgAdd, Spawn} then
        s.parcels != [] && t.parcels == SetFate(s.parcels, |s.parcels| - 1, Last(t.parcels).fate)
      else t.parcels == s.parcels || (exists final :: t == Flush(s, final) && s.batch != [])
  {
  }

  // Outside the three flushes an action leaves the contents of the parcels alone.
  lemma HandedStep(c: Limits, s: State, a: Action)
    requires c.Valid() && Enabled(c, s, a) && a !in {SizeCheck, Tick, FinalFlush}
    ensures Handed(Apply(c, s, a).parcels) == Handed(s.parcels)
  {
    var t := Apply(c, s, a);
    ParcelStep(c, s, a);
    assert |t.parcels| == |s.parcels|;
    assert forall i :: 0 <= i < |s.parcels| ==> t.parcels[i].entries == s.parcels[i].entries;
  }

  lemma HandedFlush(s: State, final: bool)
    ensures Handed(Flush(s, final).parcels) == Handed(s.parcels) + [s.batch]
    ensures Flatten(Handed(Flush(s, final).parcels)) == Flatten(Handed(s.parcels)) + s.batch
  {
    assert Handed(Flush(s, final).parcels) == Handed(s.parcels) + [s.batch];
    FlattenAppend(Handed(s.parcels), s.batch);
  }

  lemma TakeKeepsFifo(c: Limits, s: State, next: Phase)
    requires Fifo(c, s) && s.ch != []
    ensures Fifo(c, TakeEntry(s, next))
  {
    var h := Flatten(Handed(s.parcels));
    assert h + (s.batch + [s.ch[0]]) + s.ch[1..] == h + s.batch + s.ch;
  }

  lemma FlushKeepsFifo(c: Limits, s: State, final: bool)
    requires Fifo(c, s)
    ensures Fifo(c, Flush(s, final))
  {
    HandedFlush(s, final);
    assert Flatten(Handed(s.parcels)) + s.batch + [] == Flatten(Handed(s.parcels)) + s.batch;
  }

  lemma OfferKeepsFifo(c: Limits, s: State, e: Entry)
    requires c.Valid() && Fifo(c, s)
    ensures Fifo(c, Apply(c, s, Offer(e)))
  {
    Extend(Flatten(Handed(s.parcels)) + s.batch, s.ch, e);
    MultisetAppend(s.offered, e);
    MultisetAppend(s.accepted, e);
    MultisetAppend(s.refused, e);
    var t := Apply(c, s, Offer(e));
    if |s.ch| < c.queueSize {
      assert Fifo(c, t);
    } else {
      assert t.ch == s.ch;
    }
  }

  // Actions that move no entry.
  lemma SilentKeepsFifo(c: Limits, s: State, a: Action)
    requires c.Valid() && Fifo(c, s) && Enabled(c, s, a)
    requires !a.Offer? && a !in {Receive, DrainReceive, SizeCheck, Tick, FinalFlush}
    ensures Fifo(c, Apply(c, s, a))
  {
    HandedStep(c, s, a);
    SilentStep(c, s, a);
    SameLogsKeepFifo(c, s, Apply(c, s, a));
  }

  lemma SilentStep(c: Limits, s: State, a: Action)
    requires c.Valid() && Enabled(c, s, a)
    requires !a.Offer? && a !in {Receive, DrainReceive, SizeCheck, Tick, FinalFlush}
    ensures SameLogs(s, Apply(c, s, a))
  {
  }

  predicate SameLogs(s: State, t: State) {
    && t.ch == s.ch && t.batch == s.batch
    && t.offered == s.offered && t.accepted == s.accepted && t.refused == s.refused
  }

  lemma SameLogsKeepFifo(c: Limits, s: State, t: State)
    requires Fifo(c, s) && SameLogs(s, t) && Handed(t.parcels) == Handed(s.parcels)
    ensures Fifo(c, t)
  {
  }

  lemma FlushingKeepsFifo(c: Limits, s: State, a: Action)
    requires c.Valid() && Fifo(c, s) && Enabled(c, s, a) && a in {SizeCheck, Tick, FinalFlush}
    ensures Fifo(c, Apply(c, s, a))
  {
    FlushKeepsFifo(c, s, a.FinalFlush?);
  }

  lemma FifoStep(c: Limits, s: State, a: Action)
    requires c.Valid() && Fifo(c, s) && Enabled(c, s, a)
    ensures Fifo(c, Apply(c, s, a))
  {
    if a.Offer? {
      OfferKeepsFifo(c, s, a.e);
    } else if a.Receive? {
      TakeKeepsFifo(c, s, Received);
    } else if a.DrainReceive? {
      TakeKeepsFifo(c, s, Draining);
    } else if a in {SizeCheck, Tick, FinalFlush} {
      FlushingKeepsFifo(c, s, a);
    } else {
      SilentKeepsFifo(c, s, a);
    }
  }

  // Moving parcel i from one fate to another, outside pushAsync.
  lemma SetFateKeepsControl(c: Limits, s: State, t: State, i: nat, f: Fate)
    requires Control(c, s) && ParcelsOk(c, s) && i < |s.parcels|
    requires t.parcels == SetFate(s.parcels, i, f) && t.phase == s.phase && t.batch == s.batch
    requires !InPushAsync(s.parcels[i].fate) && !InPushAsync(f) && FateOk(c, f)
    ensures Control(c, t) && ParcelsOk(c, t)
  {
  }

  lemma PusherKeepsControl(c: Limits, s: State, a: Action)
    requires c.Valid() && Control(c, s) && ParcelsOk(c, s) && Enabled(c, s, a)
    requires a.Attempt? || a.Release? || a.PusherDone?
    ensures Control(c, Apply(c, s, a)) && ParcelsOk(c, Apply(c, s, a))
  {
    assert FateOk(c, s.parcels[a.i].fate);
    SetFateKeepsControl(c, s, Apply(c, s, a), a.i, Apply(c, s, a).parcels[a.i].fate);
  }

  lemma PushAsyncKeepsControl(c: Limits, s: State, a: Action)
    requires c.Valid() && Control(c, s) && ParcelsOk(c, s) && Enabled(c, s, a)
    requires a in {TryAcquire, WgAdd, Spawn}
    ensures Control(c, Apply(c, s, a)) && ParcelsOk(c, Apply(c, s, a))
  {
  }

  lemma FlushKeepsControl(c: Limits, s: State, final: bool)
    requires c.Valid() && Control(c, s) && ParcelsOk(c, s) && s.batch != []
    requires s.phase in {Selecting, Received, Drained} && (final || |s.batch| <= c.maxBatch)
    ensures Control(c, Flush(s, final)) && ParcelsOk(c, Flush(s, final))
  {
  }

  lemma ControlStep(c: Limits, s: State, a: Action)
    requires c.Valid() && Control(c, s) && ParcelsOk(c, s) && Enabled(c, s, a)
    ensures Control(c, Apply(c, s, a)) && ParcelsOk(c, Apply(c, s, a))
  {
    if a.Attempt? || a.Release? || a.PusherDone? {
      PusherKeepsControl(c, s, a);
    } else if a in {TryAcquire, WgAdd, Spawn} {
      PushAsyncKeepsControl(c, s, a);
    } else if a in {SizeCheck, Tick} && s.batch != [] {
      FlushKeepsControl(c, s, false);
    } else if a.FinalFlush? && s.batch != [] {
      FlushKeepsControl(c, s, true);
    } else {
      QuietKeepsControl(c, s, a);
    }
  }

  // No flush and no change of a fate.
  lemma QuietKeepsControl(c: Limits, s: State, a: Action)
    requires c.Valid() && Control(c, s) && ParcelsOk(c, s) && Enabled(c, s, a)
    requires !a.Attempt? && !a.Release? && !a.PusherDone? && a !in {TryAcquire, WgAdd, Spawn}
    requires a in {SizeCheck, Tick, FinalFlush} ==> s.batch == []
    ensures Control(c, Apply(c, s, a)) && ParcelsOk(c, Apply(c, s, a))
  {
    assert Apply(c, s, a).parcels == s.parcels;
  }

  lemma SetFateKeepsAccounts(c: Limits, s: State, t: State, i: nat, f: Fate)
    requires Accounts(c, s) && i < |s.parcels| && t.parcels == SetFate(s.parcels, i, f)
    requires t.tokens <= c.maxPush
    requires t.tokens == s.tokens - (if HoldsToken(s.parcels[i].fate) then 1 else 0) + (if HoldsToken(f) then 1 else 0)
    requires t.wg == s.wg - (if OnWaitGroup(s.parcels[i].fate) then 1 else 0) + (if OnWaitGroup(f) then 1 else 0)
    requires s.phase.Stopped? <==> t.phase.Stopped?
    ensures Accounts(c, t)
  {
    CountSetFate(s.parcels, i, f, HoldsToken);
    CountSetFate(s.parcels, i, f, OnWaitGroup);
  }

  lemma FlushKeepsAccounts(c: Limits, s: State, final: bool)
    requires Accounts(c, s) && !s.phase.Stopped?
    ensures Accounts(c, Flush(s, final))
  {
    CountAppend(s.parcels, Parcel(s.batch, final, InHand), HoldsToken);
    CountAppend(s.parcels, Parcel(s.batch, final, InHand), OnWaitGroup);
  }

  lemma PusherKeepsAccounts(c: Limits, s: State, a: Action)
    requires c.Valid() && Accounts(c, s) && Enabled(c, s, a) && (a.Attempt? || a.Release? || a.PusherDone?)
    ensures Accounts(c, Apply(c, s, a))
  {
    SetFateKeepsAccounts(c, s, Apply(c, s, a), a.i, Apply(c, s, a).parcels[a.i].fate);
  }

  lemma PushAsyncKeepsAccounts(c: Limits, s: State, a: Action)
    requires c.Valid() && Accounts(c, s) && Enabled(c, s, a) && a in {TryAcquire, WgAdd, Spawn}
    ensures Accounts(c, Apply(c, s, a))
  {
    SetFateKeepsAccounts(c, s, Apply(c, s, a), |s.parcels| - 1, Last(Apply(c, s, a).parcels).fate);
  }

  lemma AccountsStep(c: Limits, s: State, a: Action)
    requires c.Valid() && Accounts(c, s) && Enabled(c, s, a)
    ensures Accounts(c, Apply(c, s, a))
  {
    if a.Attempt? || a.Release? || a.PusherDone? {
      PusherKeepsAccounts(c, s, a);
    } else if a in {TryAcquire, WgAdd, Spawn} {
      PushAsyncKeepsAccounts(c, s, a);
    } else if a in {SizeCheck, Tick, FinalFlush} {
      FlushKeepsAccounts(c, s, a.FinalFlush?);
    } else {
      ParcelsUntouched(c, s, a);
    }
  }

  lemma ParcelsUntouched(c: Limits, s: State, a: Action)
    requires c.Valid() && Enabled(c, s, a) && !a.Attempt? && !a.Release? && !a.PusherDone?
    requires a !in {SizeCheck, Tick, FinalFlush, TryAcquire, WgAdd, Spawn}
    ensures var t := Apply(c, s, a);
      && t.parcels == s.parcels && t.tokens == s.tokens
      && t.wg + (if t.phase.Stopped? then 1 else 0) == s.wg + (if s.phase.Stopped? then 1 else 0)
  {
  }

  // A counter at zero means run has returned and no pusher is left on the wait group.
  lemma WgZero(c: Limits, s: State)
    requires c.Valid() && Inv(c, s)
    ensures s.wg >= 0
    ensures s.wg == 0 <==> s.phase.Stopped? && forall i :: 0 <= i < |s.parcels| ==> !OnWaitGroup(s.parcels[i].fate)
  {
    CountWitness(s.parcels, OnWaitGroup);
  }

  // The batcher only takes entries out of the channel.
  lemma TakeKeepsQuitting(c: Limits, s: State, a: Action)
    requires c.Valid() && Control(c, s) && Accounts(c, s) && Quitting(c, s) && Enabled(c, s, a)
    requires a in {Receive, DrainReceive, DrainEmpty, SeeQuit, Tick, SizeCheck, FinalFlush}
    ensures Quitting(c, Apply(c, s, a))
  {
  }

  lemma PushAsyncKeepsQuitting(c: Limits, s: State, a: Action)
    requires c.Valid() && Accounts(c, s) && Quitting(c, s) && Enabled(c, s, a)
    requires a in {TryAcquire, WgAdd, Spawn, RunDone}
    ensures Quitting(c, Apply(c, s, a))
  {
    if !a.RunDone? {
      assert Last(Apply(c, s, a).parcels).final == Last(s.parcels).final;
    }
  }

  lemma PusherKeepsQuitting(c: Limits, s: State, a: Action)
    requires c.Valid() && Accounts(c, s) && Quitting(c, s) && Enabled(c, s, a)
    requires a.Attempt? || a.Release? || a.PusherDone?
    ensures Quitting(c, Apply(c, s, a))
  {
    CountWitness(s.parcels, OnWaitGroup);
    assert Last(Apply(c, s, a).parcels).final == Last(s.parcels).final;
  }

  lemma CallerKeepsQuitting(c: Limits, s: State, a: Action)
    requires c.Valid() && Quitting(c, s) && Enabled(c, s, a)
    requires || a.Offer? || a.CountDrop? || a.CheckWarn? || a in {CloseQuit, WaiterWake, ReturnNil, ReturnError}
    ensures Quitting(c, Apply(c, s, a))
  {
  }

  lemma QuittingStep(c: Limits, s: State, a: Action)
    requires c.Valid() && Control(c, s) && Accounts(c, s) && Quitting(c, s) && Enabled(c, s, a)
    ensures Quitting(c, Apply(c, s, a))
  {
    if a.Attempt? || a.Release? || a.PusherDone? {
      PusherKeepsQuitting(c, s, a);
    } else if a in {TryAcquire, WgAdd, Spawn, RunDone} {
      PushAsyncKeepsQuitting(c, s, a);
    } else if a in {Receive, DrainReceive, DrainEmpty, SeeQuit, Tick, SizeCheck, FinalFlush} {
      TakeKeepsQuitting(c, s, a);
    } else {
      CallerKeepsQuitting(c, s, a);
    }
  }

  lemma PushKeepsDrainBound(c: Limits, s: State, a: Action)
    requires c.Valid() && DrainBound(c, s) && Enabled(c, s, a)
    requires a in {TryAcquire, WgAdd, Spawn, RunDone} || a.Attempt? || a.Release? || a.PusherDone?
    ensures DrainBound(c, Apply(c, s, a))
  {
  }

  lemma FlushKeepsDrainBound(c: Limits, s: State, final: bool)
    requires DrainBound(c, s) && (final ==> s.phase.Drained?)
    ensures DrainBound(c, Flush(s, final))
  {
  }

  lemma TakeKeepsDrainBound(c: Limits, s: State, a: Action)
    requires c.Valid() && Fifo(c, s) && Control(c, s) && ParcelsOk(c, s) && Quitting(c, s) && DrainBound(c, s)
    requires Enabled(c, s, a) && a in {Receive, DrainReceive, DrainEmpty, SeeQuit}
    ensures DrainBound(c, Apply(c, s, a))
  {
  }

  lemma CallerKeepsDrainBound(c: Limits, s: State, a: Action)
    requires c.Valid() && ParcelsOk(c, s) && Quitting(c, s) && DrainBound(c, s) && Enabled(c, s, a)
    requires || a.Offer? || a.CountDrop? || a.CheckWarn? || a in {CloseQuit, WaiterWake, ReturnNil, ReturnError}
    ensures DrainBound(c, Apply(c, s, a))
  {
  }

  lemma DrainBoundStep(c: Limits, s: State, a: Action)
    requires c.Valid() && Fifo(c, s) && Control(c, s) && ParcelsOk(c, s) && Quitting(c, s) && DrainBound(c, s)
    requires Enabled(c, s, a)
    ensures DrainBound(c, Apply(c, s, a))
  {
    if a in {TryAcquire, WgAdd, Spawn, RunDone} || a.Attempt? || a.Release? || a.PusherDone? {
      PushKeepsDrainBound(c, s, a);
    } else if a in {SizeCheck, Tick, FinalFlush} {
      FlushKeepsDrainBound(c, s, a.FinalFlush?);
    } else if a in {Receive, DrainReceive, DrainEmpty, SeeQuit} {
      TakeKeepsDrainBound(c, s, a);
    } else {
      CallerKeepsDrainBound(c, s, a);
    }
  }

  lemma CheckWarnKeepsWarnings(c: Limits, s: State, n: nat)
    requires c.Valid() && Warnings(c, s) && n in s.tickets
    ensures Warnings(c, Apply(c, s, CheckWarn(n)))
  {
  }

  lemma CountDropKeepsWarnings(c: Limits, s: State)
    requires c.Valid() && Warnings(c, s) && s.adding > 0
    ensures Warnings(c, Apply(c, s, CountDrop))
  {
  }

  lemma WarningsStep(c: Limits, s: State, a: Action)
    requires c.Valid() && Warnings(c, s) && Enabled(c, s, a)
    ensures Warnings(c, Apply(c, s, a))
  {
    if a.CheckWarn? {
      CheckWarnKeepsWarnings(c, s, a.n);
    } else if a.CountDrop? {
      CountDropKeepsWarnings(c, s);
    } else {
      var t := Apply(c, s, a);
      assert t.dropped == s.dropped && t.tickets == s.tickets && t.warned == s.warned;
    }
  }

  lemma InvInit(c: Limits)
    requires c.Valid()
    ensures Inv(c, INIT)
  {
  }

  lemma InvStep(c: Limits, s: State, a: Action)
    requires c.Valid() && Inv(c, s) && Enabled(c, s, a)
    ensures Inv(c, Apply(c, s, a))
  {
    FifoStep(c, s, a);
    ControlStep(c, s, a);
    AccountsStep(c, s, a);
    QuittingStep(c, s, a);
    DrainBoundStep(c, s, a);
    WarningsStep(c, s, a);
  }

  lemma {:induction false} InvRun(c: Limits, s: State, acts: seq<Action>)
    requires c.Valid() && Inv(c, s) && Allowed(c, s, acts)
    ensures Inv(c, Run(c, s, acts))
    decreases acts
  {
    if acts != [] {
      InvStep(c, s, acts[0]);
      InvRun(c, Apply(c, s, acts[0]), acts[1..]);
    }
  }
}
