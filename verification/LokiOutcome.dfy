// What the fate of a batch says about the attempts made for it, in any run.
module LokiOutcome {
  import opened Seqs
  import opened LokiProtocol
  import opened LokiInvariants
  import opened LokiDelivery
  import opened LokiShutdown
  import opened LokiArrival

  // The attempts with result ok that a fate stands for.
  function CountedAttempts(f: Fate, ok: bool): int {
    match f
    case Trying(k) => if ok then 0 else k
    case Finished(good, k) => if ok then (if good then 1 else 0) else if good then k - 1 else k
    case Released(good, k) => if ok then (if good then 1 else 0) else if good then k - 1 else k
    case Gone(good, k) => if ok then (if good then 1 else 0) else if good then k - 1 else k
    case _ => 0
  }

  function AttemptsFor(ps: seq<Parcel>, i: nat, ok: bool): int {
    if i < |ps| then CountedAttempts(ps[i].fate, ok) else 0
  }

  lemma AttemptsStep(c: Limits, s: State, a: Action, i: nat, ok: bool)
    requires c.Valid() && Enabled(c, s, a)
    ensures AttemptsFor(Apply(c, s, a).parcels, i, ok)
         == AttemptsFor(s.parcels, i, ok) + if a == Attempt(i, ok) then 1 else 0
  {
    ParcelStep(c, s, a);
  }

  lemma {:induction false} AttemptsRun(c: Limits, s: State, acts: seq<Action>, i: nat, ok: bool)
    requires c.Valid() && Allowed(c, s, acts)
    ensures AttemptsFor(Run(c, s, acts).parcels, i, ok)
         == AttemptsFor(s.parcels, i, ok) + multiset(acts)[Attempt(i, ok)]
    decreases acts
  {
    if acts != [] {
      AttemptsStep(c, s, acts[0], i, ok);
      AttemptsRun(c, Apply(c, s, acts[0]), acts[1..], i, ok);
      assert acts == [acts[0]] + acts[1..];
    }
  }

  // In every run a batch is delivered if and only if one of its attempts succeeded, and failed if and
  // only if as many attempts as allowed failed and none succeeded. While it is tried the fate counts the
  // failures so far; a batch at the semaphore, or dropped there, has had no attempt.
  lemma OutcomeIsAttempts(c: Limits, acts: seq<Action>, i: nat)
    requires c.Valid() && Allowed(c, INIT, acts) && i < |Run(c, INIT, acts).parcels|
    ensures var f := Run(c, INIT, acts).parcels[i].fate;
      var good, bad := multiset(acts)[Attempt(i, true)], multiset(acts)[Attempt(i, false)];
      && good <= 1 && good + bad <= c.maxRetries
      && (Delivered(f) <==> Attempt(i, true) in acts)
      && (Failed(f) <==> bad == c.maxRetries && good == 0)
      && (c == CODE_LIMITS ==> (Failed(f) <==> bad == 3 && good == 0))
      && (Delivered(f) || Failed(f) ==> f.attempts == good + bad)
      && (InFlight(f) ==> good == 0 && bad == f.failures)
      && (InPushAsync(f) || IsLost(f) ==> good == 0 && bad == 0)
  {
    Reachable(c, acts);
    AttemptsRun(c, INIT, acts, i, true);
    AttemptsRun(c, INIT, acts, i, false);
    FateFromAttempts(c, Run(c, INIT, acts).parcels[i].fate);
  }

  lemma FateFromAttempts(c: Limits, f: Fate)
    requires c.Valid() && FateOk(c, f)
    ensures 0 <= CountedAttempts(f, true) <= 1 && 0 <= CountedAttempts(f, false)
    ensures CountedAttempts(f, true) + CountedAttempts(f, false) <= c.maxRetries
    ensures Delivered(f) <==> CountedAttempts(f, true) == 1
    ensures Failed(f) <==> CountedAttempts(f, false) == c.maxRetries && CountedAttempts(f, true) == 0
  {
  }

  // After a nil return: a batch that was not dropped had an attempt that succeeded, or had all of them fail.
  lemma NilReturnAttempts(c: Limits, acts: seq<Action>, i: nat)
    requires c.Valid() && Allowed(c, INIT, acts) && Run(c, INIT, acts).caller == Returned(true)
    requires i < |Run(c, INIT, acts).parcels|
    ensures var good, bad := multiset(acts)[Attempt(i, true)], multiset(acts)[Attempt(i, false)];
      if Run(c, INIT, acts).parcels[i].fate.Lost? then good == 0 && bad == 0
      else good == 1 || (good == 0 && bad == c.maxRetries)
  {
    Reachable(c, acts);
    DoneMeansQuiet(c, Run(c, INIT, acts));
    OutcomeIsAttempts(c, acts, i);
  }

  // Push goroutines are those spawned and not done.

  predicate WasSpawned(f: Fate) { f.Trying? || f.Finished? || f.Released? || f.Gone? }

  predicate IsGone(f: Fate) { f.Gone? }

  lemma SpawnedStep(c: Limits, s: State, a: Action)
    requires c.Valid() && Enabled(c, s, a)
    ensures Count(Apply(c, s, a).parcels, WasSpawned) == Count(s.parcels, WasSpawned) + if a.Spawn? then 1 else 0
  {
    if a.Attempt? || a.Release? || a.PusherDone? {
      PusherKeepsSpawned(c, s, a);
    } else if a in {TryAcquire, WgAdd, Spawn} {
      PushAsyncSpawns(c, s, a);
    } else {
      ParcelStep(c, s, a);
      if Apply(c, s, a).parcels != s.parcels {
        CountAppend(s.parcels, Last(Apply(c, s, a).parcels), WasSpawned);
      }
    }
  }

  lemma PusherKeepsSpawned(c: Limits, s: State, a: Action)
    requires c.Valid() && Enabled(c, s, a) && (a.Attempt? || a.Release? || a.PusherDone?)
    ensures Count(Apply(c, s, a).parcels, WasSpawned) == Count(s.parcels, WasSpawned)
  {
    CountSetFate(s.parcels, a.i, Apply(c, s, a).parcels[a.i].fate, WasSpawned);
  }

  lemma PushAsyncSpawns(c: Limits, s: State, a: Action)
    requires c.Valid() && Enabled(c, s, a) && a in {TryAcquire, WgAdd, Spawn}
    ensures Count(Apply(c, s, a).parcels, WasSpawned) == Count(s.parcels, WasSpawned) + if a.Spawn? then 1 else 0
  {
    HandedFateStep(c, s, a);
    CountSetFate(s.parcels, |s.parcels| - 1, Last(Apply(c, s, a).parcels).fate, WasSpawned);
  }

  lemma {:induction false} SpawnedRun(c: Limits, s: State, acts: seq<Action>)
    requires c.Valid() && Allowed(c, s, acts)
    ensures Count(Run(c, s, acts).parcels, WasSpawned) == Count(s.parcels, WasSpawned) + multiset(acts)[Spawn]
    decreases acts
  {
    if acts != [] {
      SpawnedStep(c, s, acts[0]);
      SpawnedRun(c, Apply(c, s, acts[0]), acts[1..]);
      assert acts == [acts[0]] + acts[1..];
    }
  }

  predicate GoneAt(s: State, i: nat) {
    i < |s.parcels| && s.parcels[i].fate.Gone?
  }

  lemma GoneStep(c: Limits, s: State, a: Action, i: nat)
    requires c.Valid() && Enabled(c, s, a)
    ensures GoneAt(Apply(c, s, a), i) <==> GoneAt(s, i) || a == PusherDone(i)
  {
    ParcelStep(c, s, a);
  }

  lemma {:induction false} GoneRun(c: Limits, s: State, acts: seq<Action>, i: nat)
    requires c.Valid() && Allowed(c, s, acts)
    ensures GoneAt(Run(c, s, acts), i) <==> GoneAt(s, i) || PusherDone(i) in acts
    decreases acts
  {
    if acts != [] {
      GoneStep(c, s, acts[0], i);
      GoneRun(c, Apply(c, s, acts[0]), acts[1..], i);
      assert acts == [acts[0]] + acts[1..];
    }
  }

  lemma {:induction false} LiveOrGone(ps: seq<Parcel>)
    ensures Count(ps, LivePusher) + Count(ps, IsGone) == Count(ps, WasSpawned)
  {
    if ps != [] {
      LiveOrGone(ps[..|ps| - 1]);
    }
  }

  // In every run the live push goroutines and those that are over are as many as were spawned, and the
  // one of parcel i is over if and only if it has called wg.Done.
  lemma LiveAreSpawnedNotDone(c: Limits, acts: seq<Action>)
    requires c.Valid() && Allowed(c, INIT, acts)
    ensures var t := Run(c, INIT, acts);
      && Count(t.parcels, LivePusher) + Count(t.parcels, IsGone) == multiset(acts)[Spawn]
      && forall i: nat :: i < |t.parcels| ==> (IsGone(t.parcels[i].fate) <==> PusherDone(i) in acts)
  {
    var t := Run(c, INIT, acts);
    SpawnedRun(c, INIT, acts);
    LiveOrGone(t.parcels);
    forall i: nat | i < |t.parcels|
      ensures IsGone(t.parcels[i].fate) <==> PusherDone(i) in acts
    {
      GoneRun(c, INIT, acts, i);
    }
  }

  // The entries that arrive are those of the batches delivered.

  // Changing a fate to one that satisfies p, if the one before did.
  lemma {:induction false} HoldingSetFate(ps: seq<Parcel>, i: nat, f: Fate, p: Fate -> bool)
    requires i < |ps| && (p(ps[i].fate) ==> p(f))
    ensures Holding(SetFate(ps, i, f), p) == Holding(ps, p) + Gain(ps[i], f, p)
  {
    var n := |ps| - 1;
    HoldingLast(ps, p);
    HoldingLast(SetFate(ps, i, f), p);
    if i == n {
      assert SetFate(ps, i, f)[..n] == ps[..n];
    } else {
      assert SetFate(ps, i, f)[..n] == SetFate(ps[..n], i, f);
      HoldingSetFate(ps[..n], i, f, p);
      SwapTail(Holding(ps[..n], p), Gain(ps[i], f, p), Share(Last(ps), p));
    }
  }

  function Gain(q: Parcel, f: Fate, p: Fate -> bool): multiset<Entry> {
    if p(f) && !p(q.fate) then multiset(q.entries) else multiset{}
  }

  lemma HoldingLast(ps: seq<Parcel>, p: Fate -> bool)
    requires ps != []
    ensures Holding(ps, p) == Holding(ps[..|ps| - 1], p) + Share(Last(ps), p)
  {
  }

  lemma SwapTail(a: multiset<Entry>, b: multiset<Entry>, c: multiset<Entry>)
    ensures (a + b) + c == (a + c) + b
  {
  }

  lemma HoldingAppend(ps: seq<Parcel>, q: Parcel, p: Fate -> bool)
    ensures Holding(ps + [q], p) == Holding(ps, p) + Share(q, p)
  {
    assert (ps + [q])[..|ps|] == ps;
  }

  function ArrivesNow(s: State, a: Action): multiset<Entry>
    requires Arrives(a) ==> a.i < |s.parcels|
  {
    if Arrives(a) then multiset(s.parcels[a.i].entries) else multiset{}
  }

  lemma PusherDelivers(c: Limits, s: State, a: Action)
    requires c.Valid() && Enabled(c, s, a) && (a.Attempt? || a.Release? || a.PusherDone?)
    ensures Holding(Apply(c, s, a).parcels, Delivered) == Holding(s.parcels, Delivered) + ArrivesNow(s, a)
  {
    PusherFateStep(c, s, a);
    HoldingSetFate(s.parcels, a.i, Apply(c, s, a).parcels[a.i].fate, Delivered);
  }

  lemma PusherFateStep(c: Limits, s: State, a: Action)
    requires c.Valid() && Enabled(c, s, a) && (a.Attempt? || a.Release? || a.PusherDone?)
    ensures var f := Apply(c, s, a).parcels[a.i].fate;
      && Apply(c, s, a).parcels == SetFate(s.parcels, a.i, f)
      && (Delivered(s.parcels[a.i].fate) ==> Delivered(f))
      && (Arrives(a) <==> Delivered(f) && !Delivered(s.parcels[a.i].fate))
  {
  }

  lemma HandedFateStep(c: Limits, s: State, a: Action)
    requires c.Valid() && Enabled(c, s, a) && a in {TryAcquire, WgAdd, Spawn}
    ensures var f := Last(Apply(c, s, a).parcels).fate;
      && Apply(c, s, a).parcels == SetFate(s.parcels, |s.parcels| - 1, f)
      && !Delivered(f) && !Delivered(Last(s.parcels).fate)
  {
  }

  lemma PushAsyncDelivers(c: Limits, s: State, a: Action)
    requires c.Valid() && Enabled(c, s, a) && a in {TryAcquire, WgAdd, Spawn}
    ensures Holding(Apply(c, s, a).parcels, Delivered) == Holding(s.parcels, Delivered)
  {
    var f := Last(Apply(c, s, a).parcels).fate;
    HandedFateStep(c, s, a);
    HoldingSetFate(s.parcels, |s.parcels| - 1, f, Delivered);
  }

  lemma DeliveredStep(c: Limits, s: State, a: Action)
    requires c.Valid() && Enabled(c, s, a)
    ensures Holding(Apply(c, s, a).parcels, Delivered) == Holding(s.parcels, Delivered) + ArrivesNow(s, a)
  {
    ParcelStep(c, s, a);
    if a.Attempt? || a.Release? || a.PusherDone? {
      PusherDelivers(c, s, a);
    } else if a in {TryAcquire, WgAdd, Spawn} {
      PushAsyncDelivers(c, s, a);
    } else if Apply(c, s, a).parcels != s.parcels {
      HoldingAppend(s.parcels, Last(Apply(c, s, a).parcels), Delivered);
    }
  }

  lemma {:induction false} ArrivedRun(c: Limits, s: State, acts: seq<Action>)
    requires c.Valid() && Allowed(c, s, acts)
    ensures Holding(Run(c, s, acts).parcels, Delivered) == Holding(s.parcels, Delivered) + multiset(Arrived(c, s, acts))
    decreases acts
  {
    if acts != [] {
      DeliveredStep(c, s, acts[0]);
      ArrivedRun(c, Apply(c, s, acts[0]), acts[1..]);
    }
  }

  // Every entry delivered arrived once, and nothing else arrived.
  lemma ArrivedIsDelivered(c: Limits, acts: seq<Action>)
    requires c.Valid() && Allowed(c, INIT, acts)
    ensures multiset(Arrived(c, INIT, acts)) == Holding(Run(c, INIT, acts).parcels, Delivered)
  {
    ArrivedRun(c, INIT, acts);
  }
}
