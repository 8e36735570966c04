// Whole-run results about what happens to entries and batches.
module LokiDelivery {
  import opened Seqs
  import opened LokiProtocol
  import opened LokiInvariants

  lemma Reachable(c: Limits, acts: seq<Action>)
    requires c.Valid() && Allowed(c, INIT, acts)
    ensures Inv(c, Run(c, INIT, acts))
  {
    InvInit(c);
    InvRun(c, INIT, acts);
  }

  // FIFO and conservation.

  lemma {:induction false} FlattenSlice<T>(ss: seq<seq<T>>, i: nat)
    requires i < |ss|
    ensures var o := |Flatten(ss[..i])|;
      o + |ss[i]| <= |Flatten(ss)| && Flatten(ss)[o..o + |ss[i]|] == ss[i]
  {
    var n := |ss| - 1;
    if i < n {
      FlattenSlice(ss[..n], i);
      assert ss[..n][..i] == ss[..i];
    }
  }

  lemma SliceAt<T>(ss: seq<seq<T>>, tail: seq<T>, i: nat)
    requires i < |ss|
    ensures var o := |Flatten(ss[..i])|;
      o + |ss[i]| <= |Flatten(ss) + tail| && (Flatten(ss) + tail)[o..o + |ss[i]|] == ss[i]
  {
    FlattenSlice(ss, i);
    var o := |Flatten(ss[..i])|;
    assert (Flatten(ss) + tail)[o..o + |ss[i]|] == Flatten(ss)[o..o + |ss[i]|];
  }

  // Parcel i is the slice of the accepted sequence that starts where the earlier parcels end.
  predicate NextSlice(s: State, i: nat)
    requires i < |s.parcels|
  {
    var o := |Flatten(Handed(s.parcels)[..i])|;
    var e := s.parcels[i].entries;
    o + |e| <= |s.accepted| && s.accepted[o..o + |e|] == e
  }

  lemma NextSliceOf(c: Limits, s: State, i: nat)
    requires Fifo(c, s) && i < |s.parcels|
    ensures NextSlice(s, i)
  {
    var h := Handed(s.parcels);
    assert Flatten(h) + (s.batch + s.ch) == s.accepted;
    SliceAt(h, s.batch + s.ch, i);
  }

  // In every reachable state the parcels are consecutive slices of the accepted sequence, in
  // acceptance order; the current batch and the channel continue it.
  lemma ParcelsAreSlices(c: Limits, acts: seq<Action>)
    requires c.Valid() && Allowed(c, INIT, acts)
    ensures var t := Run(c, INIT, acts);
      && Flatten(Handed(t.parcels)) + t.batch + t.ch == t.accepted
      && forall i :: 0 <= i < |t.parcels| ==> NextSlice(t, i)
  {
    Reachable(c, acts);
    var t := Run(c, INIT, acts);
    forall i | 0 <= i < |t.parcels|
      ensures NextSlice(t, i)
    {
      NextSliceOf(c, t, i);
    }
  }

  // What has been handed over is never changed, only added to; the same holds for the accepted log.
  ghost predicate Extends(s: State, t: State) {
    && |s.parcels| <= |t.parcels|
    && (forall i :: 0 <= i < |s.parcels| ==>
          t.parcels[i].entries == s.parcels[i].entries && t.parcels[i].final == s.parcels[i].final)
    && s.accepted <= t.accepted
    && (s.quit ==> t.quit && t.acceptedAtQuit == s.acceptedAtQuit)
  }

  lemma ExtendsStep(c: Limits, s: State, a: Action)
    requires c.Valid() && Quitting(c, s) && Enabled(c, s, a)
    ensures Extends(s, Apply(c, s, a))
  {
    ParcelStep(c, s, a);
    ParcelsExtend(c, s, a);
    assert s.accepted <= Apply(c, s, a).accepted;
  }

  lemma ParcelsExtend(c: Limits, s: State, a: Action)
    requires c.Valid() && Enabled(c, s, a)
    ensures var t := Apply(c, s, a);
      && |s.parcels| <= |t.parcels|
      && forall i :: 0 <= i < |s.parcels| ==>
           t.parcels[i].entries == s.parcels[i].entries && t.parcels[i].final == s.parcels[i].final
  {
    ParcelStep(c, s, a);
  }

  lemma {:induction false} HandedIsStable(c: Limits, s: State, acts: seq<Action>)
    requires c.Valid() && Inv(c, s) && Allowed(c, s, acts)
    ensures Extends(s, Run(c, s, acts))
    decreases acts
  {
    if acts != [] {
      var t := Apply(c, s, acts[0]);
      ExtendsStep(c, s, acts[0]);
      InvStep(c, s, acts[0]);
      HandedIsStable(c, t, acts[1..]);
      var u := Run(c, t, acts[1..]);
      assert s.accepted <= t.accepted <= u.accepted;
    }
  }

  predicate InFlight(f: Fate) { f.Trying? }

  predicate IsLost(f: Fate) { f.Lost? }

  predicate Delivered(f: Fate) { (f.Finished? || f.Released? || f.Gone?) && f.ok }

  predicate Failed(f: Fate) { (f.Finished? || f.Released? || f.Gone?) && !f.ok }

  function Share(q: Parcel, p: Fate -> bool): multiset<Entry> {
    if p(q.fate) then multiset(q.entries) else multiset{}
  }

  // The five classes of fates are disjoint and leave none out.
  lemma OneClass(q: Parcel, a: multiset<Entry>, b: multiset<Entry>, l: multiset<Entry>, d: multiset<Entry>,
                 f: multiset<Entry>)
    ensures (a + b + l + d + f) + multiset(q.entries)
         == (a + Share(q, InPushAsync)) + (b + Share(q, InFlight)) + (l + Share(q, IsLost))
          + (d + Share(q, Delivered)) + (f + Share(q, Failed))
  {
  }

  lemma {:induction false} HoldingPartition(ps: seq<Parcel>)
    ensures multiset(Flatten(Handed(ps)))
         == Holding(ps, InPushAsync) + Holding(ps, InFlight) + Holding(ps, IsLost)
          + Holding(ps, Delivered) + Holding(ps, Failed)
  {
    if ps != [] {
      var init := ps[..|ps| - 1];
      HoldingPartition(init);
      FlattenHanded(ps);
      OneClass(Last(ps), Holding(init, InPushAsync), Holding(init, InFlight), Holding(init, IsLost),
               Holding(init, Delivered), Holding(init, Failed));
    }
  }

  lemma FlattenHanded(ps: seq<Parcel>)
    requires ps != []
    ensures multiset(Flatten(Handed(ps)))
         == multiset(Flatten(Handed(ps[..|ps| - 1]))) + multiset(Last(ps).entries)
  {
    assert Handed(ps) == Handed(ps[..|ps| - 1]) + [Last(ps).entries];
    FlattenAppend(Handed(ps[..|ps| - 1]), Last(ps).entries);
  }

  // Every entry offered to enqueue is in exactly one place, at every step of every run.
  lemma Conservation(c: Limits, acts: seq<Action>)
    requires c.Valid() && Allowed(c, INIT, acts)
    ensures var t := Run(c, INIT, acts);
      && multiset(t.offered)
           == multiset(t.refused) + multiset(t.ch) + multiset(t.batch) + Holding(t.parcels, InPushAsync)
            + Holding(t.parcels, InFlight) + Holding(t.parcels, IsLost)
            + Holding(t.parcels, Delivered) + Holding(t.parcels, Failed)
      && |t.refused| == t.dropped + t.adding
  {
    Reachable(c, acts);
    var t := Run(c, INIT, acts);
    HoldingPartition(t.parcels);
    assert multiset(t.accepted) == multiset(Flatten(Handed(t.parcels))) + multiset(t.batch) + multiset(t.ch);
  }

  // Wait group.

  // wg.Add never meets a zero counter, the counter is never negative, and it counts run and its pushers.
  lemma WaitGroupDiscipline(c: Limits, acts: seq<Action>)
    requires c.Valid() && Allowed(c, INIT, acts)
    ensures var t := Run(c, INIT, acts);
      && t.wg == (if t.phase.Stopped? then 0 else 1) + Count(t.parcels, OnWaitGroup)
      && (Enabled(c, t, WgAdd) ==> t.wg >= 1)
      && (Enabled(c, t, RunDone) ==> t.wg >= 1)
      && (forall i :: Enabled(c, t, PusherDone(i)) ==> t.wg >= 1)
  {
    Reachable(c, acts);
    AddAndDoneAreCounted(c, Run(c, INIT, acts));
  }

  lemma AddAndDoneAreCounted(c: Limits, s: State)
    requires c.Valid() && Accounts(c, s)
    ensures Enabled(c, s, WgAdd) || Enabled(c, s, RunDone) ==> s.wg >= 1
    ensures forall i :: Enabled(c, s, PusherDone(i)) ==> s.wg >= 1
  {
    CountWitness(s.parcels, OnWaitGroup);
  }

  lemma {:induction false} ZeroStaysZero(c: Limits, s: State, acts: seq<Action>)
    requires c.Valid() && Inv(c, s) && Allowed(c, s, acts) && s.wg == 0
    ensures Run(c, s, acts).wg == 0
    decreases acts
  {
    if acts != [] {
      WgZero(c, s);
      InvStep(c, s, acts[0]);
      ZeroStaysZero(c, Apply(c, s, acts[0]), acts[1..]);
    }
  }

  // The semaphore does not bound the wait group: pushers that have given their token back but
  // not called Done can pile up, so the counter exceeds any given number.
  lemma {:induction false} WaitGroupUnbounded(c: Limits, e: Entry, n: nat) returns (acts: seq<Action>)
    requires c.Valid()
    ensures Allowed(c, INIT, acts)
    ensures var t := Run(c, INIT, acts);
      t.wg == 1 + n && t.tokens == 0 && t.phase.Selecting? && t.ch == [] && t.batch == []
  {
    if n == 0 {
      acts := [];
    } else {
      var before := WaitGroupUnbounded(c, e, n - 1);
      var s := Run(c, INIT, before);
      var cycle := PushCycle(c, s, e);
      RunConcat(c, INIT, before, cycle);
      acts := before + cycle;
    }
  }

  // One entry through the queue, a flush, and a push that succeeds and releases its token.
  lemma PushCycle(c: Limits, s: State, e: Entry) returns (acts: seq<Action>)
    requires c.Valid() && s.tokens == 0 && s.phase.Selecting? && s.ch == [] && s.batch == []
    ensures Allowed(c, s, acts)
    ensures var t := Run(c, s, acts);
      t.wg == s.wg + 1 && t.tokens == 0 && t.phase.Selecting? && t.ch == [] && t.batch == []
  {
    var a := FlushOne(c, s, e);
    var s1 := Run(c, s, a);
    var b := SpawnOne(c, s1);
    var s2 := Run(c, s1, b);
    var d := DeliverOne(c, s2);
    RunConcat(c, s1, b, d);
    RunConcat(c, s, a, b + d);
    acts := a + (b + d);
  }

  predicate NoAttempts(acts: seq<Action>) {
    forall i :: 0 <= i < |acts| ==> !acts[i].Attempt?
  }

  lemma FlushOne(c: Limits, s: State, e: Entry) returns (acts: seq<Action>)
    requires c.Valid() && s.phase.Selecting? && s.ch == [] && s.batch == []
    ensures Allowed(c, s, acts) && NoAttempts(acts)
    ensures var t := Run(c, s, acts);
      && t.wg == s.wg && t.tokens == s.tokens && t.caller == s.caller
      && t.phase.Pushing? && t.ch == [] && t.batch == []
      && t.parcels == s.parcels + [Parcel([e], false, InHand)]
  {
    var s1 := Apply(c, s, Offer(e));
    var rest := FlushQueued(c, s1, e);
    RunStep(c, s, Offer(e), rest);
    acts := [Offer(e)] + rest;
  }

  // The one queued entry is flushed in a batch of its own.
  lemma FlushQueued(c: Limits, s: State, e: Entry) returns (acts: seq<Action>)
    requires c.Valid() && s.phase.Selecting? && s.ch == [e] && s.batch == []
    ensures Allowed(c, s, acts) && NoAttempts(acts) && forall i :: 0 <= i < |acts| ==> !acts[i].Offer?
    ensures var t := Run(c, s, acts);
      && t.wg == s.wg && t.tokens == s.tokens && t.caller == s.caller
      && t.phase.Pushing? && t.ch == [] && t.batch == []
      && t.parcels == s.parcels + [Parcel([e], false, InHand)]
  {
    var s1 := Apply(c, s, Receive);
    assert s1.batch == [e] && s1.ch == [];
    var s2 := Apply(c, s1, SizeCheck);
    var last := if c.maxBatch == 1 then [] else [Tick];
    if c.maxBatch != 1 {
      RunOne(c, s2, Tick);
    }
    RunStep(c, s1, SizeCheck, last);
    RunStep(c, s, Receive, [SizeCheck] + last);
    acts := [Receive] + ([SizeCheck] + last);
  }

  lemma SpawnOne(c: Limits, s: State) returns (acts: seq<Action>)
    requires c.Valid() && s.phase.Pushing? && LastIs(s, InHand) && !Last(s.parcels).final && s.tokens < c.maxPush
    ensures Allowed(c, s, acts) && NoAttempts(acts)
    ensures var t := Run(c, s, acts);
      && t.wg == s.wg + 1 && t.tokens == s.tokens + 1 && t.caller == s.caller
      && t.phase.Selecting? && t.ch == s.ch && t.batch == s.batch
      && t.parcels == SetFate(s.parcels, |s.parcels| - 1, Trying(0))
  {
    var s1 := Apply(c, s, TryAcquire);
    var s2 := Apply(c, s1, WgAdd);
    RunOne(c, s2, Spawn);
    RunStep(c, s1, WgAdd, [Spawn]);
    RunStep(c, s, TryAcquire, [WgAdd] + [Spawn]);
    acts := [TryAcquire] + ([WgAdd] + [Spawn]);
  }

  lemma DeliverOne(c: Limits, s: State) returns (acts: seq<Action>)
    requires c.Valid() && LastIs(s, Trying(0)) && s.tokens == 1
    ensures Allowed(c, s, acts)
    ensures var t := Run(c, s, acts);
      t.wg == s.wg && t.tokens == 0 && t.phase == s.phase && t.ch == s.ch && t.batch == s.batch
  {
    var i := |s.parcels| - 1;
    var s1 := Apply(c, s, Attempt(i, true));
    RunOne(c, s1, Release(i));
    RunStep(c, s, Attempt(i, true), [Release(i)]);
    acts := [Attempt(i, true)] + [Release(i)];
  }

  lemma RunStep(c: Limits, s: State, a: Action, acts: seq<Action>)
    requires c.Valid() && Enabled(c, s, a) && Allowed(c, Apply(c, s, a), acts)
    ensures Allowed(c, s, [a] + acts) && Run(c, s, [a] + acts) == Run(c, Apply(c, s, a), acts)
  {
    assert ([a] + acts)[1..] == acts;
  }

  lemma TakeStep(c: Limits, s: State, acts: seq<Action>, m: nat)
    requires c.Valid() && m < |acts| && Enabled(c, s, acts[0])
    requires Allowed(c, Apply(c, s, acts[0]), acts[1..][..m])
    ensures Allowed(c, s, acts[..m + 1])
    ensures Run(c, s, acts[..m + 1]) == Run(c, Apply(c, s, acts[0]), acts[1..][..m])
  {
    assert acts[..m + 1] == [acts[0]] + acts[1..][..m];
    RunStep(c, s, acts[0], acts[1..][..m]);
  }

  // Semaphore.

  // Tokens are exactly those of the pushers, and the one run holds before the spawn; at most
  // maxPush are out; and the deferred receive that gives one back never blocks.
  lemma SemaphoreAccounting(c: Limits, acts: seq<Action>)
    requires c.Valid() && Allowed(c, INIT, acts)
    ensures var t := Run(c, INIT, acts);
      && t.tokens == Count(t.parcels, HoldsToken) <= c.maxPush
      && (c == CODE_LIMITS ==> t.tokens <= 2)
      && forall i :: 0 <= i < |t.parcels| && t.parcels[i].fate.Finished? ==> Enabled(c, t, Release(i))
  {
    Reachable(c, acts);
    HolderCanRelease(c, Run(c, INIT, acts));
  }

  lemma HolderCanRelease(c: Limits, s: State)
    requires c.Valid() && Accounts(c, s)
    ensures forall i :: 0 <= i < |s.parcels| && s.parcels[i].fate.Finished? ==> Enabled(c, s, Release(i))
  {
    CountWitness(s.parcels, HoldsToken);
  }

  // A state in which maxPush parcels other than i hold the tokens and parcel i is about to try.
  ghost predicate SaturatedFor(c: Limits, s: State, i: nat) {
    && i == |s.parcels| - 1 && LastIs(s, InHand)
    && s.tokens == c.maxPush == Count(s.parcels[..i], HoldsToken)
  }

  lemma LostStep(c: Limits, s: State, a: Action, i: nat)
    requires c.Valid() && Accounts(c, s) && Enabled(c, s, a)
    requires i < |Apply(c, s, a).parcels| && Apply(c, s, a).parcels[i].fate.Lost?
    requires !(i < |s.parcels| && s.parcels[i].fate.Lost?)
    ensures a == TryAcquire && SaturatedFor(c, s, i)
  {
    ParcelStep(c, s, a);
    assert a == TryAcquire;
  }

  // A batch is dropped only while maxPush earlier batches hold all the tokens.
  lemma {:induction false} LostOnlyWhenSaturated(c: Limits, s: State, acts: seq<Action>, i: nat) returns (n: nat)
    requires c.Valid() && Accounts(c, s) && Allowed(c, s, acts)
    requires i < |Run(c, s, acts).parcels| && Run(c, s, acts).parcels[i].fate.Lost?
    requires !(i < |s.parcels| && s.parcels[i].fate.Lost?)
    ensures n < |acts| && acts[n] == TryAcquire
    ensures Allowed(c, s, acts[..n]) && SaturatedFor(c, Run(c, s, acts[..n]), i)
    decreases acts
  {
    var t := Apply(c, s, acts[0]);
    if i < |t.parcels| && t.parcels[i].fate.Lost? {
      LostStep(c, s, acts[0], i);
      n := 0;
      assert acts[..0] == [];
    } else {
      AccountsStep(c, s, acts[0]);
      var m := LostOnlyWhenSaturated(c, t, acts[1..], i);
      n := m + 1;
      assert acts[n] == acts[1..][m];
      TakeStep(c, s, acts, m);
    }
  }

  predicate LivePusher(f: Fate) { f.Trying? || f.Finished? || f.Released? }

  predicate BeforeSpawn(f: Fate) { f.Acquired? || f.Counted? }

  predicate IsReleased(f: Fate) { f.Released? }

  lemma {:induction false} LiveHoldOrReleased(ps: seq<Parcel>)
    ensures Count(ps, LivePusher) + Count(ps, BeforeSpawn) == Count(ps, HoldsToken) + Count(ps, IsReleased)
  {
    if ps != [] {
      LiveHoldOrReleased(ps[..|ps| - 1]);
    }
  }

  // Push goroutines are the token holders, without the one not spawned yet, and those that have given
  // their token back and not called Done: the only ones that can go beyond maxPush.
  lemma PushersBeyondCap(c: Limits, acts: seq<Action>)
    requires c.Valid() && Allowed(c, INIT, acts)
    ensures var t := Run(c, INIT, acts);
      && Count(t.parcels, LivePusher) + Count(t.parcels, BeforeSpawn) == t.tokens + Count(t.parcels, IsReleased)
      && Count(t.parcels, LivePusher) <= c.maxPush + Count(t.parcels, IsReleased)
  {
    Reachable(c, acts);
    LiveHoldOrReleased(Run(c, INIT, acts).parcels);
  }

  // Batch sizes.

  // At the outer select the batch is below maxBatch; batches flushed there have 1..maxBatch entries;
  // the batch of the drain exceeds maxBatch - 1 + queueSize only by what is accepted after quit closes.
  lemma BatchBounds(c: Limits, acts: seq<Action>)
    requires c.Valid() && Allowed(c, INIT, acts)
    ensures var t := Run(c, INIT, acts);
      && (t.phase.Selecting? ==> |t.batch| < c.maxBatch)
      && (forall i :: 0 <= i < |t.parcels| && !t.parcels[i].final ==> 1 <= |t.parcels[i].entries| <= c.maxBatch)
      && (forall i :: 0 <= i < |t.parcels| && t.parcels[i].final ==>
            && i == |t.parcels| - 1 && t.quit
            && 1 <= |t.parcels[i].entries| <= c.maxBatch - 1 + c.queueSize + |t.accepted| - t.acceptedAtQuit
            && (c == CODE_LIMITS && |t.accepted| == t.acceptedAtQuit ==> |t.parcels[i].entries| <= 1123))
  {
    Reachable(c, acts);
  }

  // Warnings.

  function Elements(s: seq<nat>): set<nat> {
    set n | n in s
  }

  // The numbers in 1..d whose refusal prints a warning.
  function WarnSet(c: Limits, d: nat): set<nat>
    requires c.Valid()
  {
    set n: nat | 1 <= n <= d && Warns(c, n)
  }

  lemma {:induction false} DistinctSize(s: seq<nat>)
    requires Distinct(s)
    ensures |Elements(s)| == |s|
  {
    if s != [] {
      var init := s[..|s| - 1];
      DistinctSize(init);
      assert Elements(s) == Elements(init) + {Last(s)};
    }
  }

  lemma DivSucc(d: nat, w: nat)
    requires w >= 1
    ensures (d + 1) / w == d / w + if (d + 1) % w == 0 then 1 else 0
  {
    var q, r := d / w, d % w;
    assert d == w * q + r;
    if r + 1 < w {
      assert d + 1 == w * q + (r + 1);
      Quotient(d + 1, w, q, r + 1);
    } else {
      assert d + 1 == w * (q + 1);
      Quotient(d + 1, w, q + 1, 0);
    }
  }

  lemma Quotient(d: nat, w: nat, q: nat, r: nat)
    requires d == w * q + r && r < w
    ensures d / w == q && d % w == r
  {
    var k := d / w - q;
    assert d == w * (d / w) + d % w;
    assert w * k == r - d % w;
    if k != 0 {
      MulLarge(w, k);
      assert false;
    }
  }

  lemma MulLarge(w: int, k: int)
    requires w >= 0 && k != 0
    ensures w * k >= w || w * k <= -w
  {
    if k >= 1 {
      assert w * k >= w * 1;
    } else {
      assert w * k <= w * -1;
    }
  }

  function WarningCount(c: Limits, n: nat): nat
    requires c.Valid()
  {
    if n == 0 then 0 else 1 + n / c.warnEvery
  }

  lemma {:induction false} WarnSetSize(c: Limits, d: nat)
    requires c.Valid()
    ensures |WarnSet(c, d)| == WarningCount(c, d)
  {
    if d == 0 {
      assert WarnSet(c, d) == {};
    } else {
      WarnSetSize(c, d - 1);
      var before := WarnSet(c, d - 1);
      assert WarnSet(c, d) == if Warns(c, d) then before + {d} else before;
      DivSucc(d - 1, c.warnEvery);
      Quotient(1, c.warnEvery, 0, 1);
      Quotient(0, c.warnEvery, 0, 0);
    }
  }

  // Once every producer that was refused has finished enqueue, n refusals have printed
  // 1 + n / warnEvery warnings, whatever the interleaving, and never the same number twice.
  lemma DropWarnings(c: Limits, acts: seq<Action>)
    requires c.Valid() && Allowed(c, INIT, acts)
    requires Run(c, INIT, acts).adding == 0 && Run(c, INIT, acts).tickets == {}
    ensures var t := Run(c, INIT, acts);
      var n := |t.refused|;
      && Distinct(t.warned) && |t.warned| == (if n == 0 then 0 else 1 + n / c.warnEvery)
      && (forall k: nat :: k in t.warned <==> 1 <= k <= n && (k == 1 || k % c.warnEvery == 0))
      && (c == CODE_LIMITS && n > 0 ==> |t.warned| == 1 + n / 100)
  {
    Reachable(c, acts);
    var t := Run(c, INIT, acts);
    DistinctSize(t.warned);
    WarnSetSize(c, t.dropped);
    WarnedExactly(c, t);
    assert forall k: nat :: k in t.warned <==> k in Elements(t.warned);
  }

  lemma WarnedExactly(c: Limits, s: State)
    requires c.Valid() && Warnings(c, s) && s.tickets == {}
    ensures Elements(s.warned) == WarnSet(c, s.dropped)
  {
  }
}
