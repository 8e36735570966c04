// The order in which batches arrive at Loki.
module LokiArrival {
  import opened Seqs
  import opened LokiProtocol
  import opened LokiInvariants
  import opened LokiDelivery
  import opened LokiPush

  predicate Arrives(a: Action) {
    a.Attempt? && a.ok
  }

  // Batches arrive in the order in which they were flushed.
  ghost predicate InFlushOrder(acts: seq<Action>) {
    forall m, n :: 0 <= m < n < |acts| && Arrives(acts[m]) && Arrives(acts[n]) ==> acts[m].i < acts[n].i
  }

  // With one token.

  // A push goroutine with this fate attempts nothing any more.
  predicate Over(f: Fate) {
    f.Lost? || f.Finished? || f.Released? || f.Gone?
  }

  // The first n parcels are over.
  ghost predicate OverBelow(s: State, n: nat) {
    n <= |s.parcels| && forall j :: 0 <= j < n ==> Over(s.parcels[j].fate)
  }

  lemma OverBelowStep(c: Limits, s: State, a: Action, n: nat)
    requires c.Valid() && Enabled(c, s, a) && OverBelow(s, n)
    ensures OverBelow(Apply(c, s, a), n)
    ensures Arrives(a) ==> a.i >= n
  {
    ParcelStep(c, s, a);
  }

  lemma {:induction false} LaterArrivals(c: Limits, s: State, acts: seq<Action>, n: nat)
    requires c.Valid() && Allowed(c, s, acts) && OverBelow(s, n)
    ensures forall k :: 0 <= k < |acts| && Arrives(acts[k]) ==> acts[k].i >= n
    decreases acts
  {
    if acts != [] {
      OverBelowStep(c, s, acts[0], n);
      LaterArrivals(c, Apply(c, s, acts[0]), acts[1..], n);
      assert forall k :: 1 <= k < |acts| ==> acts[k] == acts[1..][k - 1];
    }
  }

  lemma {:induction false} TwoHold(ps: seq<Parcel>, i: nat, j: nat)
    requires i < j < |ps| && HoldsToken(ps[i].fate) && HoldsToken(ps[j].fate)
    ensures Count(ps, HoldsToken) >= 2
  {
    var n := |ps| - 1;
    if j == n {
      CountWitness(ps[..n], HoldsToken);
      assert HoldsToken(ps[..n][i].fate);
    } else {
      TwoHold(ps[..n], i, j);
    }
  }

  // With one token, when a batch arrives every earlier one is over.
  lemma ArrivalMeansOver(c: Limits, s: State, a: Action)
    requires c.Valid() && c.maxPush == 1 && Control(c, s) && Accounts(c, s) && Enabled(c, s, a) && Arrives(a)
    ensures OverBelow(Apply(c, s, a), a.i + 1)
  {
    forall j | 0 <= j < a.i
      ensures Over(s.parcels[j].fate)
    {
      if HoldsToken(s.parcels[j].fate) {
        TwoHold(s.parcels, j, a.i);
      }
    }
  }

  lemma {:induction false} OneTokenKeepsOrder(c: Limits, s: State, acts: seq<Action>)
    requires c.Valid() && c.maxPush == 1 && Inv(c, s) && Allowed(c, s, acts)
    ensures InFlushOrder(acts)
    decreases acts
  {
    if acts != [] {
      var t := Apply(c, s, acts[0]);
      InvStep(c, s, acts[0]);
      OneTokenKeepsOrder(c, t, acts[1..]);
      if Arrives(acts[0]) {
        ArrivalMeansOver(c, s, acts[0]);
        LaterArrivals(c, t, acts[1..], acts[0].i + 1);
      }
      OrderCons(acts);
    }
  }

  lemma OrderCons(acts: seq<Action>)
    requires acts != [] && InFlushOrder(acts[1..])
    requires Arrives(acts[0]) ==> forall n :: 0 <= n < |acts[1..]| && Arrives(acts[1..][n]) ==> acts[0].i < acts[1..][n].i
    ensures InFlushOrder(acts)
  {
    forall m, n | 0 <= m < n < |acts| && Arrives(acts[m]) && Arrives(acts[n])
      ensures acts[m].i < acts[n].i
    {
      assert acts[n] == acts[1..][n - 1];
      if m > 0 {
        assert acts[m] == acts[1..][m - 1];
      }
    }
  }

  // With two.

  // e and f are flushed in batches of their own, in this order, and the second batch arrives first.
  lemma Overtaking(c: Limits, e: Entry, f: Entry) returns (acts: seq<Action>)
    requires c.Valid() && c.maxPush >= 2
    ensures Allowed(c, INIT, acts) && !InFlushOrder(acts)
    ensures Run(c, INIT, acts).accepted == [e, f] && Arrived(c, INIT, acts) == [f, e]
  {
    var a := TwoPushing(c, e, f);
    var b := SecondFirst(c, Run(c, INIT, a));
    RunConcat(c, INIT, a, b);
    acts := a + b;
    NothingArrived(c, INIT, a);
    ArrivedConcat(c, INIT, a, b);
    Reachable(c, acts);
    AcceptedByTwo(c, Run(c, INIT, acts), e, f);
    assert acts[|a|] == Attempt(1, true) && acts[|a| + 1] == Attempt(0, true);
  }

  lemma TwoPushing(c: Limits, e: Entry, f: Entry) returns (acts: seq<Action>)
    requires c.Valid() && c.maxPush >= 2
    ensures Allowed(c, INIT, acts) && NoAttempts(acts)
    ensures var t := Run(c, INIT, acts);
      t.ch == [] && t.batch == [] && t.parcels == [Parcel([e], false, Trying(0)), Parcel([f], false, Trying(0))]
  {
    var a := FlushAndSpawn(c, INIT, e);
    var b := FlushAndSpawn(c, Run(c, INIT, a), f);
    RunConcat(c, INIT, a, b);
    acts := a + b;
  }

  lemma FlushAndSpawn(c: Limits, s: State, e: Entry) returns (acts: seq<Action>)
    requires c.Valid() && s.phase.Selecting? && s.ch == [] && s.batch == [] && s.tokens < c.maxPush
    ensures Allowed(c, s, acts) && NoAttempts(acts)
    ensures var t := Run(c, s, acts);
      && t.phase.Selecting? && t.ch == [] && t.batch == [] && t.tokens == s.tokens + 1 && t.caller == s.caller
      && t.parcels == s.parcels + [Parcel([e], false, Trying(0))]
  {
    var a := FlushOne(c, s, e);
    var t := Run(c, s, a);
    var b := SpawnOne(c, t);
    RunConcat(c, s, a, b);
    acts := a + b;
  }

  lemma SecondFirst(c: Limits, s: State) returns (acts: seq<Action>)
    requires c.Valid() && |s.parcels| == 2 && s.parcels[0].fate == s.parcels[1].fate == Trying(0)
    ensures acts == [Attempt(1, true), Attempt(0, true)] && Allowed(c, s, acts)
    ensures var t := Run(c, s, acts);
      t.ch == s.ch && t.batch == s.batch && Handed(t.parcels) == Handed(s.parcels)
    ensures Arrived(c, s, acts) == s.parcels[1].entries + s.parcels[0].entries
  {
    var t := Apply(c, s, Attempt(1, true));
    RunOne(c, t, Attempt(0, true));
    RunStep(c, s, Attempt(1, true), [Attempt(0, true)]);
    acts := [Attempt(1, true)] + [Attempt(0, true)];
    assert acts[1..] == [Attempt(0, true)] && acts[1..][1..] == [];
    assert Arrived(c, t, acts[1..]) == s.parcels[0].entries + [];
  }

  lemma AcceptedByTwo(c: Limits, s: State, e: Entry, f: Entry)
    requires Fifo(c, s) && s.ch == [] && s.batch == [] && Handed(s.parcels) == [[e], [f]]
    ensures s.accepted == [e, f]
  {
    FlattenTwo([e], [f]);
  }

  lemma FlattenTwo<T>(a: seq<T>, b: seq<T>)
    ensures Flatten([a, b]) == a + b
  {
    FlattenAppend([], a);
    FlattenAppend([a], b);
    assert [] + [a] == [a] && [a] + [b] == [a, b] && [] + a == a;
  }

  // In every run batches arrive in flush order, if and only if there is a single token.
  lemma ArrivalOrderIff(c: Limits)
    requires c.Valid()
    ensures (forall acts :: Allowed(c, INIT, acts) ==> InFlushOrder(acts)) <==> c.maxPush == 1
  {
    if c.maxPush == 1 {
      forall acts | Allowed(c, INIT, acts)
        ensures InFlushOrder(acts)
      {
        InvInit(c);
        OneTokenKeepsOrder(c, INIT, acts);
      }
    } else {
      var acts := Overtaking(c, Entry(0, "", ""), Entry(1, "", ""));
    }
  }

  // What Loki sees.

  // The entries of the batches that arrive during a run, in the order in which they arrive.
  function Arrived(c: Limits, s: State, acts: seq<Action>): seq<Entry>
    requires c.Valid() && Allowed(c, s, acts)
    decreases acts
  {
    if acts == [] then []
    else
      var now := if Arrives(acts[0]) then s.parcels[acts[0].i].entries else [];
      now + Arrived(c, Apply(c, s, acts[0]), acts[1..])
  }

  lemma {:induction false} ArrivedConcat(c: Limits, s: State, a: seq<Action>, b: seq<Action>)
    requires c.Valid() && Allowed(c, s, a) && Allowed(c, Run(c, s, a), b)
    ensures Allowed(c, s, a + b) && Arrived(c, s, a + b) == Arrived(c, s, a) + Arrived(c, Run(c, s, a), b)
    decreases a
  {
    RunConcat(c, s, a, b);
    if a == [] {
      assert a + b == b;
    } else {
      assert (a + b)[1..] == a[1..] + b;
      var t := Apply(c, s, a[0]);
      ArrivedConcat(c, t, a[1..], b);
      ConcatAssociates(if Arrives(a[0]) then s.parcels[a[0].i].entries else [], Arrived(c, t, a[1..]),
                       Arrived(c, Run(c, t, a[1..]), b));
    }
  }

  lemma {:induction false} NothingArrived(c: Limits, s: State, acts: seq<Action>)
    requires c.Valid() && Allowed(c, s, acts) && NoAttempts(acts)
    ensures Arrived(c, s, acts) == []
    decreases acts
  {
    if acts != [] {
      NothingArrived(c, Apply(c, s, acts[0]), acts[1..]);
    }
  }

  // With one token the entries arrive as a subsequence of what is flushed.

  // Of the batches flushed by the end of a run, all but the first n can still arrive.
  ghost predicate ArrivesFrom(c: Limits, s: State, acts: seq<Action>, n: nat)
    requires c.Valid() && Allowed(c, s, acts)
  {
    var all := Handed(Run(c, s, acts).parcels);
    n <= |all| && Subseq(Arrived(c, s, acts), Flatten(all[n..]))
  }

  // After a step of the sender with one token, the batches from this one on can still arrive.
  function Next(a: Action, n: nat): nat {
    if Arrives(a) then a.i + 1 else n
  }

  ghost predicate Ordered(c: Limits, s: State, n: nat) {
    Control(c, s) && ParcelsOk(c, s) && Accounts(c, s) && OverBelow(s, n)
  }

  lemma OrderedStep(c: Limits, s: State, a: Action, n: nat)
    requires c.Valid() && c.maxPush == 1 && Ordered(c, s, n) && Enabled(c, s, a)
    ensures Ordered(c, Apply(c, s, a), Next(a, n)) && n <= Next(a, n)
    ensures Arrives(a) ==> n <= a.i
  {
    ControlStep(c, s, a);
    AccountsStep(c, s, a);
    OverBelowStep(c, s, a, n);
    if Arrives(a) {
      ArrivalMeansOver(c, s, a);
    }
  }

  lemma {:induction false} ArrivedInOrder(c: Limits, s: State, acts: seq<Action>, n: nat)
    requires c.Valid() && c.maxPush == 1 && Ordered(c, s, n) && Allowed(c, s, acts)
    ensures ArrivesFrom(c, s, acts, n)
    decreases acts
  {
    if acts != [] {
      OrderedStep(c, s, acts[0], n);
      ArrivedInOrder(c, Apply(c, s, acts[0]), acts[1..], Next(acts[0], n));
      if Arrives(acts[0]) {
        FirstArrival(c, s, acts, n);
      } else {
        assert Arrived(c, s, acts) == Arrived(c, Apply(c, s, acts[0]), acts[1..]);
      }
    }
  }

  lemma {:induction false} EntriesStay(c: Limits, s: State, acts: seq<Action>, i: nat)
    requires c.Valid() && Allowed(c, s, acts) && i < |s.parcels|
    ensures i < |Run(c, s, acts).parcels| && Run(c, s, acts).parcels[i].entries == s.parcels[i].entries
    decreases acts
  {
    if acts != [] {
      ParcelsExtend(c, s, acts[0]);
      EntriesStay(c, Apply(c, s, acts[0]), acts[1..], i);
    }
  }

  lemma FirstArrival(c: Limits, s: State, acts: seq<Action>, n: nat)
    requires c.Valid() && Allowed(c, s, acts) && acts != [] && Arrives(acts[0]) && n <= acts[0].i
    requires ArrivesFrom(c, Apply(c, s, acts[0]), acts[1..], acts[0].i + 1)
    ensures ArrivesFrom(c, s, acts, n)
  {
    EntriesStay(c, s, acts, acts[0].i);
    NextArrival(Handed(Run(c, s, acts).parcels), n, acts[0].i, Arrived(c, Apply(c, s, acts[0]), acts[1..]));
  }

  lemma NextArrival(all: seq<seq<Entry>>, n: nat, i: nat, later: seq<Entry>)
    requires n <= i < |all| && Subseq(later, Flatten(all[i + 1..]))
    ensures Subseq(all[i] + later, Flatten(all[n..]))
  {
    SubseqBoth(all[i], later, Flatten(all[i + 1..]));
    assert all[n..] == (all[n..i] + [all[i]]) + all[i + 1..];
    FlattenConcat(all[n..i] + [all[i]], all[i + 1..]);
    FlattenAppend(all[n..i], all[i]);
    var before, rest := Flatten(all[n..i]), Flatten(all[i + 1..]);
    assert (before + all[i]) + rest == before + (all[i] + rest);
    SubseqSkip(before, all[i] + later, all[i] + rest);
  }

  // The lines of one level, as Loki stores them.
  function LevelLines(es: seq<Entry>, level: string): seq<Value> {
    Lines(OfLevel(es, level))
  }

  lemma {:induction false} SubseqOfLevel(a: seq<Entry>, b: seq<Entry>, level: string)
    requires Subseq(a, b)
    ensures Subseq(LevelLines(a, level), LevelLines(b, level))
    decreases b
  {
    if a != [] {
      LevelLinesCons(b, level);
      var x := LevelLines([b[0]], level);
      if a[0] == b[0] && Subseq(a[1..], b[1..]) {
        LevelLinesCons(a, level);
        SubseqOfLevel(a[1..], b[1..], level);
        SubseqBoth(x, LevelLines(a[1..], level), LevelLines(b[1..], level));
      } else {
        SubseqOfLevel(a, b[1..], level);
        SubseqSkip(x, LevelLines(a, level), LevelLines(b[1..], level));
      }
    }
  }

  lemma LevelLinesCons(es: seq<Entry>, level: string)
    requires es != []
    ensures LevelLines(es, level) == LevelLines([es[0]], level) + LevelLines(es[1..], level)
  {
    assert es == [es[0]] + es[1..];
    OfLevelConcat([es[0]], es[1..], level);
    LinesConcat(OfLevel([es[0]], level), OfLevel(es[1..], level));
  }

  // The lines of a level that arrive are lines accepted, in the order in which they were accepted.
  ghost predicate LevelInOrder(c: Limits, acts: seq<Action>, level: string)
    requires c.Valid() && Allowed(c, INIT, acts)
  {
    Subseq(LevelLines(Arrived(c, INIT, acts), level), LevelLines(Run(c, INIT, acts).accepted, level))
  }

  lemma ArrivedIsFlushed(c: Limits, acts: seq<Action>)
    requires c.Valid() && c.maxPush == 1 && Allowed(c, INIT, acts)
    ensures Subseq(Arrived(c, INIT, acts), Flatten(Handed(Run(c, INIT, acts).parcels)))
  {
    InvInit(c);
    ArrivedInOrder(c, INIT, acts, 0);
    var all := Handed(Run(c, INIT, acts).parcels);
    assert all[0..] == all;
  }

  lemma OneTokenKeepsLevels(c: Limits, acts: seq<Action>, level: string)
    requires c.Valid() && c.maxPush == 1 && Allowed(c, INIT, acts)
    ensures LevelInOrder(c, acts, level)
  {
    ArrivedIsFlushed(c, acts);
    Reachable(c, acts);
    var t := Run(c, INIT, acts);
    FlushedIsPrefix(c, t);
    SubseqOfPrefix(Arrived(c, INIT, acts), Flatten(Handed(t.parcels)), t.accepted);
    SubseqOfLevel(Arrived(c, INIT, acts), t.accepted, level);
  }

  // With two, the lines of two entries of the level arrive the wrong way round.
  lemma TwoTokensInvert(c: Limits, level: string) returns (acts: seq<Action>)
    requires c.Valid() && c.maxPush >= 2
    ensures Allowed(c, INIT, acts) && !LevelInOrder(c, acts, level)
  {
    var e, f := Entry(0, level, ""), Entry(1, level, "");
    acts := Overtaking(c, e, f);
    TwoLines(e, f);
    TwoLines(f, e);
    Inverted(Value(0, ""), Value(1, ""));
  }

  lemma TwoLines(e: Entry, f: Entry)
    requires e.level == f.level
    ensures LevelLines([e, f], e.level) == [Value(e.ts, e.line), Value(f.ts, f.line)]
  {
    OfLevelAppend([], e, e.level);
    OfLevelAppend([e], f, e.level);
    assert [] + [e] == [e] && [e] + [f] == [e, f];
  }

  lemma Inverted<T>(x: T, y: T)
    requires x != y
    ensures !Subseq([y, x], [x, y])
  {
    assert [x, y][1..] == [y] && [y, x][1..] == [x] && [y][1..] == [];
    assert !Subseq([x], [y]) && !Subseq([y, x], [y]);
  }

  // Whatever the level, the lines that arrive are in the order in which they were accepted in every run,
  // if and only if there is a single token.
  lemma LevelOrderIff(c: Limits, level: string)
    requires c.Valid()
    ensures (forall acts :: Allowed(c, INIT, acts) ==> LevelInOrder(c, acts, level)) <==> c.maxPush == 1
    ensures c == CODE_LIMITS ==> exists acts :: Allowed(c, INIT, acts) && !LevelInOrder(c, acts, level)
  {
    if c.maxPush == 1 {
      forall acts | Allowed(c, INIT, acts)
        ensures LevelInOrder(c, acts, level)
      {
        OneTokenKeepsLevels(c, acts, level);
      }
    } else {
      var acts := TwoTokensInvert(c, level);
    }
  }
}
