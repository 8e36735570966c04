// A stream used as gRPC allows it: one goroutine sends and one receives. Then only the first failing
// SendMsg and the first failing RecvMsg can reach the span.
module SpanSendRecv {
  import opened Options
  import opened ClientStream
  import opened SpanErrors

  // A call starts only when no call of its kind is under way.
  predicate StartsAlone(s: State, a: Action) {
    a.Fail? ==> forall i :: 0 <= i < |s.calls| && s.calls[i].kind == a.kind ==> s.calls[i].pc.Returned?
  }

  predicate OneOfEach(s: State, acts: seq<Action>)
    requires Allowed(s, acts)
    decreases acts
  {
    acts == [] || (StartsAlone(s, acts[0]) && OneOfEach(Apply(s, acts[0]), acts[1..]))
  }

  // The errors of one kind of call, in the order in which the calls start.
  function ErrsOf(fs: seq<Failure>, kind: Kind): seq<Err> {
    if fs == [] then []
    else ErrsOf(fs[..|fs| - 1], kind) + if fs[|fs| - 1].kind == kind then [fs[|fs| - 1].err] else []
  }

  // A completed run in which the sender meets the errors `sends` and the receiver meets `recvs`;
  // fs merges the two.
  ghost predicate UsedByTwo(sends: seq<Err>, recvs: seq<Err>, fs: seq<Failure>, acts: seq<Action>) {
    Completed(fs, acts) && OneOfEach(OPENED, acts) && ErrsOf(fs, Send) == sends && ErrsOf(fs, Recv) == recvs
  }

  // What every step keeps.

  // Call i is the first of its kind.
  predicate IsFirst(s: State, i: nat) {
    i < |s.calls| && forall j :: 0 <= j < i ==> s.calls[j].kind != s.calls[i].kind
  }

  ghost predicate FromFirst(s: State, e: Err) {
    exists i: nat :: IsFirst(s, i) && Marks(s.calls[i].kind, s.calls[i].err) && s.calls[i].err == e
  }

  // Until the span has ended no kind occurs twice, so its owner and its events come from first calls.
  ghost predicate FirstsOnly(s: State) {
    && (!s.once.Complete? ==> forall i :: 0 <= i < |s.calls| ==> IsFirst(s, i))
    && (s.once.Complete? ==> IsFirst(s, s.once.owner))
    && forall k :: 0 <= k < |s.span.events| ==> FromFirst(s, s.span.events[k])
  }

  lemma FirstStays(s: State, a: Action, i: nat)
    requires Enabled(s, a) && IsFirst(s, i)
    ensures IsFirst(Apply(s, a), i)
    ensures Apply(s, a).calls[i].kind == s.calls[i].kind && Apply(s, a).calls[i].err == s.calls[i].err
  {
  }

  lemma EventStays(s: State, a: Action, e: Err)
    requires Enabled(s, a) && FromFirst(s, e)
    ensures FromFirst(Apply(s, a), e)
  {
    var i: nat :| IsFirst(s, i) && Marks(s.calls[i].kind, s.calls[i].err) && s.calls[i].err == e;
    FirstStays(s, a, i);
  }

  lemma NewEvent(s: State, a: Action)
    requires Inv(s) && FirstsOnly(s) && Enabled(s, a)
    ensures var was, now := s.span.events, Apply(s, a).span.events;
      now == was || (a.Step? && now == was + [s.calls[a.i].err] && FromFirst(s, s.calls[a.i].err))
  {
    if a.Step? {
      assert CallOk(s, s.calls[a.i]);
      assert !s.once.Complete? ==> IsFirst(s, a.i);
    }
  }

  lemma NewFirsts(s: State, a: Action, i: nat)
    requires Inv(s) && FirstsOnly(s) && Enabled(s, a) && StartsAlone(s, a)
    requires !Apply(s, a).once.Complete? && i < |Apply(s, a).calls|
    ensures IsFirst(Apply(s, a), i)
  {
    assert !s.once.Complete?;
    if i < |s.calls| {
      FirstStays(s, a, i);
    }
  }

  lemma FirstsStep(s: State, a: Action)
    requires Inv(s) && FirstsOnly(s) && Enabled(s, a) && StartsAlone(s, a)
    ensures FirstsOnly(Apply(s, a))
  {
    var t := Apply(s, a);
    forall k | 0 <= k < |t.span.events|
      ensures FromFirst(t, t.span.events[k])
    {
      NewEvent(s, a);
      EventStays(s, a, t.span.events[k]);
    }
    if t.once.Complete? {
      FirstStays(s, a, t.once.owner);
    } else {
      forall i | 0 <= i < |t.calls|
        ensures IsFirst(t, i)
      {
        NewFirsts(s, a, i);
      }
    }
  }

  lemma {:induction false} FirstsRun(s: State, acts: seq<Action>)
    requires Inv(s) && FirstsOnly(s) && Allowed(s, acts) && OneOfEach(s, acts)
    ensures FirstsOnly(Run(s, acts))
    decreases acts
  {
    if acts != [] {
      FirstsStep(s, acts[0]);
      InvStep(s, acts[0]);
      FirstsRun(Apply(s, acts[0]), acts[1..]);
    }
  }

  // The first error of a kind, seen from the merged list.

  lemma {:induction false} NoneOf(fs: seq<Failure>, kind: Kind)
    ensures ErrsOf(fs, kind) == [] <==> forall j :: 0 <= j < |fs| ==> fs[j].kind != kind
  {
    if fs != [] {
      NoneOf(fs[..|fs| - 1], kind);
      assert forall j :: 0 <= j < |fs| - 1 ==> fs[..|fs| - 1][j] == fs[j];
    }
  }

  lemma {:induction false} FirstIsHead(fs: seq<Failure>, i: nat)
    requires i < |fs| && forall j :: 0 <= j < i ==> fs[j].kind != fs[i].kind
    ensures ErrsOf(fs, fs[i].kind) != [] && ErrsOf(fs, fs[i].kind)[0] == fs[i].err
  {
    var init := fs[..|fs| - 1];
    if i < |init| {
      assert init[i] == fs[i];
      FirstIsHead(init, i);
    } else {
      NoneOf(init, fs[i].kind);
    }
  }

  lemma HeadOfKind(sends: seq<Err>, recvs: seq<Err>, fs: seq<Failure>, acts: seq<Action>, i: nat)
    requires UsedByTwo(sends, recvs, fs, acts) && IsFirst(Run(OPENED, acts), i)
    ensures var call := Run(OPENED, acts).calls[i];
      if call.kind.Send? then sends != [] && sends[0] == call.err else recvs != [] && recvs[0] == call.err
  {
    FirstIsHead(fs, i);
  }

  lemma FirstsInRun(fs: seq<Failure>, acts: seq<Action>)
    requires fs != [] && Completed(fs, acts) && OneOfEach(OPENED, acts)
    ensures var t := Run(OPENED, acts);
      && FirstsOnly(t) && Inv(t) && t.once.Complete? && t.span.ended
  {
    FirstsRun(OPENED, acts);
    InvRun(OPENED, acts);
    assert Run(OPENED, acts).calls[0].pc.Returned?;
  }

  // If the receiver's first error is not io.EOF, the call that ends the span has marked it.
  lemma ErrorFromFirst(sends: seq<Err>, recvs: seq<Err>, fs: seq<Failure>, acts: seq<Action>)
    requires UsedByTwo(sends, recvs, fs, acts) && fs != []
    requires recvs != [] ==> recvs[0] != EOF
    ensures Run(OPENED, acts).span.status.Error? && Run(OPENED, acts).span.events != []
    ensures FirstsOnly(Run(OPENED, acts))
  {
    FirstsInRun(fs, acts);
    var t := Run(OPENED, acts);
    HeadOfKind(sends, recvs, fs, acts, t.once.owner);
  }

  // One call after the other, in the given order.

  lemma {:induction false} StepsAreAlone(s: State, acts: seq<Action>)
    requires Allowed(s, acts) && OnlySteps(acts)
    ensures OneOfEach(s, acts)
    decreases acts
  {
    if acts != [] {
      StepsAreAlone(Apply(s, acts[0]), acts[1..]);
    }
  }

  lemma {:induction false} OneOfEachConcat(s: State, a: seq<Action>, b: seq<Action>)
    requires Allowed(s, a) && OneOfEach(s, a) && Allowed(Run(s, a), b) && OneOfEach(Run(s, a), b)
    ensures Allowed(s, a + b) && OneOfEach(s, a + b)
    decreases a
  {
    RunConcat(s, a, b);
    if a == [] {
      assert a + b == b;
    } else {
      assert (a + b)[1..] == a[1..] + b;
      OneOfEachConcat(Apply(s, a[0]), a[1..], b);
    }
  }

  ghost predicate AllReturned(s: State, fs: seq<Failure>) {
    && |s.calls| == |fs|
    && forall i :: 0 <= i < |fs| ==> s.calls[i] == Call(fs[i].kind, fs[i].err, Returned)
  }

  lemma {:induction false} InTurn(fs: seq<Failure>) returns (acts: seq<Action>)
    ensures Allowed(OPENED, acts) && OneOfEach(OPENED, acts) && AllReturned(Run(OPENED, acts), fs)
    ensures var t := Run(OPENED, acts);
      if fs == [] then t == OPENED
      else t.once.Complete? && t.span == Decided(Request(fs[0].kind, Some(fs[0].err)))
  {
    if fs == [] {
      acts := [];
    } else {
      var init, last := fs[..|fs| - 1], fs[|fs| - 1];
      var a := InTurn(init);
      var s := Run(OPENED, a);
      InvRun(OPENED, a);
      var b := OneCallAtATime(s, last.kind, last.err);
      StepsAreAlone(Apply(s, b[0]), b[1..]);
      RunConcat(OPENED, a, b);
      OneOfEachConcat(OPENED, a, b);
      assert [] + [last.err] == [last.err];
      acts := a + b;
    }
  }

  function Failures(kind: Kind, errs: seq<Err>): seq<Failure> {
    seq(|errs|, i requires 0 <= i < |errs| => Failure(kind, errs[i]))
  }

  lemma {:induction false} ErrsOfConcat(a: seq<Failure>, b: seq<Failure>, kind: Kind)
    ensures ErrsOf(a + b, kind) == ErrsOf(a, kind) + ErrsOf(b, kind)
  {
    if b == [] {
      assert a + b == a;
    } else {
      assert (a + b)[..|a + b| - 1] == a + b[..|b| - 1];
      ErrsOfConcat(a, b[..|b| - 1], kind);
    }
  }

  lemma {:induction false} ErrsOfFailures(kind: Kind, errs: seq<Err>, other: Kind)
    ensures ErrsOf(Failures(kind, errs), other) == if other == kind then errs else []
  {
    if errs != [] {
      var init := errs[..|errs| - 1];
      assert Failures(kind, errs)[..|init|] == Failures(kind, init);
      ErrsOfFailures(kind, init, other);
    }
  }

  // A run that one direction finishes before the other begins, so that its first error decides the span.
  lemma OneDirectionFirst(sends: seq<Err>, recvs: seq<Err>, kind: Kind) returns (fs: seq<Failure>, acts: seq<Action>)
    requires if kind.Send? then sends != [] else recvs != []
    ensures UsedByTwo(sends, recvs, fs, acts)
    ensures Run(OPENED, acts).span == Decided(Request(kind, Some(if kind.Send? then sends[0] else recvs[0])))
  {
    var a, b := Failures(Send, sends), Failures(Recv, recvs);
    fs := if kind.Send? then a + b else b + a;
    forall k
      ensures ErrsOf(fs, k) == if k.Send? then sends else recvs
    {
      ErrsOfFailures(Send, sends, k);
      ErrsOfFailures(Recv, recvs, k);
      ErrsOfConcat(a, b, k);
      ErrsOfConcat(b, a, k);
    }
    acts := InTurn(fs);
  }

  // A send and a receive can be under way together. Whichever of them starts first, the other can be
  // the one that decides the span.
  lemma SecondDecides(f: Failure, g: Failure) returns (acts: seq<Action>)
    requires f.kind != g.kind
    ensures Completed([f, g], acts) && OneOfEach(OPENED, acts)
    ensures Run(OPENED, acts).span == Decided(Request(g.kind, Some(g.err)))
  {
    var s := Apply(Apply(OPENED, Fail(f.kind, f.err)), Fail(g.kind, g.err));
    var t, b := FinishCall(s, 1);
    var u, d := FinishCall(t, 0);
    RunConcat(s, b, d);
    StepsAreAlone(s, b + d);
    acts := [Fail(f.kind, f.err)] + ([Fail(g.kind, g.err)] + (b + d));
    TwoStarts(f, g, b + d);
  }

  lemma TwoStarts(f: Failure, g: Failure, rest: seq<Action>)
    requires f.kind != g.kind
    requires var s := Apply(Apply(OPENED, Fail(f.kind, f.err)), Fail(g.kind, g.err));
      Allowed(s, rest) && OneOfEach(s, rest)
    ensures var acts := [Fail(f.kind, f.err)] + ([Fail(g.kind, g.err)] + rest);
      && Allowed(OPENED, acts) && OneOfEach(OPENED, acts)
      && Run(OPENED, acts) == Run(Apply(Apply(OPENED, Fail(f.kind, f.err)), Fail(g.kind, g.err)), rest)
  {
    var s := Apply(OPENED, Fail(f.kind, f.err));
    var two := [Fail(g.kind, g.err)] + rest;
    RunStep(s, Fail(g.kind, g.err), rest);
    RunStep(OPENED, Fail(f.kind, f.err), two);
    assert two[1..] == rest && ([Fail(f.kind, f.err)] + two)[1..] == two;
  }

  // The status.

  // Whatever the interleaving of the two goroutines, the span ends with an error status, if and only
  // if the receiver's first error is not io.EOF.
  lemma FirstReceiveDecidesStatus(sends: seq<Err>, recvs: seq<Err>)
    requires sends != [] || recvs != []
    ensures (forall fs, acts :: UsedByTwo(sends, recvs, fs, acts) ==> Run(OPENED, acts).span.status.Error?)
       <==> (recvs == [] || recvs[0] != EOF)
  {
    if recvs == [] || recvs[0] != EOF {
      forall fs, acts | UsedByTwo(sends, recvs, fs, acts)
        ensures Run(OPENED, acts).span.status.Error?
      {
        ErrorFromFirst(sends, recvs, fs, acts);
      }
    } else {
      var fs, acts := OneDirectionFirst(sends, recvs, Recv);
      assert UsedByTwo(sends, recvs, fs, acts) && Run(OPENED, acts).span.status.Unset?;
    }
  }

  // The events.

  // Nothing but the first error of each direction is ever recorded, and never the receiver's io.EOF.
  lemma OnlyFirstsAreRecorded(sends: seq<Err>, recvs: seq<Err>, fs: seq<Failure>, acts: seq<Action>, e: Err)
    requires UsedByTwo(sends, recvs, fs, acts) && e in Run(OPENED, acts).span.events
    ensures (sends != [] && e == sends[0]) || (recvs != [] && e == recvs[0] && e != EOF)
  {
    var t := Run(OPENED, acts);
    FirstsRun(OPENED, acts);
    var k :| 0 <= k < |t.span.events| && t.span.events[k] == e;
    assert FromFirst(t, e);
    var i: nat :| IsFirst(t, i) && Marks(t.calls[i].kind, t.calls[i].err) && t.calls[i].err == e;
    HeadOfKind(sends, recvs, fs, acts, i);
  }

  // e marks the span as the first error of each direction that has one.
  predicate BothFirstsAre(sends: seq<Err>, recvs: seq<Err>, e: Err) {
    (sends != [] ==> sends[0] == e) && (recvs != [] ==> recvs[0] == e && e != EOF)
  }

  lemma CommonFirstIsRecorded(sends: seq<Err>, recvs: seq<Err>, e: Err, fs: seq<Failure>, acts: seq<Action>)
    requires UsedByTwo(sends, recvs, fs, acts) && fs != [] && BothFirstsAre(sends, recvs, e)
    ensures e in Run(OPENED, acts).span.events
  {
    ErrorFromFirst(sends, recvs, fs, acts);
    OnlyFirstsAreRecorded(sends, recvs, fs, acts, Run(OPENED, acts).span.events[0]);
  }

  // An error is recorded in every such run, if and only if it is the first error of each direction that
  // fails, and not the receiver's io.EOF: of two different first errors either can be missing, and
  // later ones are never sure to be there.
  lemma FirstErrorIsRecordedIff(sends: seq<Err>, recvs: seq<Err>, e: Err)
    requires sends != [] || recvs != []
    ensures (forall fs, acts :: UsedByTwo(sends, recvs, fs, acts) ==> e in Run(OPENED, acts).span.events)
       <==> BothFirstsAre(sends, recvs, e)
  {
    if BothFirstsAre(sends, recvs, e) {
      forall fs, acts | UsedByTwo(sends, recvs, fs, acts)
        ensures e in Run(OPENED, acts).span.events
      {
        CommonFirstIsRecorded(sends, recvs, e, fs, acts);
      }
    } else {
      var kind := if sends != [] && sends[0] != e then Send else Recv;
      var fs, acts := OneDirectionFirst(sends, recvs, kind);
      assert UsedByTwo(sends, recvs, fs, acts) && e !in Run(OPENED, acts).span.events;
    }
  }
}
