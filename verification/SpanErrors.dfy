// When errors of a stream reach its span, by the calls that fail, if calls of either kind can overlap
// without limit. SpanSendRecv has the stricter use that gRPC asks for.
module SpanErrors {
  import Options
  import opened ClientStream

  datatype Failure = Failure(kind: Kind, err: Err)

  predicate IsMarking(f: Failure) {
    Marks(f.kind, f.err)
  }

  // A run in which exactly the calls fs fail, and all of them have returned.
  ghost predicate Completed(fs: seq<Failure>, acts: seq<Action>) {
    && Allowed(OPENED, acts)
    && var calls := Run(OPENED, acts).calls;
       && |calls| == |fs|
       && forall i :: 0 <= i < |fs| ==> calls[i] == Call(fs[i].kind, fs[i].err, Returned)
  }

  // Some marking call has this error.
  ghost predicate HasSource(s: State, e: Err) {
    exists i :: 0 <= i < |s.calls| && Marks(s.calls[i].kind, s.calls[i].err) && s.calls[i].err == e
  }

  ghost predicate EventsFromCalls(s: State) {
    && (forall k :: 0 <= k < |s.span.events| ==> HasSource(s, s.span.events[k]))
    && (forall i :: 0 <= i < |s.calls| && s.calls[i].pc in {SettingAttr, Recording} ==>
          Marks(s.calls[i].kind, s.calls[i].err))
  }

  lemma SourceStays(s: State, a: Action, e: Err)
    requires Enabled(s, a) && HasSource(s, e)
    ensures HasSource(Apply(s, a), e)
  {
    var t := Apply(s, a);
    var i :| 0 <= i < |s.calls| && Marks(s.calls[i].kind, s.calls[i].err) && s.calls[i].err == e;
    assert t.calls[i].kind == s.calls[i].kind && t.calls[i].err == s.calls[i].err;
  }

  lemma EventsStep(s: State, a: Action)
    requires EventsFromCalls(s) && Enabled(s, a)
    ensures EventsFromCalls(Apply(s, a))
  {
    var t := Apply(s, a);
    forall k | 0 <= k < |t.span.events|
      ensures HasSource(t, t.span.events[k])
    {
      if k < |s.span.events| {
        SourceStays(s, a, s.span.events[k]);
      } else {
        assert HasSource(s, s.calls[a.i].err);
        SourceStays(s, a, s.calls[a.i].err);
      }
    }
  }

  lemma {:induction false} EventsRun(s: State, acts: seq<Action>)
    requires EventsFromCalls(s) && Allowed(s, acts)
    ensures EventsFromCalls(Run(s, acts))
    decreases acts
  {
    if acts != [] {
      EventsStep(s, acts[0]);
      EventsRun(Apply(s, acts[0]), acts[1..]);
    }
  }

  // A run in which call j ends the span before any other call touches it.

  predicate AtStart(call: Call) {
    call.pc == if Marks(call.kind, call.err) then SettingAttr else AtOnce
  }

  function Started(fs: seq<Failure>): seq<Call> {
    seq(|fs|, i requires 0 <= i < |fs| =>
      Call(fs[i].kind, fs[i].err, if IsMarking(fs[i]) then SettingAttr else AtOnce))
  }

  lemma {:induction false} FailAll(fs: seq<Failure>) returns (acts: seq<Action>)
    ensures Allowed(OPENED, acts) && Run(OPENED, acts) == OPENED.(calls := Started(fs))
  {
    if fs == [] {
      acts := [];
      assert Started(fs) == [];
    } else {
      var init, last := fs[..|fs| - 1], fs[|fs| - 1];
      var before := FailAll(init);
      var s := Run(OPENED, before);
      RunStep(s, Fail(last.kind, last.err), []);
      RunConcat(OPENED, before, [Fail(last.kind, last.err)] + []);
      assert Started(fs) == Started(init) + [Apply(s, Fail(last.kind, last.err)).calls[|init|]];
      acts := before + ([Fail(last.kind, last.err)] + []);
    }
  }

  // One call from its start to its return.
  lemma FinishCall(s: State, i: nat) returns (t: State, acts: seq<Action>)
    requires i < |s.calls| && AtStart(s.calls[i]) && !s.once.Busy?
    requires s.once.Complete? ==> s.span.ended
    ensures Allowed(s, acts) && Run(s, acts) == t && OnlySteps(acts)
    ensures t.once.Complete? && t.calls == s.calls[i := s.calls[i].(pc := Returned)]
    ensures s.once.Complete? ==> t.span == s.span
    ensures s.once.Idle? && s.span == STARTED ==>
              t.span == Decided(Request(s.calls[i].kind, Options.Some(s.calls[i].err)))
  {
    var u, mark := MarkOnly(s, i);
    var end := EndOnly(u, i);
    RunConcat(s, mark, end);
    acts := mark + end;
    t := Run(s, acts);
    assert [] + [s.calls[i].err] == [s.calls[i].err];
  }

  lemma {:induction false} FinishRest(s: State, k: nat) returns (t: State, acts: seq<Action>)
    requires k <= |s.calls| && s.once.Complete? && s.span.ended
    requires forall i :: 0 <= i < k ==> AtStart(s.calls[i]) || s.calls[i].pc.Returned?
    requires forall i :: k <= i < |s.calls| ==> s.calls[i].pc.Returned?
    ensures Allowed(s, acts) && Run(s, acts) == t && t.span == s.span && |t.calls| == |s.calls|
    ensures forall i :: 0 <= i < |s.calls| ==> t.calls[i] == s.calls[i].(pc := Returned)
    decreases k
  {
    if k == 0 {
      t, acts := s, [];
    } else if s.calls[k - 1].pc.Returned? {
      t, acts := FinishRest(s, k - 1);
    } else {
      var u, one := FinishCall(s, k - 1);
      var rest;
      t, rest := FinishRest(u, k - 1);
      RunConcat(s, one, rest);
      acts := one + rest;
    }
  }

  lemma CompleteOwnedBy(fs: seq<Failure>, j: nat) returns (acts: seq<Action>)
    requires j < |fs|
    ensures Completed(fs, acts)
    ensures Run(OPENED, acts).span == Decided(Request(fs[j].kind, Options.Some(fs[j].err)))
  {
    var a := FailAll(fs);
    var s := Run(OPENED, a);
    var t, b := FinishCall(s, j);
    var u, d := FinishRest(t, |fs|);
    RunConcat(s, b, d);
    RunConcat(OPENED, a, b + d);
    acts := a + (b + d);
  }

  // The status.

  lemma AllMarkingGivesError(fs: seq<Failure>, acts: seq<Action>)
    requires fs != [] && Completed(fs, acts) && forall i :: 0 <= i < |fs| ==> IsMarking(fs[i])
    ensures Run(OPENED, acts).span.status.Error?
  {
    SpanLifecycle(acts);
    var t := Run(OPENED, acts);
    assert t.calls[0].pc.Returned?;
    assert forall i :: 0 <= i < |t.calls| ==> IsMarking(fs[i]) && Marks(t.calls[i].kind, t.calls[i].err);
  }

  // Whatever the interleaving, the span of failing calls fs ends with an error status, if and only
  // if none of them is RecvMsg returning io.EOF.
  lemma StatusIsErrorIff(fs: seq<Failure>)
    requires fs != []
    ensures (forall acts :: Completed(fs, acts) ==> Run(OPENED, acts).span.status.Error?)
       <==> forall i :: 0 <= i < |fs| ==> !(fs[i].kind.Recv? && fs[i].err.EOF?)
  {
    if forall i :: 0 <= i < |fs| ==> IsMarking(fs[i]) {
      forall acts | Completed(fs, acts)
        ensures Run(OPENED, acts).span.status.Error?
      {
        AllMarkingGivesError(fs, acts);
      }
    } else {
      var j :| 0 <= j < |fs| && !IsMarking(fs[j]);
      var acts := CompleteOwnedBy(fs, j);
      assert Completed(fs, acts) && Run(OPENED, acts).span.status.Unset?;
    }
  }

  // One call's error.

  predicate SameError(fs: seq<Failure>, i: nat, j: nat)
    requires i < |fs| && j < |fs|
  {
    IsMarking(fs[j]) && fs[j].err == fs[i].err
  }

  lemma SameErrorIsRecorded(fs: seq<Failure>, i: nat, acts: seq<Action>)
    requires i < |fs| && IsMarking(fs[i]) && Completed(fs, acts)
    requires forall j :: 0 <= j < |fs| ==> SameError(fs, i, j)
    ensures fs[i].err in Run(OPENED, acts).span.events
  {
    assert forall j :: 0 <= j < |fs| ==> SameError(fs, i, j) && IsMarking(fs[j]);
    AllMarkingGivesError(fs, acts);
    SpanLifecycle(acts);
    EventsRun(OPENED, acts);
    var t := Run(OPENED, acts);
    assert HasSource(t, t.span.events[0]);
    var k :| 0 <= k < |t.calls| && Marks(t.calls[k].kind, t.calls[k].err) && t.calls[k].err == t.span.events[0];
    assert SameError(fs, i, k);
  }

  // The error of a marking call is among the events in every completed run, if and only if every
  // other failing call marks the span with that same error.
  lemma ErrorIsRecordedIff(fs: seq<Failure>, i: nat)
    requires i < |fs| && IsMarking(fs[i])
    ensures (forall acts :: Completed(fs, acts) ==> fs[i].err in Run(OPENED, acts).span.events)
       <==> forall j :: 0 <= j < |fs| ==> SameError(fs, i, j)
  {
    if forall j :: 0 <= j < |fs| ==> SameError(fs, i, j) {
      forall acts | Completed(fs, acts)
        ensures fs[i].err in Run(OPENED, acts).span.events
      {
        SameErrorIsRecorded(fs, i, acts);
      }
    } else {
      var j :| 0 <= j < |fs| && !SameError(fs, i, j);
      var acts := CompleteOwnedBy(fs, j);
      assert Completed(fs, acts) && fs[i].err !in Run(OPENED, acts).span.events;
    }
  }

  // So an error that no other call shares is certain to be recorded if and only if no other call fails.
  lemma OwnErrorIsRecordedIff(fs: seq<Failure>, i: nat)
    requires i < |fs| && IsMarking(fs[i])
    requires forall j :: 0 <= j < |fs| && j != i ==> fs[j].err != fs[i].err
    ensures (forall acts :: Completed(fs, acts) ==> fs[i].err in Run(OPENED, acts).span.events)
       <==> |fs| == 1
  {
    ErrorIsRecordedIff(fs, i);
    if |fs| == 1 {
      assert forall j :: 0 <= j < |fs| ==> SameError(fs, i, j);
    } else {
      var j := if i == 0 then 1 else 0;
      assert !SameError(fs, i, j);
    }
  }
}
