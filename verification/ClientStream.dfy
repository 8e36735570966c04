/**
  The client span of a gRPC stream: `otelSpan.SetError`, the wrapped stream whose SendMsg and
  RecvMsg mark and end the span on their first error, and the interceptor that opens both.
*/
module ClientStream {
  import opened Options

  // io.EOF, or any other error.
  datatype Err = EOF | Other(msg: string)

  datatype Status = Unset | Error(cause: Err)

  // The inner OpenTelemetry span. Operations after End are ignored, as the Trace API
  // specification requires (section "End").
  datatype Span = Span(errorAttr: bool, events: seq<Err>, status: Status, ended: bool) {
    function SetErrorAttr(): Span {
      if ended then this else this.(errorAttr := true)
    }
    function RecordError(e: Err): Span {
      if ended then this else this.(events := events + [e])
    }
    function SetStatus(e: Err): Span {
      if ended then this else this.(status := Error(e))
    }
    function End(): Span {
      this.(ended := true)
    }
  }

  const STARTED := Span(false, [], Unset, false)

  datatype Kind = Send | Recv

  // Only the end of the stream seen by RecvMsg is no error.
  predicate Marks(kind: Kind, e: Err) {
    !(kind.Recv? && e.EOF?)
  }

  // The objects, used by one goroutine at a time.

  class OtelSpan {
    var inner: Span

    constructor ()
      ensures inner == STARTED
    {
      inner := STARTED;
    }

    method SetError(err: Option<Err>)
      modifies this
      ensures inner == if err.None? || old(inner.ended) then old(inner)
                       else Span(true, old(inner.events) + [err.value], Error(err.value), false)
    {
      if err.None? {
        return;
      }
      inner := inner.SetErrorAttr();
      inner := inner.RecordError(err.value);
      inner := inner.SetStatus(err.value);
    }

    method End()
      modifies this
      ensures inner == old(inner).(ended := true)
    {
      inner := inner.End();
    }
  }

  // The span and the once flag after one call with the given result.
  function AfterCall(span: Span, ended: bool, kind: Kind, result: Option<Err>): (r: (Span, bool)) {
    match result
    case None => (span, ended)
    case Some(e) =>
      var marked := if Marks(kind, e) && !span.ended then Span(true, span.events + [e], Error(e), false) else span;
      (if ended then marked else marked.(ended := true), true)
  }

  class WrappedClientStream {
    const span: OtelSpan
    var ended: bool  // endOnce has run

    constructor (span: OtelSpan)
      ensures this.span == span && !ended
    {
      this.span := span;
      ended := false;
    }

    method EndSpan()
      modifies this, span
      ensures ended && span.inner == if old(ended) then old(span.inner) else old(span.inner).(ended := true)
    {
      if !ended {
        span.End();
        ended := true;
      }
    }

    // `result` is what the embedded stream's SendMsg returns.
    method SendMsg(result: Option<Err>) returns (err: Option<Err>)
      modifies this, span
      ensures err == result
      ensures (span.inner, ended) == AfterCall(old(span.inner), old(ended), Send, result)
    {
      err := result;
      if err.Some? {
        span.SetError(err);
        EndSpan();
      }
    }

    method RecvMsg(result: Option<Err>) returns (err: Option<Err>)
      modifies this, span
      ensures err == result
      ensures (span.inner, ended) == AfterCall(old(span.inner), old(ended), Recv, result)
    {
      err := result;
      if err.Some? {
        if err.value != EOF {
          span.SetError(err);
        }
        EndSpan();
      }
    }
  }

  // StreamClientInterceptor: without a stream the span is marked and ended at once; otherwise it
  // is left open for the wrapper.
  method OpenStream(streamerErr: Option<Err>) returns (stream: Option<WrappedClientStream>, span: OtelSpan)
    ensures fresh(span)
    ensures streamerErr.Some? ==> stream.None? && span.inner == Span(true, [streamerErr.value], Error(streamerErr.value), true)
    ensures streamerErr.None? ==>
              stream.Some? && stream.value.span == span && !stream.value.ended && span.inner == STARTED
  {
    span := new OtelSpan();
    if streamerErr.Some? {
      span.SetError(streamerErr);
      span.End();
      stream := None;
    } else {
      var wrapped := new WrappedClientStream(span);
      stream := Some(wrapped);
    }
  }

  // Sequential use.

  datatype Request = Request(kind: Kind, result: Option<Err>)

  function AfterCalls(calls: seq<Request>): (Span, bool) {
    if calls == [] then (STARTED, false)
    else
      var before := AfterCalls(calls[..|calls| - 1]);
      var last := calls[|calls| - 1];
      AfterCall(before.0, before.1, last.kind, last.result)
  }

  ghost predicate FirstFailure(calls: seq<Request>, f: nat)
    requires f < |calls|
  {
    calls[f].result.Some? && forall i :: 0 <= i < f ==> calls[i].result.None?
  }

  // The final span when this failing request comes first.
  function Decided(request: Request): Span
    requires request.result.Some?
  {
    var e := request.result.value;
    if Marks(request.kind, e) then Span(true, [e], Error(e), true) else Span(false, [], Unset, true)
  }

  // A stream used by one goroutine: the first failing call decides the span for good. Its error is
  // the one event and the status, unless it was RecvMsg returning io.EOF, which leaves both unset.
  lemma {:induction false} FirstFailureDecides(calls: seq<Request>, f: nat)
    requires f < |calls| && FirstFailure(calls, f)
    ensures AfterCalls(calls) == (Decided(calls[f]), true)
  {
    var init := calls[..|calls| - 1];
    if f < |init| {
      assert init[f] == calls[f];
      FirstFailureDecides(init, f);
    } else {
      NoFailure(init);
      assert STARTED.events + [calls[f].result.value] == [calls[f].result.value];
    }
  }

  // The same on the objects: one goroutine makes the calls on a fresh stream.
  method UseStream(stream: WrappedClientStream, calls: seq<Request>)
    requires stream.span.inner == STARTED && !stream.ended
    modifies stream, stream.span
    ensures (stream.span.inner, stream.ended) == AfterCalls(calls)
    ensures forall f :: 0 <= f < |calls| && FirstFailure(calls, f) ==>
              var e := calls[f].result.value;
              && stream.ended
              && stream.span.inner == if calls[f].kind.Recv? && e.EOF? then Span(false, [], Unset, true)
                                      else Span(true, [e], Error(e), true)
    ensures (forall i :: 0 <= i < |calls| ==> calls[i].result.None?) ==>
              !stream.ended && stream.span.inner == Span(false, [], Unset, false)
  {
    var i := 0;
    while i < |calls|
      invariant 0 <= i <= |calls| && (stream.span.inner, stream.ended) == AfterCalls(calls[..i])
    {
      assert calls[..i + 1][..i] == calls[..i];
      if calls[i].kind.Send? {
        var _ := stream.SendMsg(calls[i].result);
      } else {
        var _ := stream.RecvMsg(calls[i].result);
      }
      i := i + 1;
    }
    assert calls[..i] == calls;
    forall f | 0 <= f < |calls| && FirstFailure(calls, f)
      ensures AfterCalls(calls) == (Decided(calls[f]), true)
    {
      FirstFailureDecides(calls, f);
    }
    if forall i :: 0 <= i < |calls| ==> calls[i].result.None? {
      NoFailure(calls);
    }
  }

  // Until a call fails the span is untouched.
  lemma {:induction false} NoFailure(calls: seq<Request>)
    requires forall i :: 0 <= i < |calls| ==> calls[i].result.None?
    ensures AfterCalls(calls) == (STARTED, false)
  {
    if calls != [] {
      NoFailure(calls[..|calls| - 1]);
    }
  }

  // Concurrent use: any number of failing calls, interleaved at every operation on the span. Calls
  // that succeed touch nothing and are left out.

  datatype Pc = SettingAttr | Recording | SettingStatus | AtOnce | InEnd | EndDone | Returned

  datatype Call = Call(kind: Kind, err: Err, pc: Pc)

  // sync.Once: the first caller runs the function while later ones wait for it to finish.
  datatype Once = Idle | Busy(owner: nat) | Complete(owner: nat)

  datatype State = State(span: Span, once: Once, calls: seq<Call>, endCalls: nat)

  const OPENED := State(STARTED, Idle, [], 0)

  datatype Action =
    | Fail(kind: Kind, err: Err)  // the embedded stream returns an error to a new call
    | Step(i: nat)                // call i executes its next operation

  predicate Enabled(s: State, a: Action) {
    match a
    case Fail(_, _) => true
    case Step(i) =>
      && i < |s.calls| && !s.calls[i].pc.Returned?
      && (s.calls[i].pc.AtOnce? ==> !s.once.Busy?)
  }

  function Goto(s: State, i: nat, pc: Pc): State
    requires i < |s.calls|
  {
    s.(calls := s.calls[i := s.calls[i].(pc := pc)])
  }

  function Apply(s: State, a: Action): State
    requires Enabled(s, a)
  {
    match a
    case Fail(kind, err) =>
      s.(calls := s.calls + [Call(kind, err, if Marks(kind, err) then SettingAttr else AtOnce)])
    case Step(i) =>
      var e := s.calls[i].err;
      match s.calls[i].pc
      case SettingAttr => Goto(s, i, Recording).(span := s.span.SetErrorAttr())
      case Recording => Goto(s, i, SettingStatus).(span := s.span.RecordError(e))
      case SettingStatus => Goto(s, i, AtOnce).(span := s.span.SetStatus(e))
      case AtOnce => if s.once.Idle? then Goto(s, i, InEnd).(once := Busy(i)) else Goto(s, i, Returned)
      case InEnd => Goto(s, i, EndDone).(span := s.span.End(), endCalls := s.endCalls + 1)
      case EndDone => Goto(s, i, Returned).(once := Complete(i))
      case Returned => s
  }

  predicate Allowed(s: State, acts: seq<Action>)
    decreases acts
  {
    acts == [] || (Enabled(s, acts[0]) && Allowed(Apply(s, acts[0]), acts[1..]))
  }

  function Run(s: State, acts: seq<Action>): State
    requires Allowed(s, acts)
    decreases acts
  {
    if acts == [] then s else Run(Apply(s, acts[0]), acts[1..])
  }

  // What a call has done to a span that is still open.
  ghost predicate CallOk(s: State, call: Call) {
    && (call.pc in {SettingAttr, Recording, SettingStatus} ==> Marks(call.kind, call.err))
    && (!s.span.ended ==>
          && (call.pc.Recording? ==> s.span.errorAttr)
          && (call.pc.SettingStatus? ==> s.span.events != [])
          && (call.pc in {AtOnce, InEnd} && Marks(call.kind, call.err) ==> s.span.status.Error?))
  }

  ghost predicate Marking(span: Span) {
    && (span.status.Error? ==> span.events != [])
    && (span.events != [] ==> span.errorAttr)
  }

  ghost predicate OnceOk(s: State) {
    match s.once
    case Idle =>
      && s.endCalls == 0 && !s.span.ended
      && forall i :: 0 <= i < |s.calls| ==> s.calls[i].pc !in {InEnd, EndDone, Returned}
    case Busy(j) =>
      && j < |s.calls| && s.calls[j].pc in {InEnd, EndDone}
      && s.endCalls == (if s.calls[j].pc.EndDone? then 1 else 0) && (s.span.ended <==> s.calls[j].pc.EndDone?)
      && forall i :: 0 <= i < |s.calls| && i != j ==> s.calls[i].pc !in {InEnd, EndDone, Returned}
    case Complete(j) =>
      && j < |s.calls| && s.endCalls == 1 && s.span.ended
      && forall i :: 0 <= i < |s.calls| ==> s.calls[i].pc !in {InEnd, EndDone}
  }

  // The call that ends the span has marked it before, if it marks at all.
  ghost predicate OwnerOk(s: State) {
    s.span.ended && !s.once.Idle? && s.once.owner < |s.calls| ==>
      Marks(s.calls[s.once.owner].kind, s.calls[s.once.owner].err) ==> s.span.status.Error?
  }

  ghost predicate Inv(s: State) {
    && Marking(s.span) && OnceOk(s) && OwnerOk(s)
    && forall i :: 0 <= i < |s.calls| ==> CallOk(s, s.calls[i])
  }

  lemma OnceStep(s: State, a: Action)
    requires OnceOk(s) && Enabled(s, a)
    ensures OnceOk(Apply(s, a))
  {
  }

  lemma MarkingStep(s: State, a: Action)
    requires Inv(s) && Enabled(s, a)
    ensures Marking(Apply(s, a).span) && OwnerOk(Apply(s, a))
  {
    if a.Step? {
      assert CallOk(s, s.calls[a.i]);
    }
  }

  lemma CallStep(s: State, a: Action, i: nat)
    requires Inv(s) && Enabled(s, a) && i < |Apply(s, a).calls|
    ensures CallOk(Apply(s, a), Apply(s, a).calls[i])
  {
    if i < |s.calls| {
      assert CallOk(s, s.calls[i]);
    }
    if a.Step? {
      assert CallOk(s, s.calls[a.i]);
    }
  }

  lemma InvStep(s: State, a: Action)
    requires Inv(s) && Enabled(s, a)
    ensures Inv(Apply(s, a))
  {
    OnceStep(s, a);
    MarkingStep(s, a);
    forall i | 0 <= i < |Apply(s, a).calls|
      ensures CallOk(Apply(s, a), Apply(s, a).calls[i])
    {
      CallStep(s, a, i);
    }
  }

  lemma {:induction false} InvRun(s: State, acts: seq<Action>)
    requires Inv(s) && Allowed(s, acts)
    ensures Inv(Run(s, acts))
    decreases acts
  {
    if acts != [] {
      InvStep(s, acts[0]);
      InvRun(Apply(s, acts[0]), acts[1..]);
    }
  }

  // In every interleaving End is called at most once; a call that returns an error returns only
  // after End has completed; an error status implies an error event, which implies error=true; and
  // the status is an error if the call that ended the span saw one.
  lemma SpanLifecycle(acts: seq<Action>)
    requires Allowed(OPENED, acts)
    ensures var t := Run(OPENED, acts);
      && t.endCalls <= 1
      && (forall i :: 0 <= i < |t.calls| && t.calls[i].pc.Returned? ==> t.once.Complete? && t.span.ended && t.endCalls == 1)
      && (t.span.status.Error? ==> t.span.events != []) && (t.span.events != [] ==> t.span.errorAttr)
      && (t.once.Complete? && t.span.status.Unset? ==>
            t.once.owner < |t.calls| && t.calls[t.once.owner].kind.Recv? && t.calls[t.once.owner].err.EOF?)
  {
    InvRun(OPENED, acts);
  }

  // Action n of a run is a SetStatus that reaches the span before it has ended.
  ghost predicate MarksAt(s: State, acts: seq<Action>, n: nat) {
    && n < |acts| && acts[n].Step? && Allowed(s, acts[..n])
    && var t := Run(s, acts[..n]);
       acts[n].i < |t.calls| && t.calls[acts[n].i].pc.SettingStatus? && !t.span.ended
  }

  lemma MarksLater(s: State, acts: seq<Action>, n: nat)
    requires Allowed(s, acts) && acts != []
    ensures MarksAt(s, acts, n + 1) <==> MarksAt(Apply(s, acts[0]), acts[1..], n)
  {
    if n + 1 < |acts| {
      assert acts[..n + 1][0] == acts[0] && acts[..n + 1][1..] == acts[1..][..n];
    }
  }

  lemma {:induction false} StatusComesFromMark(s: State, acts: seq<Action>) returns (n: nat)
    requires Allowed(s, acts) && s.span.status.Unset? && Run(s, acts).span.status.Error?
    ensures MarksAt(s, acts, n)
    decreases acts
  {
    var t := Apply(s, acts[0]);
    if t.span.status.Error? {
      n := 0;
      assert acts[..0] == [];
    } else {
      var m := StatusComesFromMark(t, acts[1..]);
      n := m + 1;
      MarksLater(s, acts, m);
    }
  }

  lemma {:induction false} StatusStays(s: State, acts: seq<Action>)
    requires Allowed(s, acts) && s.span.status.Error?
    ensures Run(s, acts).span.status.Error?
    decreases acts
  {
    if acts != [] {
      StatusStays(Apply(s, acts[0]), acts[1..]);
    }
  }

  lemma {:induction false} MarkSetsStatus(s: State, acts: seq<Action>, n: nat)
    requires Allowed(s, acts) && MarksAt(s, acts, n)
    ensures Run(s, acts).span.status.Error?
    decreases acts
  {
    var t := Apply(s, acts[0]);
    if n == 0 {
      assert acts[..0] == [];
      StatusStays(t, acts[1..]);
    } else {
      MarksLater(s, acts, n - 1);
      MarkSetsStatus(t, acts[1..], n - 1);
    }
  }

  // In every interleaving the status is an error if and only if some call's SetStatus came before End.
  lemma StatusIffMarkedBeforeEnd(acts: seq<Action>)
    requires Allowed(OPENED, acts)
    ensures Run(OPENED, acts).span.status.Error? <==> exists n :: MarksAt(OPENED, acts, n)
  {
    if Run(OPENED, acts).span.status.Error? {
      var n := StatusComesFromMark(OPENED, acts);
    }
    if n :| MarksAt(OPENED, acts, n) {
      MarkSetsStatus(OPENED, acts, n);
    }
  }

  // No call waits forever: while one has not returned, some call can move. New ones can fail at any time.
  lemma SomeCallMoves(acts: seq<Action>, i: nat) returns (j: nat)
    requires Allowed(OPENED, acts)
    requires i < |Run(OPENED, acts).calls| && !Run(OPENED, acts).calls[i].pc.Returned?
    ensures Enabled(Run(OPENED, acts), Step(j))
    ensures forall kind, err :: Enabled(Run(OPENED, acts), Fail(kind, err))
  {
    InvRun(OPENED, acts);
    var t := Run(OPENED, acts);
    j := if t.once.Busy? && t.calls[i].pc.AtOnce? then t.once.owner else i;
  }

  // A call made while no other is under way does to the span what the sequential object does.
  lemma OneCallAtATime(s: State, kind: Kind, err: Err) returns (acts: seq<Action>)
    requires Inv(s) && !s.once.Busy?
    ensures Allowed(s, acts) && acts != [] && acts[0] == Fail(kind, err) && OnlySteps(acts[1..])
    ensures var t := Run(s, acts);
      && t.once.Complete? && t.calls == s.calls + [Call(kind, err, Returned)]
      && (t.span, true) == AfterCall(s.span, !s.once.Idle?, kind, Some(err))
  {
    var i := |s.calls|;
    var s1 := Apply(s, Fail(kind, err));
    var marked, mark := MarkOnly(s1, i);
    var rest := EndOnly(marked, i);
    assert ([Fail(kind, err)] + (mark + rest))[1..] == mark + rest;
    RunConcat(s1, mark, rest);
    acts := [Fail(kind, err)] + (mark + rest);
  }

  predicate OnlySteps(acts: seq<Action>) {
    forall n :: 0 <= n < |acts| ==> acts[n].Step?
  }

  // Three operations of call i in a row.
  lemma ThreeSteps(s: State, i: nat) returns (t: State, acts: seq<Action>)
    requires Enabled(s, Step(i)) && Enabled(Apply(s, Step(i)), Step(i))
    requires Enabled(Apply(Apply(s, Step(i)), Step(i)), Step(i))
    ensures Allowed(s, acts) && Run(s, acts) == t == Apply(Apply(Apply(s, Step(i)), Step(i)), Step(i))
    ensures acts == [Step(i), Step(i), Step(i)]
  {
    var s1 := Apply(s, Step(i));
    var s2 := Apply(s1, Step(i));
    t := Apply(s2, Step(i));
    RunStep(s2, Step(i), []);
    assert [Step(i)] + [] == [Step(i)];
    RunStep(s1, Step(i), [Step(i)]);
    RunStep(s, Step(i), [Step(i)] + [Step(i)]);
    acts := [Step(i)] + ([Step(i)] + [Step(i)]);
  }

  // The SetError part of a fresh call.
  lemma MarkOnly(s: State, i: nat) returns (t: State, acts: seq<Action>)
    requires i < |s.calls| && s.calls[i].pc == (if Marks(s.calls[i].kind, s.calls[i].err) then SettingAttr else AtOnce)
    ensures Allowed(s, acts) && Run(s, acts) == t && OnlySteps(acts)
    ensures t.calls == s.calls[i := s.calls[i].(pc := AtOnce)] && t.once == s.once && t.endCalls == s.endCalls
    ensures var e := s.calls[i].err;
      t.span == if Marks(s.calls[i].kind, e) && !s.span.ended then Span(true, s.span.events + [e], Error(e), false)
                else s.span
  {
    if Marks(s.calls[i].kind, s.calls[i].err) {
      t, acts := ThreeSteps(s, i);
    } else {
      t, acts := s, [];
    }
  }

  lemma EndOnly(s: State, i: nat) returns (acts: seq<Action>)
    requires i < |s.calls| && s.calls[i].pc.AtOnce? && !s.once.Busy?
    ensures Allowed(s, acts) && OnlySteps(acts)
    ensures var t := Run(s, acts);
      && t.once.Complete? && t.calls == s.calls[i := s.calls[i].(pc := Returned)]
      && t.span == if s.once.Idle? then s.span.End() else s.span
  {
    if s.once.Idle? {
      var t;
      t, acts := ThreeSteps(s, i);
    } else {
      acts := [Step(i)];
      assert acts[1..] == [];
    }
  }

  lemma {:induction false} RunConcat(s: State, a: seq<Action>, b: seq<Action>)
    requires Allowed(s, a) && Allowed(Run(s, a), b)
    ensures Allowed(s, a + b) && Run(s, a + b) == Run(Run(s, a), b)
    decreases a
  {
    if a == [] {
      assert a + b == b;
    } else {
      assert (a + b)[1..] == a[1..] + b;
      RunConcat(Apply(s, a[0]), a[1..], b);
    }
  }

  // With two goroutines an error can be lost. Here the receiver meets io.EOF and ends the span while
  // the sender is between its error and the marking, so the send error leaves no trace on the span.
  // SpanErrors and SpanSendRecv say exactly when that can happen.
  lemma ConcurrentErrorCanBeLost(msg: string) returns (acts: seq<Action>)
    ensures Allowed(OPENED, acts)
    ensures var t := Run(OPENED, acts);
      && |t.calls| == 2 && t.calls[0] == Call(Send, Other(msg), Returned) && t.calls[1] == Call(Recv, EOF, Returned)
      && t.span == Span(false, [], Unset, true)
  {
    var sender := Call(Send, Other(msg), SettingAttr);
    var s2 := State(STARTED, Idle, [sender, Call(Recv, EOF, AtOnce)], 0);
    var s5 := State(Span(false, [], Unset, true), Complete(1), [sender, Call(Recv, EOF, Returned)], 1);
    RunStep(OPENED, Fail(Send, Other(msg)), [Fail(Recv, EOF)]);
    var a := [Fail(Send, Other(msg))] + [Fail(Recv, EOF)];
    assert Apply(Apply(OPENED, Fail(Send, Other(msg))), Fail(Recv, EOF)) == s2;
    var b := [Step(1)] + ([Step(1)] + [Step(1)]);
    ReceiverEnds(s2, s5, b);
    var d := [Step(0)] + ([Step(0)] + ([Step(0)] + [Step(0)]));
    SenderIsIgnored(s5, d);
    RunConcat(OPENED, a, b);
    RunConcat(OPENED, a + b, d);
    acts := a + b + d;
  }

  lemma RunStep(s: State, a: Action, acts: seq<Action>)
    requires Enabled(s, a) && Allowed(Apply(s, a), acts)
    ensures Allowed(s, [a] + acts) && Run(s, [a] + acts) == Run(Apply(s, a), acts)
  {
    assert ([a] + acts)[1..] == acts;
  }

  lemma ReceiverEnds(s: State, t: State, acts: seq<Action>)
    requires |s.calls| == 2 && s.calls[1].pc.AtOnce? && s.once.Idle? && acts == [Step(1)] + ([Step(1)] + [Step(1)])
    requires t == State(s.span.End(), Complete(1), s.calls[1 := s.calls[1].(pc := Returned)], s.endCalls + 1)
    ensures Allowed(s, acts) && Run(s, acts) == t
  {
    var u, steps := ThreeSteps(s, 1);
    assert acts == steps;
  }

  lemma SenderIsIgnored(s: State, acts: seq<Action>)
    requires |s.calls| == 2 && s.calls[0].pc.SettingAttr? && s.once.Complete? && s.span.ended
    requires acts == [Step(0)] + ([Step(0)] + ([Step(0)] + [Step(0)]))
    ensures Allowed(s, acts) && Run(s, acts) == s.(calls := s.calls[0 := s.calls[0].(pc := Returned)])
  {
    var s1 := Apply(s, Step(0));
    var s2 := Apply(s1, Step(0));
    var s3 := Apply(s2, Step(0));
    RunStep(s3, Step(0), []);
    assert [Step(0)] + [] == [Step(0)];
    RunStep(s2, Step(0), [Step(0)]);
    RunStep(s1, Step(0), [Step(0)] + [Step(0)]);
    RunStep(s, Step(0), [Step(0)] + ([Step(0)] + [Step(0)]));
  }
}
