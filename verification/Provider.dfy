// Construction and teardown of the telemetry provider.
module Providers {
  import opened Seqs

  datatype Resource = TracerProvider | MeterProvider | LogExporter

  // What happens to resources outside the provider, in order.
  class World {
    var acquired: seq<Resource>
    var released: seq<Resource>

    constructor ()
      ensures acquired == [] && released == []
    {
      acquired, released := [], [];
    }
  }

  function Reverse<T>(s: seq<T>): seq<T> {
    if s == [] then [] else [Last(s)] + Reverse(s[..|s| - 1])
  }

  function Failing(rs: seq<Resource>, fails: Resource -> bool): seq<Resource> {
    if rs == [] then []
    else Failing(rs[..|rs| - 1], fails) + if fails(Last(rs)) then [Last(rs)] else []
  }

  lemma FailingAppend(rs: seq<Resource>, r: Resource, fails: Resource -> bool)
    ensures Failing(rs + [r], fails) == Failing(rs, fails) + if fails(r) then [r] else []
  {
    assert (rs + [r])[..|rs|] == rs;
  }

  // The failing functions are those of rs that fail, as often as they occur and in the same order.

  lemma {:induction false} FailingCount(rs: seq<Resource>, fails: Resource -> bool, r: Resource)
    ensures multiset(Failing(rs, fails))[r] == if fails(r) then multiset(rs)[r] else 0
  {
    if rs != [] {
      FailingCount(rs[..|rs| - 1], fails, r);
      assert rs == rs[..|rs| - 1] + [Last(rs)];
    }
  }

  lemma {:induction false} FailingInOrder(rs: seq<Resource>, fails: Resource -> bool)
    ensures Subseq(Failing(rs, fails), rs)
  {
    if rs != [] {
      var init, last := rs[..|rs| - 1], Last(rs);
      FailingInOrder(init, fails);
      assert rs == init + [last];
      if fails(last) {
        SubseqAppend(Failing(init, fails), init, last);
      } else {
        SubseqWiden(Failing(init, fails), init, [last]);
        assert Failing(rs, fails) == Failing(init, fails);
      }
    }
  }

  lemma {:induction false} ReverseMultiset<T>(s: seq<T>)
    ensures multiset(Reverse(s)) == multiset(s)
  {
    if s != [] {
      ReverseMultiset(s[..|s| - 1]);
      assert s == s[..|s| - 1] + [Last(s)];
    }
  }

  // No error, exactly when nothing registered fails.
  lemma NoErrorIff(fns: seq<Resource>, errs: seq<Resource>, fails: Resource -> bool)
    requires forall r :: multiset(errs)[r] == if fails(r) then multiset(fns)[r] else 0
    ensures errs == [] <==> forall r :: r in fns ==> !fails(r)
  {
    if errs == [] {
      assert forall r :: multiset(errs)[r] == 0;
      forall r | r in fns
        ensures !fails(r)
      {
        assert multiset(fns)[r] > 0;
      }
    } else {
      assert multiset(errs)[errs[0]] > 0;
      assert errs[0] in multiset(fns);
    }
  }

  lemma ShutdownErrors(fns: seq<Resource>, fails: Resource -> bool)
    ensures var errs := Failing(Reverse(fns), fails);
      && (forall r :: multiset(errs)[r] == if fails(r) then multiset(fns)[r] else 0)
      && Subseq(errs, Reverse(fns))
      && (errs == [] <==> forall r :: r in fns ==> !fails(r))
  {
    ReverseMultiset(fns);
    forall r
      ensures multiset(Failing(Reverse(fns), fails))[r] == if fails(r) then multiset(fns)[r] else 0
    {
      FailingCount(Reverse(fns), fails, r);
    }
    FailingInOrder(Reverse(fns), fails);
    NoErrorIff(fns, Failing(Reverse(fns), fails), fails);
  }

  lemma ReverseNext<T>(s: seq<T>, i: nat, run: seq<T>)
    requires i < |s|
    ensures run + Reverse(s[..i + 1]) == (run + [s[i]]) + Reverse(s[..i])
  {
    assert s[..i + 1][..i] == s[..i];
  }

  lemma {:induction false} ReverseAt<T>(s: seq<T>, k: nat)
    requires k < |s|
    ensures |Reverse(s)| == |s| && Reverse(s)[k] == s[|s| - 1 - k]
  {
    if k > 0 {
      ReverseAt(s[..|s| - 1], k - 1);
    } else if |s| > 1 {
      ReverseAt(s[..|s| - 1], 0);
    }
  }

  class Provider {
    // Shutdown functions, by the resource they release.
    var shutdownFns: seq<Resource>

    constructor ()
      ensures shutdownFns == []
    {
      shutdownFns := [];
    }

    // Runs every shutdown function, last registered first, and collects the errors.
    method Shutdown(world: World, fails: Resource -> bool) returns (errs: seq<Resource>)
      modifies world
      ensures world.released == old(world.released) + Reverse(shutdownFns)
      ensures forall r :: multiset(errs)[r] == if fails(r) then multiset(shutdownFns)[r] else 0
      ensures Subseq(errs, Reverse(shutdownFns))
      ensures errs == [] <==> forall r :: r in shutdownFns ==> !fails(r)
      ensures world.acquired == old(world.acquired)
    {
      errs := [];
      var i := |shutdownFns| - 1;
      ghost var run := [];
      ghost var all := Reverse(shutdownFns);
      assert shutdownFns[..i + 1] == shutdownFns && run + all == all;
      while i >= 0
        invariant -1 <= i < |shutdownFns|
        invariant run + Reverse(shutdownFns[..i + 1]) == all
        invariant world.released == old(world.released) + run && world.acquired == old(world.acquired)
        invariant errs == Failing(run, fails)
      {
        var r := shutdownFns[i];
        ReverseNext(shutdownFns, i, run);
        FailingAppend(run, r, fails);
        world.released := world.released + [r];
        if fails(r) {
          errs := errs + [r];
        }
        run := run + [r];
        i := i - 1;
      }
      assert run == all by {
        assert shutdownFns[..i + 1] == [] && run + [] == run;
      }
      ShutdownErrors(shutdownFns, fails);
    }
  }

  // New, with the outcome of each building step given; `got` lists what it acquires. On failure
  // everything acquired on the way has been released again, last first; on success the provider
  // owns it.
  method New(world: World, serviceName: string, resourceOk: bool, tracerOk: bool, meterOk: bool,
             hasLogExporter: bool, fails: Resource -> bool)
    returns (p: Provider?, ghost got: seq<Resource>)
    modifies world
    ensures p != null <==> serviceName != "" && resourceOk && tracerOk && meterOk
    ensures world.acquired == old(world.acquired) + got
    ensures p != null ==> fresh(p) && p.shutdownFns == got && world.released == old(world.released)
    ensures p == null ==> world.released == old(world.released) + Reverse(got)
    ensures got == if p != null then [TracerProvider, MeterProvider] + (if hasLogExporter then [LogExporter] else [])
                   else if serviceName != "" && resourceOk && tracerOk then [TracerProvider] else []
  {
    p, got := null, [];
    if serviceName == "" || !resourceOk {
      return;
    }
    var provider := new Provider();
    if !tracerOk {
      return;
    }
    got := [TracerProvider];
    world.acquired := world.acquired + [TracerProvider];
    provider.shutdownFns := provider.shutdownFns + [TracerProvider];
    if !meterOk {
      var _ := provider.Shutdown(world, fails);
      return;
    }
    world.acquired := world.acquired + [MeterProvider];
    provider.shutdownFns := provider.shutdownFns + [MeterProvider];
    got := got + [MeterProvider];
    if hasLogExporter {
      world.acquired := world.acquired + [LogExporter];
      provider.shutdownFns := provider.shutdownFns + [LogExporter];
      got := got + [LogExporter];
    }
    p := provider;
  }

  // A whole life: whatever New's outcome and whichever shutdown functions fail, every resource
  // acquired is released exactly once, in reverse order of acquisition.
  method NewAndShutdown(serviceName: string, resourceOk: bool, tracerOk: bool, meterOk: bool,
                        hasLogExporter: bool, fails: Resource -> bool)
    returns (world: World, errs: seq<Resource>)
    ensures world.released == Reverse(world.acquired)
    ensures var built := serviceName != "" && resourceOk && tracerOk && meterOk;
      forall r :: multiset(errs)[r] == if built && fails(r) then multiset(world.acquired)[r] else 0
    ensures Subseq(errs, world.released)
  {
    world := new World();
    errs := [];
    var p, got := New(world, serviceName, resourceOk, tracerOk, meterOk, hasLogExporter, fails);
    assert world.acquired == got;
    if p != null {
      assert world.released == [];
      errs := p.Shutdown(world, fails);
      assert world.released == Reverse(got);
    } else {
      assert world.released == Reverse(got);
    }
  }
}
