/**
  The sender on the heap: a channel buffer, counters, the `batch` slice with its reused backing
  array, and the slices that flush makes for the push goroutines. Each method is one atomic region
  of the source; `s` is the state of LokiProtocol it refines.
*/
module LokiSender {
  import opened Seqs
  import opened LokiProtocol

  class Sender {
    const limits: Limits
    var ch: seq<Entry>
    var quit: bool
    var wg: int
    var dropped: nat
    var tokens: nat

    // The batch slice: its backing array and its length.
    var backing: array<Entry>
    var len: nat

    // The slices handed to pushAsync; slices[i] is what the i-th push goroutine reads.
    var slices: seq<array<Entry>>

    ghost var s: State

    // The concrete variables represent s. No handed slice is the backing array.
    ghost predicate Represents()
      reads this, backing, slices
    {
      && ch == s.ch && quit == s.quit && wg == s.wg && dropped == s.dropped && tokens == s.tokens
      && len <= backing.Length && backing[..len] == s.batch
      && |slices| == |s.parcels|
      && forall i :: 0 <= i < |slices| ==> slices[i] != backing && slices[i][..] == s.parcels[i].entries
    }

    ghost predicate Valid()
      reads this, backing, slices
    {
      limits.Valid() && Represents()
    }

    constructor (limits: Limits)
      requires limits.Valid()
      ensures Valid() && s == INIT && this.limits == limits && fresh(backing) && slices == []
    {
      this.limits := limits;
      ch, quit, wg, dropped, tokens := [], false, 1, 0, 0;
      backing, len, slices := new Entry[0], 0, [];
      s := INIT;
    }

    // append(batch, e): in place while the capacity lasts, else in a larger array.
    method Append(e: Entry)
      requires len <= backing.Length
      modifies this`backing, this`len, backing
      ensures len == old(len) + 1 <= backing.Length
      ensures backing[..len] == old(backing[..len]) + [e]
      ensures backing == old(backing) || fresh(backing)
    {
      if len == backing.Length {
        var grown := new Entry[2 * len + 1];
        forall i | 0 <= i < len {
          grown[i] := backing[i];
        }
        backing := grown;
      }
      backing[len] := e;
      len := len + 1;
    }

    // The flush closure up to pushAsync: a fresh copy for the push goroutine, then truncation in place.
    method FlushBatch(ghost final: bool)
      requires Represents() && len != 0
      modifies this`len, this`slices, this`s
      ensures Represents() && s == Flush(old(s), final)
      ensures old(slices) <= slices && |slices| == |old(slices)| + 1 && fresh(Last(slices))
    {
      var toSend := new Entry[len];
      forall i | 0 <= i < len {
        toSend[i] := backing[i];
      }
      assert toSend[..] == backing[..len];
      len := 0;
      slices := slices + [toSend];
      s := Flush(s, final);
    }

    // The select of enqueue. A false result sends the producer on to CountDrop.
    method TrySend(e: Entry) returns (sent: bool)
      requires Valid()
      modifies this`ch, this`s
      ensures Valid() && s == Apply(limits, old(s), Offer(e))
      ensures sent <==> s.accepted == old(s.accepted) + [e]
      ensures limits == CODE_LIMITS ==> (sent <==> |old(ch)| < 1024)
      ensures ch == if sent then old(ch) + [e] else old(ch)
    {
      s := Apply(limits, s, Offer(e));
      sent := |ch| < limits.queueSize;
      if sent {
        ch := ch + [e];
      }
    }

    // dropped.Add(1), which returns the new total.
    method CountDropped() returns (n: nat)
      requires Valid() && Enabled(limits, s, CountDrop)
      modifies this`dropped, this`s
      ensures Valid() && s == Apply(limits, old(s), CountDrop)
      ensures n == dropped == old(dropped) + 1 && n in s.tickets
    {
      s := Apply(limits, s, CountDrop);
      dropped := dropped + 1;
      n := dropped;
    }

    // enqueue, run without interference.
    method Enqueue(e: Entry) returns (warned: bool)
      requires Valid()
      modifies this`ch, this`dropped, this`s
      ensures Valid()
      ensures old(|ch|) < limits.queueSize ==>
                ch == old(ch) + [e] && dropped == old(dropped) && !warned && s == Apply(limits, old(s), Offer(e))
      ensures old(|ch|) >= limits.queueSize ==>
                && ch == old(ch) && dropped == old(dropped) + 1 && (warned <==> Warns(limits, dropped))
                && s.refused == old(s.refused) + [e] && s.adding == old(s.adding)
                && s.warned == old(s.warned) + if warned then [dropped] else []
    {
      warned := false;
      var sent := TrySend(e);
      if !sent {
        var n := CountDropped();
        warned := n == 1 || n % limits.warnEvery == 0;
        Advance(CheckWarn(n));
      }
    }

    // Receiving from the channel, at the outer select or while draining.
    method ReceiveEntry(ghost a: Action)
      requires Valid() && a in {Receive, DrainReceive} && Enabled(limits, s, a)
      modifies this`ch, this`backing, this`len, this`s, backing
      ensures Valid() && s == Apply(limits, old(s), a)
      ensures backing == old(backing) || fresh(backing)
    {
      s := Apply(limits, s, a);
      var e := ch[0];
      ch := ch[1..];
      Append(e);
    }

    method CheckSize()
      requires Valid() && Enabled(limits, s, SizeCheck)
      modifies this`len, this`slices, this`s
      ensures Valid() && s == Apply(limits, old(s), SizeCheck)
      ensures old(slices) <= slices && fresh(slices[|old(slices)|..])
    {
      if len >= limits.maxBatch {
        FlushBatch(false);
      } else {
        s := Apply(limits, s, SizeCheck);
      }
    }

    method OnTick()
      requires Valid() && Enabled(limits, s, Tick)
      modifies this`len, this`slices, this`s
      ensures Valid() && s == Apply(limits, old(s), Tick)
      ensures old(slices) <= slices && fresh(slices[|old(slices)|..])
    {
      if len != 0 {
        FlushBatch(false);
      }
    }

    method FlushAndReturn()
      requires Valid() && Enabled(limits, s, FinalFlush)
      modifies this`len, this`slices, this`s
      ensures Valid() && s == Apply(limits, old(s), FinalFlush)
      ensures old(slices) <= slices && fresh(slices[|old(slices)|..])
    {
      if len != 0 {
        FlushBatch(true);
      } else {
        s := Apply(limits, s, FinalFlush);
      }
    }

    method DrainChannel()
      requires Valid() && s.phase.Draining?
      modifies this`ch, this`backing, this`len, this`s, backing
      ensures Valid() && s.phase.Draining? && ch == [] && s.batch == old(s.batch) + old(ch)
    {
      while ch != []
        invariant Valid() && s.phase.Draining?
        invariant s.batch + ch == old(s.batch) + old(ch)
        invariant backing == old(backing) || fresh(backing)
        decreases |ch|
      {
        assert s.batch + ch == (s.batch + [ch[0]]) + ch[1..];
        ReceiveEntry(DrainReceive);
      }
    }

    // The drain loop and the final flush, run after producers have stopped: the whole channel, in
    // order, ends up behind the current batch in the last slice.
    method Drain()
      requires Valid() && s.phase.Draining?
      modifies this`ch, this`backing, this`len, this`slices, this`s, backing
      ensures Valid() && ch == [] && len == 0
      ensures old(s.batch) + old(ch) == [] ==> s.phase.Returning? && slices == old(slices)
      ensures old(s.batch) + old(ch) != [] ==>
                && s.phase.Pushing? && |slices| == |old(slices)| + 1 && old(slices) <= slices
                && fresh(Last(slices)) && Last(slices)[..] == old(s.batch) + old(ch)
    {
      DrainChannel();
      s := Apply(limits, s, DrainEmpty);
      ghost var all := s.batch;
      FlushAndReturn();
      assert all != [] ==> slices[|slices| - 1] in slices[|old(slices)|..];
      assert all != [] ==> slices[|slices| - 1][..] == s.parcels[|slices| - 1].entries == all;
    }

    // The select of pushAsync. A false result drops the batch.
    method TryToken() returns (acquired: bool)
      requires Valid() && Enabled(limits, s, TryAcquire)
      modifies this`tokens, this`s
      ensures Valid() && s == Apply(limits, old(s), TryAcquire)
      ensures acquired <==> s.parcels[|s.parcels| - 1].fate.Acquired?
      ensures !acquired ==> s.parcels[|s.parcels| - 1].fate.Lost? && tokens == old(tokens) >= limits.maxPush
    {
      s := Apply(limits, s, TryAcquire);
      acquired := tokens < limits.maxPush;
      if acquired {
        tokens := tokens + 1;
      }
    }

    method AddToGroup()
      requires Valid() && Enabled(limits, s, WgAdd)
      modifies this`wg, this`s
      ensures Valid() && s == Apply(limits, old(s), WgAdd)
    {
      s := Apply(limits, s, WgAdd);
      wg := wg + 1;
    }

    // A deferred wg.Done, of run or of a push goroutine.
    method GroupDone(ghost a: Action)
      requires Valid() && (a.RunDone? || a.PusherDone?) && Enabled(limits, s, a)
      modifies this`wg, this`s
      ensures Valid() && s == Apply(limits, old(s), a)
    {
      s := Apply(limits, s, a);
      wg := wg - 1;
    }

    method ReleaseToken(i: nat)
      requires Valid() && Enabled(limits, s, Release(i))
      modifies this`tokens, this`s
      ensures Valid() && s == Apply(limits, old(s), Release(i))
    {
      s := Apply(limits, s, Release(i));
      tokens := tokens - 1;
    }

    method BeginShutdown()
      requires Valid() && Enabled(limits, s, CloseQuit)
      modifies this`quit, this`s
      ensures Valid() && s == Apply(limits, old(s), CloseQuit)
    {
      s := Apply(limits, s, CloseQuit);
      quit := true;
    }

    // Steps that only move a goroutine on.
    ghost method Advance(a: Action)
      requires Valid() && Enabled(limits, s, a)
      requires || a in {SeeQuit, DrainEmpty, Spawn, WaiterWake, ReturnNil, ReturnError}
               || a.Attempt? || a.CheckWarn?
      modifies this`s
      ensures Valid() && s == Apply(limits, old(s), a)
    {
      s := Apply(limits, s, a);
    }

    method Step(a: Action)
      requires Valid() && Enabled(limits, s, a)
      modifies this, backing
      ensures Valid() && s == Apply(limits, old(s), a)
      ensures backing == old(backing) || fresh(backing)
      ensures old(slices) <= slices && fresh(slices[|old(slices)|..])
    {
      match a {
        case Offer(e) => var _ := TrySend(e);
        case CountDrop => var _ := CountDropped();
        case Receive => ReceiveEntry(a);
        case DrainReceive => ReceiveEntry(a);
        case SizeCheck => CheckSize();
        case Tick => OnTick();
        case FinalFlush => FlushAndReturn();
        case TryAcquire => var _ := TryToken();
        case WgAdd => AddToGroup();
        case RunDone => GroupDone(a);
        case PusherDone(_) => GroupDone(a);
        case Release(i) => ReleaseToken(i);
        case CloseQuit => BeginShutdown();
        case _ => Advance(a);
      }
    }

    // Any interleaving of the regions above. Every slice already handed over keeps its contents,
    // however often the backing array is overwritten afterwards, and slice i is parcel i.
    method Execute(schedule: seq<Action>)
      requires Valid() && Allowed(limits, s, schedule)
      modifies this, backing
      ensures Valid() && s == Run(limits, old(s), schedule)
      ensures old(slices) <= slices
      ensures forall i :: 0 <= i < |old(slices)| ==> slices[i][..] == old(slices[i][..])
      ensures forall i :: 0 <= i < |slices| ==> slices[i][..] == s.parcels[i].entries
    {
      var k := 0;
      while k < |schedule|
        invariant 0 <= k <= |schedule|
        invariant Valid() && Allowed(limits, s, schedule[k..])
        invariant Run(limits, s, schedule[k..]) == Run(limits, old(s), schedule)
        invariant backing == old(backing) || fresh(backing)
        invariant old(slices) <= slices
        invariant forall i :: 0 <= i < |old(slices)| ==> slices[i][..] == old(slices[i][..])
      {
        assert schedule[k..][0] == schedule[k] && schedule[k..][1..] == schedule[k + 1..];
        Step(schedule[k]);
        k := k + 1;
      }
    }
  }
}
