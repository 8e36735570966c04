// What a push goroutine does with its batch: grouping by level, the payload, and the retries.
module LokiPush {
  import opened Seqs
  import opened Dicts
  import opened LokiProtocol
  import opened LokiInvariants
  import opened LokiDelivery
  import opened LokiSender

  datatype Value = Value(ts: int, line: string)

  // The payload of one stream, as marshalled.
  datatype Stream = Stream(labels: map<string, string>, values: seq<Value>)

  const LEVEL := "level"

  function OfLevel(es: seq<Entry>, level: string): seq<Entry> {
    if es == [] then []
    else OfLevel(es[..|es| - 1], level) + if Last(es).level == level then [Last(es)] else []
  }

  function Lines(es: seq<Entry>): seq<Value> {
    seq(|es|, i requires 0 <= i < |es| => Value(es[i].ts, es[i].line))
  }

  function Levels(es: seq<Entry>): set<string> {
    set e | e in es :: e.level
  }

  // Grouping.

  lemma OfLevelAppend(es: seq<Entry>, e: Entry, level: string)
    ensures OfLevel(es + [e], level) == OfLevel(es, level) + if e.level == level then [e] else []
    ensures Lines(OfLevel(es + [e], level))
         == Lines(OfLevel(es, level)) + if e.level == level then [Value(e.ts, e.line)] else []
  {
    assert (es + [e])[..|es|] == es;
  }

  lemma LevelsAppend(es: seq<Entry>, e: Entry)
    ensures Levels(es + [e]) == Levels(es) + {e.level}
  {
    assert forall x :: x in es + [e] <==> x in es || x == e;
    assert e in es + [e];
  }

  // The entries of a level: a subsequence of all entries that has each of them as often as they do, and
  // no entry of another level.
  lemma {:induction false} OfLevelIsFilter(es: seq<Entry>, level: string)
    ensures Subseq(OfLevel(es, level), es)
    ensures forall e :: multiset(OfLevel(es, level))[e] == if e.level == level then multiset(es)[e] else 0
  {
    if es != [] {
      var init, last := es[..|es| - 1], Last(es);
      OfLevelIsFilter(init, level);
      assert es == init + [last];
      OfLevelAppend(init, last, level);
      if last.level == level {
        SubseqAppend(OfLevel(init, level), init, last);
      } else {
        SubseqWiden(OfLevel(init, level), init, [last]);
        assert OfLevel(es, level) == OfLevel(init, level);
      }
    }
  }

  // Level is absent exactly when nothing has it.
  lemma {:induction false} OfLevelEmpty(es: seq<Entry>, level: string)
    ensures OfLevel(es, level) == [] <==> level !in Levels(es)
  {
    if es != [] {
      var init := es[..|es| - 1];
      assert es == init + [Last(es)];
      OfLevelEmpty(init, level);
      LevelsAppend(init, Last(es));
    }
  }

  // byLevel, filled by the loop over the entries.
  method GroupByLevel(entries: array<Entry>) returns (byLevel: map<string, seq<Value>>)
    ensures byLevel.Keys == Levels(entries[..])
    ensures forall level :: level in byLevel ==> byLevel[level] == Lines(OfLevel(entries[..], level))
  {
    byLevel := map[];
    var i := 0;
    while i < entries.Length
      invariant 0 <= i <= entries.Length
      invariant byLevel.Keys == Levels(entries[..i])
      invariant forall level :: level in byLevel ==> byLevel[level] == Lines(OfLevel(entries[..i], level))
    {
      var e := entries[i];
      var values := if e.level in byLevel then byLevel[e.level] else [];
      assert entries[..i + 1] == entries[..i] + [e];
      OfLevelEmpty(entries[..i], e.level);
      LevelsAppend(entries[..i], e);
      forall level
        ensures Lines(OfLevel(entries[..i + 1], level))
             == Lines(OfLevel(entries[..i], level)) + if e.level == level then [Value(e.ts, e.line)] else []
      {
        OfLevelAppend(entries[..i], e, level);
      }
      byLevel := byLevel[e.level := values + [Value(e.ts, e.line)]];
      i := i + 1;
    }
    assert entries[..i] == entries[..];
  }

  // The label map of one stream: a copy of the configured labels with the level put over it.
  method StreamLabels(configured: Dict, level: string) returns (labels: Dict)
    ensures fresh(labels) && labels.m == configured.m["level" := level]
  {
    labels := new Dict();
    var remaining := configured.m.Keys;
    while remaining != {}
      invariant fresh(labels) && remaining <= configured.m.Keys
      invariant labels.m.Keys == configured.m.Keys - remaining
      invariant forall k :: k in labels.m ==> labels.m[k] == configured.m[k]
      decreases remaining
    {
      var k :| k in remaining;
      labels.Put(k, configured.m[k]);
      remaining := remaining - {k};
    }
    labels.Put(LEVEL, level);
  }

  // The payload groups the entries: one stream for each level that occurs, holding that level's
  // entries in order, under the configured labels overridden at "level" only.
  ghost predicate Groups(streams: seq<Stream>, es: seq<Entry>, labels: map<string, string>) {
    && (forall i :: 0 <= i < |streams| ==> StreamOk(streams[i], es, labels))
    && (forall i, j :: 0 <= i < j < |streams| ==> streams[i].labels != streams[j].labels)
    && (forall level :: level in Levels(es) ==> HasStream(streams, level))
  }

  predicate IsFor(stream: Stream, level: string) {
    LEVEL in stream.labels && stream.labels[LEVEL] == level
  }

  ghost predicate HasStream(streams: seq<Stream>, level: string) {
    exists i :: 0 <= i < |streams| && IsFor(streams[i], level)
  }

  ghost predicate StreamOk(stream: Stream, es: seq<Entry>, labels: map<string, string>) {
    && LEVEL in stream.labels
    && var level := stream.labels[LEVEL];
       && level in Levels(es)
       && stream.labels == labels[LEVEL := level]
       && stream.values == Lines(OfLevel(es, level))
  }

  lemma HasStreamAppend(streams: seq<Stream>, stream: Stream, level: string)
    ensures HasStream(streams + [stream], level) <==> HasStream(streams, level) || IsFor(stream, level)
  {
    var more := streams + [stream];
    assert more[|streams|] == stream;
    assert forall i :: 0 <= i < |streams| ==> more[i] == streams[i];
  }

  // The loop over byLevel, whose order Go leaves open.
  method BuildStreams(byLevel: map<string, seq<Value>>, configured: Dict, ghost es: seq<Entry>)
    returns (streams: seq<Stream>)
    requires byLevel.Keys == Levels(es)
    requires forall level :: level in byLevel ==> byLevel[level] == Lines(OfLevel(es, level))
    ensures Groups(streams, es, configured.m) && configured.m == old(configured.m)
  {
    streams := [];
    var remaining := byLevel.Keys;
    while remaining != {}
      invariant remaining <= byLevel.Keys
      invariant forall i :: 0 <= i < |streams| ==> StreamOk(streams[i], es, configured.m)
      invariant forall i :: 0 <= i < |streams| ==> streams[i].labels[LEVEL] !in remaining
      invariant forall i, j :: 0 <= i < j < |streams| ==> streams[i].labels != streams[j].labels
      invariant forall level :: level in byLevel.Keys - remaining ==> HasStream(streams, level)
      decreases remaining
    {
      var level :| level in remaining;
      var labels := StreamLabels(configured, level);
      var stream := Stream(labels.m, byLevel[level]);
      assert StreamOk(stream, es, configured.m) && IsFor(stream, level);
      ghost var before := streams;
      streams := streams + [stream];
      remaining := remaining - {level};
      forall l | l in byLevel.Keys - remaining
        ensures HasStream(streams, l)
      {
        HasStreamAppend(before, stream, l);
      }
    }
  }

  // Grouping is a partition.

  function AllValues(streams: seq<Stream>): seq<seq<Value>> {
    seq(|streams|, i requires 0 <= i < |streams| => streams[i].values)
  }

  // The values of the streams for the given levels, one after the other.
  function Gather(levels: seq<string>, es: seq<Entry>): seq<Value> {
    if levels == [] then [] else Gather(levels[..|levels| - 1], es) + Lines(OfLevel(es, Last(levels)))
  }

  lemma GatherLast(levels: seq<string>, es: seq<Entry>)
    requires levels != []
    ensures multiset(Gather(levels, es))
         == multiset(Gather(levels[..|levels| - 1], es)) + multiset(Lines(OfLevel(es, Last(levels))))
  {
  }

  function OneIf<T>(b: bool, x: T): multiset<T> {
    if b then multiset{x} else multiset{}
  }

  // Appending an entry adds its value to the one stream of its level.
  lemma {:induction false} GatherAppend(levels: seq<string>, es: seq<Entry>, e: Entry)
    requires Distinct(levels)
    ensures multiset(Gather(levels, es + [e]))
         == multiset(Gather(levels, es)) + OneIf(e.level in levels, Value(e.ts, e.line))
  {
    if levels != [] {
      var init, last := levels[..|levels| - 1], Last(levels);
      GatherAppend(init, es, e);
      LineOfLevel(es, e, last);
      GatherLast(levels, es);
      GatherLast(levels, es + [e]);
      assert e.level in levels <==> e.level in init || e.level == last;
      assert e.level == last ==> e.level !in init;
    }
  }

  lemma LineOfLevel(es: seq<Entry>, e: Entry, level: string)
    ensures multiset(Lines(OfLevel(es + [e], level)))
         == multiset(Lines(OfLevel(es, level))) + OneIf(e.level == level, Value(e.ts, e.line))
  {
    OfLevelAppend(es, e, level);
    if e.level == level {
      MultisetAppend(Lines(OfLevel(es, level)), Value(e.ts, e.line));
    }
  }

  lemma LinesAppend(es: seq<Entry>, e: Entry)
    ensures multiset(Lines(es + [e])) == multiset(Lines(es)) + multiset{Value(e.ts, e.line)}
  {
    assert Lines(es + [e]) == Lines(es) + [Value(e.ts, e.line)];
  }

  lemma {:induction false} GatherAll(levels: seq<string>, es: seq<Entry>)
    requires Distinct(levels) && forall e :: e in es ==> e.level in levels
    ensures multiset(Gather(levels, es)) == multiset(Lines(es))
  {
    if es == [] {
      GatherNothing(levels);
    } else {
      var init, e := es[..|es| - 1], Last(es);
      assert es == init + [e];
      assert forall x :: x in init ==> x in es;
      GatherAll(levels, init);
      GatherAppend(levels, init, e);
      LinesAppend(init, e);
    }
  }

  lemma {:induction false} GatherNothing(levels: seq<string>)
    ensures Gather(levels, []) == []
  {
    if levels != [] {
      GatherNothing(levels[..|levels| - 1]);
    }
  }

  function LevelOf(stream: Stream): string {
    if LEVEL in stream.labels then stream.labels[LEVEL] else ""
  }

  function StreamLevels(streams: seq<Stream>): seq<string> {
    seq(|streams|, i requires 0 <= i < |streams| => LevelOf(streams[i]))
  }

  lemma {:induction false} ValuesAreGathered(streams: seq<Stream>, es: seq<Entry>, labels: map<string, string>)
    requires forall i :: 0 <= i < |streams| ==> StreamOk(streams[i], es, labels)
    ensures Flatten(AllValues(streams)) == Gather(StreamLevels(streams), es)
  {
    if streams != [] {
      var init := streams[..|streams| - 1];
      ValuesAreGathered(init, es, labels);
      assert AllValues(streams)[..|init|] == AllValues(init);
      assert StreamLevels(streams)[..|init|] == StreamLevels(init);
    }
  }

  lemma StreamLevelsCover(streams: seq<Stream>, es: seq<Entry>, labels: map<string, string>)
    requires Groups(streams, es, labels)
    ensures Distinct(StreamLevels(streams))
    ensures forall e :: e in es ==> e.level in StreamLevels(streams)
  {
    var levels := StreamLevels(streams);
    forall i, j | 0 <= i < j < |levels|
      ensures levels[i] != levels[j]
    {
      assert StreamOk(streams[i], es, labels) && StreamOk(streams[j], es, labels);
    }
    forall e | e in es
      ensures e.level in levels
    {
      assert HasStream(streams, e.level);
      var i :| 0 <= i < |streams| && IsFor(streams[i], e.level);
      assert levels[i] == e.level;
    }
  }

  // No stream is empty, no two have the same level, and together they hold every value once.
  lemma GroupingIsPartition(streams: seq<Stream>, es: seq<Entry>, labels: map<string, string>)
    requires Groups(streams, es, labels)
    ensures forall i :: 0 <= i < |streams| ==> streams[i].values != []
    ensures Distinct(StreamLevels(streams))
    ensures multiset(Flatten(AllValues(streams))) == multiset(Lines(es))
    ensures |Flatten(AllValues(streams))| == |es|
  {
    forall i | 0 <= i < |streams|
      ensures streams[i].values != []
    {
      assert StreamOk(streams[i], es, labels);
      OfLevelEmpty(es, streams[i].labels[LEVEL]);
    }
    StreamLevelsCover(streams, es, labels);
    ValuesAreGathered(streams, es, labels);
    GatherAll(StreamLevels(streams), es);
    assert |multiset(Flatten(AllValues(streams)))| == |multiset(Lines(es))|;
  }

  // Order end to end.

  // The values a payload carries for a level.
  ghost function ValuesFor(streams: seq<Stream>, level: string): seq<Value> {
    if HasStream(streams, level)
    then var i :| 0 <= i < |streams| && IsFor(streams[i], level); streams[i].values
    else []
  }

  lemma ValuesForLevel(streams: seq<Stream>, es: seq<Entry>, labels: map<string, string>, level: string)
    requires Groups(streams, es, labels)
    ensures ValuesFor(streams, level) == Lines(OfLevel(es, level))
  {
    OfLevelEmpty(es, level);
  }

  lemma {:induction false} OfLevelConcat(a: seq<Entry>, b: seq<Entry>, level: string)
    ensures OfLevel(a + b, level) == OfLevel(a, level) + OfLevel(b, level)
  {
    if b == [] {
      assert a + b == a;
    } else {
      var init := b[..|b| - 1];
      assert a + b == (a + init) + [Last(b)];
      OfLevelConcat(a, init, level);
      OfLevelAppend(a + init, Last(b), level);
      var tail := if Last(b).level == level then [Last(b)] else [];
      assert (OfLevel(a, level) + OfLevel(init, level)) + tail == OfLevel(a, level) + (OfLevel(init, level) + tail);
    }
  }

  ghost function PerBatch(payloads: seq<seq<Stream>>, level: string): seq<seq<Value>> {
    seq(|payloads|, i requires 0 <= i < |payloads| => ValuesFor(payloads[i], level))
  }

  lemma {:induction false} LevelOrder(payloads: seq<seq<Stream>>, hs: seq<seq<Entry>>, labels: map<string, string>,
                                      level: string)
    requires |payloads| == |hs|
    requires forall i :: 0 <= i < |hs| ==> Groups(payloads[i], hs[i], labels)
    ensures Flatten(PerBatch(payloads, level)) == Lines(OfLevel(Flatten(hs), level))
  {
    if hs != [] {
      var n := |hs| - 1;
      LevelOrder(payloads[..n], hs[..n], labels, level);
      assert PerBatch(payloads, level)[..n] == PerBatch(payloads[..n], level);
      ValuesForLevel(payloads[n], hs[n], labels, level);
      OfLevelConcat(Flatten(hs[..n]), hs[n], level);
      LinesConcat(OfLevel(Flatten(hs[..n]), level), OfLevel(hs[n], level));
    }
  }

  lemma LinesConcat(a: seq<Entry>, b: seq<Entry>)
    ensures Lines(a + b) == Lines(a) + Lines(b)
  {
  }

  lemma FlushedIsPrefix(c: Limits, s: State)
    requires Fifo(c, s)
    ensures Flatten(Handed(s.parcels)) <= s.accepted
  {
    assert Flatten(Handed(s.parcels)) + (s.batch + s.ch) == s.accepted;
  }

  // Whatever the interleaving, the order of the level map and the fate of the pushes: read in flush
  // order, the streams of one level carry that level's part of a prefix of the accepted entries.
  lemma EndToEndOrder(c: Limits, acts: seq<Action>, payloads: seq<seq<Stream>>, labels: map<string, string>,
                      level: string)
    requires c.Valid() && Allowed(c, INIT, acts)
    requires |payloads| == |Run(c, INIT, acts).parcels|
    requires forall i :: 0 <= i < |payloads| ==> Groups(payloads[i], Run(c, INIT, acts).parcels[i].entries, labels)
    ensures var t := Run(c, INIT, acts);
      var flushed := Flatten(Handed(t.parcels));
      flushed <= t.accepted && Flatten(PerBatch(payloads, level)) == Lines(OfLevel(flushed, level))
  {
    Reachable(c, acts);
    var t := Run(c, INIT, acts);
    LevelOrder(payloads, Handed(t.parcels), labels, level);
    FlushedIsPrefix(c, t);
  }

  // Retries.

  function Pow2(n: nat): nat {
    if n == 0 then 1 else 2 * Pow2(n - 1)
  }

  function Sum(s: seq<nat>): nat {
    if s == [] then 0 else Sum(s[..|s| - 1]) + Last(s)
  }

  // The sleeps before attempts 1, 2, ...: the initial backoff, doubled each time.
  ghost predicate Doubling(sleeps: seq<nat>, backoff: nat) {
    forall j :: 0 <= j < |sleeps| ==> sleeps[j] == backoff * Pow2(j)
  }

  // The attempt loop. `respond(j)` says whether attempt j is answered with success.
  method SendWithRetries<Body>(body: Body, limit: nat, initialBackoff: nat, respond: nat -> bool)
    returns (ok: bool, posted: seq<Body>, sleeps: seq<nat>)
    requires limit >= 1
    ensures 1 <= |posted| <= limit && forall j :: 0 <= j < |posted| ==> posted[j] == body
    ensures forall j :: 0 <= j < |posted| - 1 ==> !respond(j)
    ensures ok == respond(|posted| - 1)
    ensures !ok ==> |posted| == limit
    ensures |sleeps| == |posted| - 1 && Doubling(sleeps, initialBackoff)
  {
    posted, sleeps, ok := [], [], false;
    var backoff := initialBackoff;
    var attempt := 0;
    while attempt < limit
      invariant 0 <= attempt <= limit && |posted| == attempt && !ok
      invariant forall j :: 0 <= j < attempt ==> posted[j] == body && !respond(j)
      invariant |sleeps| == (if attempt == 0 then 0 else attempt - 1)
      invariant backoff == initialBackoff * Pow2(|sleeps|) && Doubling(sleeps, initialBackoff)
    {
      if attempt > 0 {
        sleeps := sleeps + [backoff];
        backoff := backoff * 2;
      }
      posted := posted + [body];
      ok := respond(attempt);
      if ok {
        return;
      }
      attempt := attempt + 1;
    }
  }

  lemma {:induction false} TotalSleep(sleeps: seq<nat>, backoff: nat)
    requires Doubling(sleeps, backoff)
    ensures Sum(sleeps) == backoff * (Pow2(|sleeps|) - 1)
  {
    if sleeps != [] {
      var n := |sleeps| - 1;
      TotalSleep(sleeps[..n], backoff);
      assert backoff * (Pow2(n) - 1) + backoff * Pow2(n) == backoff * (2 * Pow2(n) - 1);
    }
  }

  // With the code's constants, in milliseconds: at most 600 of sleep, and 15600 in all when no
  // attempt outlasts the client timeout of 5000.
  lemma PushTime(sleeps: seq<nat>, durations: seq<nat>)
    requires Doubling(sleeps, 200) && 1 <= |durations| <= CODE_LIMITS.maxRetries && |sleeps| == |durations| - 1
    requires forall j :: 0 <= j < |durations| ==> durations[j] <= 5000
    ensures Sum(sleeps) <= 600 && Sum(sleeps) + Sum(durations) <= 15600
  {
    TotalSleep(sleeps, 200);
    assert Pow2(0) == 1 && Pow2(1) == 2 && Pow2(2) == 4;
    SumBound(durations, 5000);
  }

  lemma {:induction false} SumBound(s: seq<nat>, b: nat)
    requires forall j :: 0 <= j < |s| ==> s[j] <= b
    ensures Sum(s) <= |s| * b
  {
    if s != [] {
      SumBound(s[..|s| - 1], b);
    }
  }

  // The loop is the protocol's push goroutine: its attempts take parcel i from the first attempt
  // to the outcome and the number of attempts that the loop reports.
  function AttemptsOf(i: nat, from: nat, count: nat, respond: nat -> bool): seq<Action>
    decreases count
  {
    if count == 0 then [] else [Attempt(i, respond(from))] + AttemptsOf(i, from + 1, count - 1, respond)
  }

  lemma {:induction false} RetriesRefine(c: Limits, s: State, i: nat, k: nat, n: nat, ok: bool, respond: nat -> bool)
    requires c.Valid() && i < |s.parcels| && s.parcels[i].fate == Trying(k)
    requires k < n <= c.maxRetries && (forall j :: k <= j < n - 1 ==> !respond(j))
    requires ok == respond(n - 1) && (!ok ==> n == c.maxRetries)
    ensures var acts := AttemptsOf(i, k, n - k, respond);
      Allowed(c, s, acts) && Run(c, s, acts) == s.(parcels := SetFate(s.parcels, i, Finished(ok, n)))
    decreases n - k
  {
    var a := Attempt(i, respond(k));
    var t := Apply(c, s, a);
    var rest := AttemptsOf(i, k + 1, n - k - 1, respond);
    if k + 1 < n {
      assert t == s.(parcels := SetFate(s.parcels, i, Trying(k + 1)));
      RetriesRefine(c, t, i, k + 1, n, ok, respond);
      SetFateTwice(s.parcels, i, Trying(k + 1), Finished(ok, n));
    } else {
      assert t == s.(parcels := SetFate(s.parcels, i, Finished(ok, n)));
    }
    RunStep(c, s, a, rest);
  }

  lemma SetFateTwice(ps: seq<Parcel>, i: nat, f: Fate, g: Fate)
    requires i < |ps|
    ensures SetFate(SetFate(ps, i, f), i, g) == SetFate(ps, i, g)
  {
  }

  // push, as run by the goroutine of parcel i on its slice: one payload, grouped from the entries
  // that were flushed, posted unchanged until it is accepted or the attempts run out.
  method Push(sender: Sender, i: nat, configured: Dict, initialBackoff: nat, respond: nat -> bool)
    returns (streams: seq<Stream>, ok: bool, posted: seq<seq<Stream>>, sleeps: seq<nat>)
    requires sender.Valid() && i < |sender.slices| && sender.s.parcels[i].fate == Trying(0)
    ensures Groups(streams, sender.s.parcels[i].entries, configured.m) && configured.m == old(configured.m)
    ensures forall k :: 0 <= k < |streams| ==>
              "level" in streams[k].labels && streams[k].labels == configured.m["level" := streams[k].labels["level"]]
    ensures 1 <= |posted| <= sender.limits.maxRetries && forall j :: 0 <= j < |posted| ==> posted[j] == streams
    ensures |sleeps| == |posted| - 1 && Doubling(sleeps, initialBackoff)
    ensures var acts := AttemptsOf(i, 0, |posted|, respond);
      && Allowed(sender.limits, sender.s, acts)
      && Run(sender.limits, sender.s, acts)
           == sender.s.(parcels := SetFate(sender.s.parcels, i, Finished(ok, |posted|)))
  {
    var byLevel := GroupByLevel(sender.slices[i]);
    streams := BuildStreams(byLevel, configured, sender.slices[i][..]);
    ok, posted, sleeps := SendWithRetries(streams, sender.limits.maxRetries, initialBackoff, respond);
    RetriesRefine(sender.limits, sender.s, i, 0, |posted|, ok, respond);
  }
}
