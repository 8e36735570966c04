/**
  The slog handler that tees records to a log exporter, and the logger in front of it: which map
  of attributes a record exports, for any tree of derived handlers.
*/
module ExportHandlers {
  import opened Options
  import opened Seqs

  datatype Attr = Attr(key: string, value: string)

  // How a handler is derived from its parent.
  datatype Derive = WithAttrs(attrs: seq<Attr>) | WithGroup(name: string)

  // A record; its time is absent when it is the zero time. The level is its printed name.
  datatype Record = Record(time: Option<int>, level: string, message: string, attrs: seq<Attr>)

  datatype LogEntry = LogEntry(time: int, level: string, message: string, attrs: map<string, string>)

  // The span context of a call's context, when it is valid.
  datatype TraceContext = TraceContext(traceID: string, spanID: string, flags: string)

  // Later attributes win.
  function Merge(attrs: seq<Attr>): map<string, string> {
    if attrs == [] then map[] else Merge(attrs[..|attrs| - 1])[Last(attrs).key := Last(attrs).value]
  }

  lemma MergeAppend(attrs: seq<Attr>, a: Attr)
    ensures Merge(attrs + [a]) == Merge(attrs)[a.key := a.value]
  {
    assert (attrs + [a])[..|attrs|] == attrs;
  }

  // Merging is a homomorphism to right-biased map union.
  lemma {:induction false} MergeConcat(a: seq<Attr>, b: seq<Attr>)
    ensures Merge(a + b) == Merge(a) + Merge(b)
  {
    if b == [] {
      assert a + b == a;
    } else {
      var init, last := b[..|b| - 1], Last(b);
      MergeConcat(a, init);
      assert a + b == (a + init) + [last];
      MergeAppend(a + init, last);
      assert (Merge(a) + Merge(init))[last.key := last.value] == Merge(a) + Merge(init)[last.key := last.value];
    }
  }

  // A key is exported exactly when some attribute has it, with the value of the last such attribute.
  lemma {:induction false} LastWins(attrs: seq<Attr>, i: nat)
    requires i < |attrs| && forall j :: i < j < |attrs| ==> attrs[j].key != attrs[i].key
    ensures attrs[i].key in Merge(attrs) && Merge(attrs)[attrs[i].key] == attrs[i].value
  {
    if i < |attrs| - 1 {
      LastWins(attrs[..|attrs| - 1], i);
    }
  }

  lemma {:induction false} OnlyGivenKeys(attrs: seq<Attr>, key: string)
    ensures key in Merge(attrs) <==> exists i :: 0 <= i < |attrs| && attrs[i].key == key
  {
    if attrs != [] {
      var init := attrs[..|attrs| - 1];
      OnlyGivenKeys(init, key);
      assert forall i :: 0 <= i < |init| ==> init[i] == attrs[i];
    }
  }

  lemma MergeNext(written: seq<Attr>, attrs: seq<Attr>, i: nat)
    requires i < |attrs|
    ensures Merge(written + attrs[..i + 1]) == Merge(written + attrs[..i])[attrs[i].key := attrs[i].value]
  {
    assert written + attrs[..i + 1] == (written + attrs[..i]) + [attrs[i]];
    MergeAppend(written + attrs[..i], attrs[i]);
  }

  // The loop of Handle that writes attributes into the map.
  method PutAll(m: map<string, string>, ghost written: seq<Attr>, attrs: seq<Attr>) returns (out: map<string, string>)
    requires m == Merge(written)
    ensures out == Merge(written + attrs)
  {
    out := m;
    var i := 0;
    assert written + attrs[..i] == written;
    while i < |attrs|
      invariant 0 <= i <= |attrs| && out == Merge(written + attrs[..i])
    {
      MergeNext(written, attrs, i);
      out := out[attrs[i].key := attrs[i].value];
      i := i + 1;
    }
    assert attrs[..i] == attrs;
  }

  class ExportHandler {
    // The inner handler, known by how it was derived.
    const inner: seq<Derive>
    // The attributes accumulated by WithAttrs. WithGroup shares the array with its parent.
    const attrs: array<Attr>

    constructor (inner: seq<Derive>, attrs: array<Attr>)
      ensures this.inner == inner && this.attrs == attrs
    {
      this.inner, this.attrs := inner, attrs;
    }

    // Handle with the outcome of the inner handler and the current time given: the entry passed to
    // Export, if any.
    method Handle(r: Record, innerOk: bool, now: int) returns (exported: Option<LogEntry>)
      ensures exported.Some? <==> innerOk
      ensures innerOk ==>
                && exported.value.attrs == Merge([Attr("msg", r.message)] + attrs[..] + r.attrs)
                && exported.value.message == r.message && exported.value.level == r.level
                && exported.value.time == if r.time.Some? then r.time.value else now
    {
      if !innerOk {
        return None;
      }
      var ts := if r.time.None? then now else r.time.value;
      var m := map["msg" := r.message];
      ghost var msg := [Attr("msg", r.message)];
      MergeMessage(r.message);
      m := PutAll(m, msg, attrs[..]);
      m := PutAll(m, msg + attrs[..], r.attrs);
      exported := Some(LogEntry(ts, r.level, r.message, m));
    }

    // A fresh array holding both parts: neither the parent's array nor the caller's is kept.
    method WithAttrs(args: array<Attr>) returns (child: ExportHandler)
      ensures fresh(child) && fresh(child.attrs)
      ensures child.attrs[..] == attrs[..] + args[..]
      ensures child.inner == inner + [Derive.WithAttrs(args[..])]
    {
      var merged := new Attr[attrs.Length + args.Length];
      forall i | 0 <= i < attrs.Length {
        merged[i] := attrs[i];
      }
      forall i | 0 <= i < args.Length {
        merged[attrs.Length + i] := args[i];
      }
      assert merged[..] == attrs[..] + args[..];
      child := new ExportHandler(inner + [Derive.WithAttrs(args[..])], merged);
    }

    method WithGroup(name: string) returns (child: ExportHandler)
      ensures fresh(child) && child.attrs == attrs && child.inner == inner + [Derive.WithGroup(name)]
    {
      child := new ExportHandler(inner + [Derive.WithGroup(name)], attrs);
    }
  }

  // The attributes given on the way from a root to a handler.
  function Accumulated(path: seq<Derive>): seq<Attr> {
    if path == [] then []
    else Accumulated(path[..|path| - 1]) + if Last(path).WithAttrs? then Last(path).attrs else []
  }

  lemma {:induction false} AccumulatedConcat(a: seq<Derive>, b: seq<Derive>)
    ensures Accumulated(a + b) == Accumulated(a) + Accumulated(b)
  {
    if b == [] {
      assert a + b == a;
    } else {
      var init := b[..|b| - 1];
      AccumulatedConcat(a, init);
      assert (a + b)[..|a + b| - 1] == a + init;
      var tail := if Last(b).WithAttrs? then Last(b).attrs else [];
      assert (Accumulated(a) + Accumulated(init)) + tail == Accumulated(a) + (Accumulated(init) + tail);
    }
  }

  // A derivation tree: node 0 is the root, and node k + 1 is derived from node tree[k].0 by tree[k].1.
  ghost predicate IsTree(tree: seq<(nat, Derive)>) {
    forall k :: 0 <= k < |tree| ==> tree[k].0 <= k
  }

  function PathTo(tree: seq<(nat, Derive)>, k: nat): seq<Derive>
    requires k <= |tree| && IsTree(tree)
  {
    if k == 0 then [] else PathTo(tree, tree[k - 1].0) + [tree[k - 1].1]
  }

  // Any chain of derivations is a tree.
  lemma {:induction false} ChainIsTree(path: seq<Derive>) returns (tree: seq<(nat, Derive)>)
    ensures |tree| == |path| && IsTree(tree) && PathTo(tree, |path|) == path
  {
    if path == [] {
      tree := [];
    } else {
      var n := |path| - 1;
      var before := ChainIsTree(path[..n]);
      tree := before + [(n, path[n])];
      assert tree[..n] == before;
      PathToPrefix(tree, n, n);
      assert path[..n] + [path[n]] == path;
    }
  }

  lemma {:induction false} PathToPrefix(tree: seq<(nat, Derive)>, n: nat, k: nat)
    requires IsTree(tree) && k <= n <= |tree|
    ensures PathTo(tree[..n], k) == PathTo(tree, k)
  {
    if k > 0 {
      PathToPrefix(tree, n, tree[k - 1].0);
    }
  }

  ghost predicate NodeOk(root: ExportHandler, node: ExportHandler, path: seq<Derive>)
    reads root.attrs, node.attrs
  {
    node.attrs[..] == root.attrs[..] + Accumulated(path) && node.inner == root.inner + path
  }

  ghost predicate TreeOk(root: ExportHandler, nodes: seq<ExportHandler>, tree: seq<(nat, Derive)>)
    reads root.attrs, set i | 0 <= i < |nodes| :: nodes[i].attrs
  {
    IsTree(tree) && |nodes| == |tree| + 1 &&
    forall k :: 0 <= k < |nodes| ==> NodeOk(root, nodes[k], PathTo(tree, k))
  }

  lemma TreeOkAppend(root: ExportHandler, nodes: seq<ExportHandler>, child: ExportHandler,
                     tree: seq<(nat, Derive)>, n: nat)
    requires IsTree(tree) && n < |tree| && TreeOk(root, nodes, tree[..n])
    requires NodeOk(root, child, PathTo(tree, n + 1))
    ensures TreeOk(root, nodes + [child], tree[..n + 1])
  {
    var more := nodes + [child];
    PathToPrefix(tree, n + 1, n + 1);
    forall k | 0 <= k < |more|
      ensures NodeOk(root, more[k], PathTo(tree[..n + 1], k))
    {
      if k <= n {
        assert more[k] == nodes[k];
        OldNodeOk(root, nodes, tree, n, k);
      }
    }
  }

  lemma OldNodeOk(root: ExportHandler, nodes: seq<ExportHandler>, tree: seq<(nat, Derive)>, n: nat, k: nat)
    requires IsTree(tree) && k <= n < |tree| && TreeOk(root, nodes, tree[..n])
    ensures NodeOk(root, nodes[k], PathTo(tree[..n + 1], k))
  {
    PathToPrefix(tree, n, k);
    PathToPrefix(tree, n + 1, k);
  }

  // Deriving handlers in any order and from any handlers, node k accumulates the attributes on its
  // own path only. Nothing that existed before is written.
  method GrowTree(root: ExportHandler, tree: seq<(nat, Derive)>) returns (nodes: seq<ExportHandler>)
    requires IsTree(tree)
    ensures nodes != [] && nodes[0] == root && TreeOk(root, nodes, tree)
    ensures forall k :: 0 <= k < |tree| ==> Extends(nodes[tree[k].0], nodes[k + 1], tree[k].1)
  {
    nodes := [root];
    assert NodeOk(root, root, []) by {
      assert root.attrs[..] + [] == root.attrs[..] && root.inner + [] == root.inner;
    }
    var n := 0;
    while n < |tree|
      invariant 0 <= n <= |tree| && |nodes| == n + 1 && nodes[0] == root
      invariant TreeOk(root, nodes, tree[..n])
      decreases |tree| - n
    {
      PathToPrefix(tree, n, tree[n].0);
      var child := AddNode(root, nodes[tree[n].0], tree, n);
      TreeOkAppend(root, nodes, child, tree, n);
      nodes := nodes + [child];
      n := n + 1;
    }
    assert tree[..n] == tree;
    forall k | 0 <= k < |tree|
      ensures Extends(nodes[tree[k].0], nodes[k + 1], tree[k].1)
    {
      ChildExtends(root, nodes, tree, k);
    }
  }

  // A child has its parent's attributes, followed by those of its own derivation.
  ghost predicate Extends(parent: ExportHandler, child: ExportHandler, op: Derive)
    reads parent.attrs, child.attrs
  {
    && child.attrs[..] == parent.attrs[..] + (match op case WithAttrs(attrs) => attrs case WithGroup(_) => [])
    && child.inner == parent.inner + [op]
  }

  lemma ChildExtends(root: ExportHandler, nodes: seq<ExportHandler>, tree: seq<(nat, Derive)>, k: nat)
    requires IsTree(tree) && k < |tree| && TreeOk(root, nodes, tree)
    ensures Extends(nodes[tree[k].0], nodes[k + 1], tree[k].1)
  {
    assert NodeOk(root, nodes[tree[k].0], PathTo(tree, tree[k].0)) && NodeOk(root, nodes[k + 1], PathTo(tree, k + 1));
    AccumulatedNext(PathTo(tree, tree[k].0), tree[k].1);
  }

  method AddNode(root: ExportHandler, parent: ExportHandler, tree: seq<(nat, Derive)>, n: nat)
    returns (child: ExportHandler)
    requires IsTree(tree) && n < |tree| && NodeOk(root, parent, PathTo(tree, tree[n].0))
    ensures NodeOk(root, child, PathTo(tree, n + 1))
  {
    child := DeriveFrom(parent, tree[n].1);
    ChildOk(root, parent, child, PathTo(tree, tree[n].0), tree[n].1);
  }

  lemma ChildOk(root: ExportHandler, parent: ExportHandler, child: ExportHandler, path: seq<Derive>, op: Derive)
    requires NodeOk(root, parent, path)
    requires child.attrs[..] == parent.attrs[..] + Accumulated([op]) && child.inner == parent.inner + [op]
    ensures NodeOk(root, child, path + [op])
  {
    AccumulatedConcat(path, [op]);
    assert (root.attrs[..] + Accumulated(path)) + Accumulated([op])
        == root.attrs[..] + (Accumulated(path) + Accumulated([op]));
  }

  method DeriveFrom(parent: ExportHandler, op: Derive) returns (child: ExportHandler)
    ensures fresh(child) && child.attrs[..] == parent.attrs[..] + Accumulated([op])
    ensures child.inner == parent.inner + [op]
  {
    assert [op][..0] == [];
    match op {
      case WithAttrs(args) =>
        var given := new Attr[|args|](i requires 0 <= i < |args| => args[i]);
        assert given[..] == args;
        child := parent.WithAttrs(given);
      case WithGroup(name) =>
        child := parent.WithGroup(name);
    }
  }

  lemma AccumulatedNext(path: seq<Derive>, op: Derive)
    ensures Accumulated(path + [op]) == Accumulated(path) + if op.WithAttrs? then op.attrs else []
  {
    assert (path + [op])[..|path|] == path;
  }

  // Chained WithAttrs calls export the same as one call on the concatenation, and a group in
  // between does not nest the exported attributes.
  lemma ChainingIsConcatenation(path: seq<Derive>, a: seq<Attr>, name: string, b: seq<Attr>)
    ensures Accumulated(path + [WithAttrs(a)] + [WithAttrs(b)]) == Accumulated(path + [WithAttrs(a + b)])
    ensures Accumulated(path + [WithAttrs(a)] + [WithGroup(name)] + [WithAttrs(b)])
         == Accumulated(path + [WithAttrs(a + b)])
  {
    AccumulatedNext(path, WithAttrs(a));
    AccumulatedNext(path + [WithAttrs(a)], WithAttrs(b));
    AccumulatedNext(path + [WithAttrs(a)], WithGroup(name));
    AccumulatedNext(path + [WithAttrs(a)] + [WithGroup(name)], WithAttrs(b));
    AccumulatedNext(path, WithAttrs(a + b));
    assert (Accumulated(path) + a) + b == Accumulated(path) + (a + b);
  }

  lemma AccumulatedOne(op: Derive)
    ensures Accumulated([op]) == if op.WithAttrs? then op.attrs else []
  {
    assert [op][..0] == [];
  }

  // The logger.

  function TraceAttrs(ctx: Option<TraceContext>): seq<Attr> {
    match ctx
    case None => []
    case Some(sc) =>
      [Attr("trace_id", sc.traceID), Attr("span_id", sc.spanID), Attr("trace_flags", sc.flags)]
  }

  method NewWithExporter(serviceName: string, serviceVersion: string) returns (root: ExportHandler)
    ensures root.attrs[..] == [Attr("service.name", serviceName), Attr("service.version", serviceVersion)]
    ensures root.inner == [WithAttrs(root.attrs[..])]
  {
    var none := new Attr[0];
    var combined := new ExportHandler([], none);
    root := DeriveFrom(combined,
                       WithAttrs([Attr("service.name", serviceName), Attr("service.version", serviceVersion)]));
    AccumulatedOne(WithAttrs([Attr("service.name", serviceName), Attr("service.version", serviceVersion)]));
    assert none[..] == [];
  }

  // Any logger derived from NewWithExporter: a record handled successfully exports the message,
  // then the service, the attributes of its own derivations, the trace fields and the call's own
  // fields, each layer over the ones before.
  method Log(root: ExportHandler, tree: seq<(nat, Derive)>, k: nat, ctx: Option<TraceContext>, level: string,
             msg: string, args: seq<Attr>, innerOk: bool, now: int)
    returns (exported: Option<LogEntry>)
    requires IsTree(tree) && k <= |tree|
    ensures exported.Some? <==> innerOk
    ensures innerOk ==>
              exported.value.time == now && exported.value.level == level && exported.value.message == msg
    ensures innerOk && ctx.None? ==>
              exported.value.attrs
                == map["msg" := msg] + Merge(root.attrs[..]) + Merge(Accumulated(PathTo(tree, k))) + Merge(args)
    ensures innerOk && ctx.Some? ==>
              exported.value.attrs
                == map["msg" := msg] + Merge(root.attrs[..]) + Merge(Accumulated(PathTo(tree, k)))
                   + map["trace_id" := ctx.value.traceID, "span_id" := ctx.value.spanID,
                         "trace_flags" := ctx.value.flags]
                   + Merge(args)
  {
    var nodes := GrowTree(root, tree);
    assert NodeOk(root, nodes[k], PathTo(tree, k));
    exported := nodes[k].Handle(Record(Some(now), level, msg, TraceAttrs(ctx) + args), innerOk, now);
    LogLayers(msg, root.attrs[..], Accumulated(PathTo(tree, k)), ctx, args);
  }

  lemma LogLayers(msg: string, root: seq<Attr>, path: seq<Attr>, ctx: Option<TraceContext>, args: seq<Attr>)
    ensures var base := map["msg" := msg] + Merge(root) + Merge(path);
      Merge([Attr("msg", msg)] + (root + path) + (TraceAttrs(ctx) + args)) == match ctx
        case None => base + Merge(args)
        case Some(sc) =>
          base + map["trace_id" := sc.traceID, "span_id" := sc.spanID, "trace_flags" := sc.flags] + Merge(args)
  {
    MergeLayers(msg, root, path, TraceAttrs(ctx), args);
    TraceLayer(ctx);
    AddNothing(map["msg" := msg] + Merge(root) + Merge(path));
  }

  lemma AddNothing<K, V>(m: map<K, V>)
    ensures m + map[] == m
  {
  }

  // Without a valid span context there is no trace field; otherwise there are three.
  lemma TraceLayer(ctx: Option<TraceContext>)
    ensures Merge(TraceAttrs(ctx)) == match ctx
      case None => map[]
      case Some(sc) => map["trace_id" := sc.traceID, "span_id" := sc.spanID, "trace_flags" := sc.flags]
  {
    if ctx.Some? {
      var t := TraceAttrs(ctx);
      assert t == [t[0]] + [t[1]] + [t[2]] && [t[0]] == [] + [t[0]];
      MergeAppend([], t[0]);
      MergeAppend([t[0]], t[1]);
      MergeAppend([t[0]] + [t[1]], t[2]);
    }
  }

  lemma MergeMessage(msg: string)
    ensures Merge([Attr("msg", msg)]) == map["msg" := msg]
  {
    MergeAppend([], Attr("msg", msg));
    assert [] + [Attr("msg", msg)] == [Attr("msg", msg)];
  }

  lemma MergeLayers(msg: string, root: seq<Attr>, path: seq<Attr>, trace: seq<Attr>, args: seq<Attr>)
    ensures Merge([Attr("msg", msg)] + (root + path) + (trace + args))
         == map["msg" := msg] + Merge(root) + Merge(path) + Merge(trace) + Merge(args)
  {
    var m := [Attr("msg", msg)];
    MergeConcat(m + (root + path), trace + args);
    MergeConcat(m, root + path);
    MergeConcat(root, path);
    MergeConcat(trace, args);
    MergeMessage(msg);
    UnionAssoc(Merge(m), Merge(root), Merge(path), Merge(trace), Merge(args));
  }

  lemma UnionAssoc<K, V>(a: map<K, V>, b: map<K, V>, c: map<K, V>, d: map<K, V>, e: map<K, V>)
    ensures a + (b + c) + (d + e) == a + b + c + d + e
  {
  }

  // Fields of the call hide trace fields of the same name; nothing else can.
  lemma TraceFieldsVisible(base: map<string, string>, sc: TraceContext, args: seq<Attr>)
    ensures var m := base + map["trace_id" := sc.traceID, "span_id" := sc.spanID, "trace_flags" := sc.flags]
                     + Merge(args);
      && "trace_id" in m && "span_id" in m && "trace_flags" in m
      && (m["trace_id"] == sc.traceID || exists i :: 0 <= i < |args| && args[i].key == "trace_id")
      && (m["span_id"] == sc.spanID || exists i :: 0 <= i < |args| && args[i].key == "span_id")
      && (m["trace_flags"] == sc.flags || exists i :: 0 <= i < |args| && args[i].key == "trace_flags")
  {
    OnlyGivenKeys(args, "trace_id");
    OnlyGivenKeys(args, "span_id");
    OnlyGivenKeys(args, "trace_flags");
  }
}
