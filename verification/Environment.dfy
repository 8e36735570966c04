/**
  Configuration from OTEL_* variables: the comma list of exporters with the list `New` derives from
  it, and the key=value parser of OTEL_RESOURCE_ATTRIBUTES.
*/
module Environment {
  import opened Dicts
  import opened Options
  import opened Seqs

  // Text: the library functions the parsers call.

  // unicode.IsSpace
  predicate IsSpace(c: char) {
    || '\t' <= c <= '\r' || c == ' ' || c == '\U{0085}' || c == '\U{00A0}' || c == '\U{1680}'
    || '\U{2000}' <= c <= '\U{200A}' || c == '\U{2028}' || c == '\U{2029}' || c == '\U{202F}'
    || c == '\U{205F}' || c == '\U{3000}'
  }

  function TrimLeft(s: string): string {
    if s != "" && IsSpace(s[0]) then TrimLeft(s[1..]) else s
  }

  function TrimRight(s: string): string {
    if s != "" && IsSpace(Last(s)) then TrimRight(s[..|s| - 1]) else s
  }

  function TrimSpace(s: string): string {
    TrimRight(TrimLeft(s))
  }

  // strings.Split(s, ",")
  function Split(s: string): (parts: seq<string>)
    ensures parts != []
  {
    if s == "" then [""]
    else
      var rest := Split(s[1..]);
      if s[0] == ',' then [""] + rest else [[s[0]] + rest[0]] + rest[1..]
  }

  // strings.Cut(s, "="), when "=" occurs
  function Cut(s: string): Option<(string, string)> {
    if s == "" then None
    else if s[0] == '=' then Some(("", s[1..]))
    else match Cut(s[1..])
      case None => None
      case Some(kv) => Some(([s[0]] + kv.0, kv.1))
  }

  // strings.ToLower on the letters of the recognised names. No other letter maps to one of these.
  function Lower(s: string): string {
    seq(|s|, i requires 0 <= i < |s| => if 'A' <= s[i] <= 'Z' then (s[i] as int + 32) as char else s[i])
  }

  lemma {:induction false} SplitJoin(a: string, b: string)
    ensures Split(a + "," + b) == Split(a) + Split(b)
  {
    if a == "" {
      assert a + "," + b == "," + b;
      assert ("," + b)[1..] == b;
    } else {
      assert (a + "," + b)[1..] == a[1..] + "," + b;
      SplitJoin(a[1..], b);
    }
  }

  lemma {:induction false} SplitNoComma(s: string)
    requires ',' !in s
    ensures Split(s) == [s]
  {
    if s != "" {
      SplitNoComma(s[1..]);
      assert [s[0]] + s[1..] == s;
    }
  }

  lemma {:induction false} PartsHaveNoComma(s: string)
    ensures forall p :: p in Split(s) ==> ',' !in p
  {
    if s != "" {
      PartsHaveNoComma(s[1..]);
      assert Split(s[1..])[0] in Split(s[1..]);
    }
  }

  lemma {:induction false} TrimLeftFacts(s: string)
    ensures TrimLeft(s) == "" || !IsSpace(TrimLeft(s)[0])
    ensures forall c :: c in TrimLeft(s) ==> c in s
    ensures s == "" || !IsSpace(s[0]) ==> TrimLeft(s) == s
  {
    if s != "" && IsSpace(s[0]) {
      TrimLeftFacts(s[1..]);
    }
  }

  lemma {:induction false} TrimRightFacts(s: string)
    ensures TrimRight(s) == "" || !IsSpace(Last(TrimRight(s)))
    ensures TrimRight(s) <= s
    ensures s == "" || !IsSpace(Last(s)) ==> TrimRight(s) == s
  {
    if s != "" && IsSpace(Last(s)) {
      TrimRightFacts(s[..|s| - 1]);
    }
  }

  lemma TrimSpaceFacts(s: string)
    ensures var t := TrimSpace(s);
      && (t != "" ==> !IsSpace(t[0]) && !IsSpace(Last(t)))
      && (forall c :: c in t ==> c in s)
      && (s != "" && !IsSpace(s[0]) && !IsSpace(Last(s)) ==> t == s)
  {
    TrimLeftFacts(s);
    TrimRightFacts(TrimLeft(s));
  }

  // Padding.

  predicate Blank(s: string) {
    forall i :: 0 <= i < |s| ==> IsSpace(s[i])
  }

  // The white space characters of Unicode, by code point.
  lemma SpaceCodes(c: char)
    ensures IsSpace(c) <==>
            || c as int in {9, 10, 11, 12, 13, 32, 0x85, 0xA0, 0x1680, 0x2028, 0x2029, 0x202F, 0x205F, 0x3000}
            || 0x2000 <= c as int <= 0x200A
  {
  }

  // Text that begins and ends with something else, or is empty.
  predicate Tight(s: string) {
    s == "" || (!IsSpace(s[0]) && !IsSpace(Last(s)))
  }

  lemma {:induction false} TrimLeftBlank(l: string, s: string)
    requires Blank(l)
    ensures TrimLeft(l + s) == TrimLeft(s)
  {
    if l == "" {
      assert l + s == s;
    } else {
      assert (l + s)[1..] == l[1..] + s;
      TrimLeftBlank(l[1..], s);
    }
  }

  lemma {:induction false} TrimRightBlank(s: string, r: string)
    requires Blank(r)
    ensures TrimRight(s + r) == TrimRight(s)
  {
    if r == "" {
      assert s + r == s;
    } else {
      assert (s + r)[..|s + r| - 1] == s + r[..|r| - 1];
      TrimRightBlank(s, r[..|r| - 1]);
    }
  }

  // What is left of a padded text.
  lemma TrimPadded(l: string, s: string, r: string)
    requires Blank(l) && Tight(s) && Blank(r)
    ensures TrimSpace(l + s + r) == s
  {
    assert l + s + r == l + (s + r);
    TrimLeftBlank(l, s + r);
    if s == "" {
      assert s + r == r + "";
      TrimLeftBlank(r, "");
    } else {
      TrimLeftFacts(s + r);
      TrimRightBlank(s, r);
      TrimRightFacts(s);
    }
  }

  // Every text is a padded one.
  lemma {:induction false} Unpad(t: string) returns (l: string, s: string, r: string)
    ensures t == l + s + r && Blank(l) && Tight(s) && Blank(r)
  {
    if t != "" && IsSpace(t[0]) {
      l, s, r := Unpad(t[1..]);
      l := [t[0]] + l;
    } else if t != "" && IsSpace(Last(t)) {
      l, s, r := Unpad(t[..|t| - 1]);
      r := r + [Last(t)];
    } else {
      l, s, r := "", t, "";
    }
  }

  lemma TrimMorePadded(l: string, t: string, r: string)
    requires Blank(l) && Blank(r)
    ensures TrimSpace(l + t + r) == TrimSpace(t)
  {
    var l', s, r' := Unpad(t);
    TrimPadded(l', s, r');
    TrimPadded(l + l', s, r' + r);
    assert l + t + r == (l + l') + s + (r' + r);
  }

  lemma PaddedHasNoComma(l: string, s: string, r: string)
    requires Blank(l) && ',' !in s && Blank(r)
    ensures ',' !in l + s + r
  {
  }

  lemma {:induction false} CutFacts(s: string)
    ensures match Cut(s)
      case None => '=' !in s
      case Some(kv) => s == kv.0 + "=" + kv.1 && '=' !in kv.0
  {
    if s != "" && s[0] != '=' {
      CutFacts(s[1..]);
    }
  }

  lemma {:induction false} CutPrinted(k: string, v: string)
    requires '=' !in k
    ensures Cut(k + "=" + v) == Some((k, v))
  {
    var s := k + "=" + v;
    if k == "" {
      assert s[1..] == v;
    } else {
      assert s[1..] == k[1..] + "=" + v;
      CutPrinted(k[1..], v);
      assert [k[0]] + k[1..] == k;
    }
  }

  // Resource attributes.

  function ParsePair(pair: string): Option<(string, string)> {
    match Cut(TrimSpace(pair))
    case Some(kv) => if kv.0 != "" then Some(kv) else None
    case None => None
  }

  function ParsePairs(m: map<string, string>, pairs: seq<string>): map<string, string> {
    if pairs == [] then m
    else
      var before := ParsePairs(m, pairs[..|pairs| - 1]);
      match ParsePair(Last(pairs))
      case Some(kv) => before[kv.0 := kv.1]
      case None => before
  }

  function Parse(m: map<string, string>, v: string): map<string, string> {
    ParsePairs(m, Split(v))
  }

  lemma {:induction false} ParsePairsConcat(m: map<string, string>, a: seq<string>, b: seq<string>)
    ensures ParsePairs(m, a + b) == ParsePairs(ParsePairs(m, a), b)
  {
    if b == [] {
      assert a + b == a;
    } else {
      assert (a + b)[..|a + b| - 1] == a + b[..|b| - 1];
      ParsePairsConcat(m, a, b[..|b| - 1]);
    }
  }

  // Parsing two comma-joined texts is parsing one and then the other into the same map.
  lemma ParseConcat(m: map<string, string>, a: string, b: string)
    ensures Parse(m, a + "," + b) == Parse(Parse(m, a), b)
  {
    SplitJoin(a, b);
    ParsePairsConcat(m, Split(a), Split(b));
  }

  // The pairs that survive being written into the variable.
  predicate Writable(k: string, v: string) {
    && k != "" && ',' !in k && '=' !in k && !IsSpace(k[0])
    && ',' !in v && (v == "" || !IsSpace(Last(v)))
  }

  function PrintPair(kv: (string, string)): string {
    kv.0 + "=" + kv.1
  }

  function Print(pairs: seq<(string, string)>): string {
    if pairs == [] then ""
    else if |pairs| == 1 then PrintPair(pairs[0])
    else PrintPair(pairs[0]) + "," + Print(pairs[1..])
  }

  function MapOf(pairs: seq<(string, string)>): map<string, string> {
    if pairs == [] then map[] else map[pairs[0].0 := pairs[0].1] + MapOf(pairs[1..])
  }

  lemma PairRoundTrip(k: string, v: string)
    requires Writable(k, v)
    ensures Split(PrintPair((k, v))) == [PrintPair((k, v))]
    ensures ParsePair(PrintPair((k, v))) == Some((k, v))
  {
    var s := PrintPair((k, v));
    SplitNoComma(s);
    assert Last(s) == if v == "" then '=' else Last(v);
    TrimSpaceFacts(s);
    CutPrinted(k, v);
  }

  // Whatever the parser stores could have been written.
  lemma ParsedIsWritable(pair: string)
    requires ',' !in pair && ParsePair(pair).Some?
    ensures Writable(ParsePair(pair).value.0, ParsePair(pair).value.1)
  {
    var t := TrimSpace(pair);
    TrimSpaceFacts(pair);
    CutFacts(t);
    var kv := ParsePair(pair).value;
    assert t == kv.0 + "=" + kv.1;
    assert t[0] == kv.0[0];
    assert kv.1 != "" ==> Last(t) == Last(kv.1);
    assert forall c :: c in kv.0 ==> c in t;
    assert forall c :: c in kv.1 ==> c in t;
  }

  ghost predicate AllWritable(m: map<string, string>) {
    forall k :: k in m ==> Writable(k, m[k])
  }

  lemma {:induction false} ParsedAreWritable(m: map<string, string>, pairs: seq<string>)
    requires AllWritable(m) && forall p :: p in pairs ==> ',' !in p
    ensures AllWritable(ParsePairs(m, pairs))
  {
    if pairs != [] {
      assert forall p :: p in pairs[..|pairs| - 1] ==> p in pairs;
      ParsedAreWritable(m, pairs[..|pairs| - 1]);
      if ParsePair(Last(pairs)).Some? {
        ParsedIsWritable(Last(pairs));
      }
    }
  }

  lemma PrintedPairIsAdded(m: map<string, string>, kv: (string, string))
    requires Writable(kv.0, kv.1)
    ensures Parse(m, PrintPair(kv)) == m[kv.0 := kv.1]
  {
    PairRoundTrip(kv.0, kv.1);
    ParseOne(m, PrintPair(kv));
  }

  lemma UpdateThenAdd(m: map<string, string>, pairs: seq<(string, string)>)
    requires pairs != []
    ensures m[pairs[0].0 := pairs[0].1] + MapOf(pairs[1..]) == m + MapOf(pairs)
  {
  }

  // Printing pairs and parsing the text adds exactly those pairs to any map.
  lemma {:induction false} PrintedAreAdded(m: map<string, string>, pairs: seq<(string, string)>)
    requires AllPairsWritable(pairs)
    ensures Parse(m, Print(pairs)) == m + MapOf(pairs)
    decreases pairs
  {
    if pairs == [] {
      ParseEmpty(m);
    } else {
      PrintedPairIsAdded(m, pairs[0]);
      UpdateThenAdd(m, pairs);
      if |pairs| > 1 {
        ParseConcat(m, PrintPair(pairs[0]), Print(pairs[1..]));
        PrintedAreAdded(m[pairs[0].0 := pairs[0].1], pairs[1..]);
      } else {
        assert MapOf(pairs[1..]) == map[];
      }
    }
  }

  lemma ParseEmpty(m: map<string, string>)
    ensures Parse(m, "") == m
  {
    ParseOne(m, "");
  }

  lemma ParseOne(m: map<string, string>, s: string)
    requires Split(s) == [s]
    ensures Parse(m, s) == match ParsePair(s) case Some(kv) => m[kv.0 := kv.1] case None => m
  {
    var parts := [s];
    assert parts[..|parts| - 1] == [] && Last(parts) == s;
    assert ParsePairs(m, []) == m;
    assert Parse(m, s) == ParsePairs(m, parts);
  }

  // White space around the text of a pair makes no difference.
  lemma PaddingIsIgnored(m: map<string, string>, l: string, s: string, r: string)
    requires Blank(l) && ',' !in s && Blank(r)
    ensures Parse(m, l + s + r) == Parse(m, s)
  {
    PaddedHasNoComma(l, s, r);
    SplitNoComma(l + s + r);
    SplitNoComma(s);
    ParseOne(m, l + s + r);
    ParseOne(m, s);
    TrimMorePadded(l, s, r);
  }

  // i is the position of the first '=' of s, or its length.
  predicate FirstEquals(s: string, i: nat) {
    i <= |s| && '=' !in s[..i] && (i < |s| ==> s[i] == '=')
  }

  // One item of the variable, with white space around it: the text before its first '=' is set to the
  // text after it, if there is a '=' and something before it; otherwise nothing changes.
  lemma ParseOneItem(m: map<string, string>, l: string, s: string, r: string, i: nat)
    requires Blank(l) && Tight(s) && ',' !in s && Blank(r) && FirstEquals(s, i)
    ensures Parse(m, l + s + r) == if 0 < i < |s| then m[s[..i] := s[i + 1..]] else m
  {
    PaddedHasNoComma(l, s, r);
    SplitNoComma(l + s + r);
    ParseOne(m, l + s + r);
    TrimPadded(l, s, r);
    CutAt(s, i);
  }

  lemma CutAt(s: string, i: nat)
    requires FirstEquals(s, i)
    ensures Cut(s) == if i < |s| then Some((s[..i], s[i + 1..])) else None
  {
    if i < |s| {
      assert s == s[..i] + "=" + s[i + 1..];
      CutPrinted(s[..i], s[i + 1..]);
    } else {
      assert s[..i] == s;
      NoCut(s);
    }
  }

  lemma {:induction false} NoCut(s: string)
    requires '=' !in s
    ensures Cut(s).None?
  {
    if s != "" {
      NoCut(s[1..]);
    }
  }

  ghost predicate DistinctKeys(pairs: seq<(string, string)>) {
    forall i, j :: 0 <= i < j < |pairs| ==> pairs[i].0 != pairs[j].0
  }

  lemma {:induction false} MapOfHas(pairs: seq<(string, string)>, i: nat)
    requires DistinctKeys(pairs) && i < |pairs|
    ensures pairs[i].0 in MapOf(pairs) && MapOf(pairs)[pairs[i].0] == pairs[i].1
  {
    if i == 0 {
      MapOfKeys(pairs[1..], pairs[0].0);
    } else {
      MapOfHas(pairs[1..], i - 1);
    }
  }

  lemma {:induction false} MapOfKeys(pairs: seq<(string, string)>, k: string)
    requires forall i :: 0 <= i < |pairs| ==> pairs[i].0 != k
    ensures k !in MapOf(pairs)
  {
    if pairs != [] {
      MapOfKeys(pairs[1..], k);
    }
  }

  ghost predicate AllPairsWritable(pairs: seq<(string, string)>) {
    forall i :: 0 <= i < |pairs| ==> Writable(pairs[i].0, pairs[i].1)
  }

  // A map, printed in any order and parsed, comes back exactly when all its pairs are writable.
  lemma RoundTrip(pairs: seq<(string, string)>)
    requires DistinctKeys(pairs)
    ensures Parse(map[], Print(pairs)) == MapOf(pairs) <==> AllPairsWritable(pairs)
  {
    if AllPairsWritable(pairs) {
      PrintedAreAdded(map[], pairs);
      assert map[] + MapOf(pairs) == MapOf(pairs);
    }
    ParseResultIsWritable(Print(pairs));
    if AllWritable(MapOf(pairs)) {
      WritableMap(pairs);
    }
  }

  lemma WritableMap(pairs: seq<(string, string)>)
    requires DistinctKeys(pairs) && AllWritable(MapOf(pairs))
    ensures AllPairsWritable(pairs)
  {
    forall i | 0 <= i < |pairs|
      ensures Writable(pairs[i].0, pairs[i].1)
    {
      MapOfHas(pairs, i);
    }
  }

  lemma ParseResultIsWritable(v: string)
    ensures AllWritable(Parse(map[], v))
  {
    PartsHaveNoComma(v);
    ParsedAreWritable(map[], Split(v));
  }

  // Exporters.

  type ExporterType = string

  const OTLP: ExporterType := "otlp"
  const PROMETHEUS: ExporterType := "prometheus"
  const NOOP: ExporterType := "noop"
  const STDOUT: ExporterType := "stdout"

  function Token(part: string): Option<ExporterType> {
    var name := Lower(TrimSpace(part));
    if name == "otlp" then Some(OTLP)
    else if name == "prometheus" then Some(PROMETHEUS)
    else if name == "none" then Some(NOOP)
    else if name == "stdout" then Some(STDOUT)
    else None
  }

  function Tokens(parts: seq<string>): seq<ExporterType> {
    if parts == [] then []
    else
      var before := Tokens(parts[..|parts| - 1]);
      match Token(Last(parts))
      case Some(e) => before + [e]
      case None => before
  }

  // The recognised names of a comma list, in order.
  function Recognised(v: string): seq<ExporterType> {
    Tokens(Split(v))
  }

  lemma {:induction false} TokensConcat(a: seq<string>, b: seq<string>)
    ensures Tokens(a + b) == Tokens(a) + Tokens(b)
  {
    if b == [] {
      assert a + b == a;
    } else {
      assert (a + b)[..|a + b| - 1] == a + b[..|b| - 1];
      TokensConcat(a, b[..|b| - 1]);
    }
  }

  lemma RecognisedConcat(a: string, b: string)
    ensures Recognised(a + "," + b) == Recognised(a) + Recognised(b)
  {
    SplitJoin(a, b);
    TokensConcat(Split(a), Split(b));
  }

  // The letters of a lower-case name, each in lower or upper case.
  predicate Spells(w: string, name: string) {
    && |w| == |name|
    && forall i :: 0 <= i < |w| ==> w[i] == name[i] || ('A' <= w[i] <= 'Z' && w[i] as int + 32 == name[i] as int)
  }

  predicate LowerCase(name: string) {
    forall i :: 0 <= i < |name| ==> 'a' <= name[i] <= 'z'
  }

  lemma LowerSpells(w: string, name: string)
    requires LowerCase(name)
    ensures Lower(w) == name <==> Spells(w, name)
  {
    if Spells(w, name) {
      assert forall i :: 0 <= i < |w| ==> Lower(w)[i] == name[i];
    }
    if Lower(w) == name {
      assert forall i :: 0 <= i < |w| ==> Lower(w)[i] == name[i];
    }
  }

  lemma RecognisedItem(v: string)
    requires ',' !in v
    ensures Recognised(v) == match Token(v) case Some(e) => [e] case None => []
  {
    SplitNoComma(v);
    assert [v][..0] == [];
  }

  // One item of the list, with white space around it: the four names in any mixture of cases mean
  // these exporters, and nothing else means anything.
  lemma OneName(l: string, w: string, r: string)
    requires Blank(l) && Tight(w) && ',' !in w && Blank(r)
    ensures Recognised(l + w + r)
         == if Spells(w, "otlp") then ["otlp"]
            else if Spells(w, "prometheus") then ["prometheus"]
            else if Spells(w, "none") then ["noop"]
            else if Spells(w, "stdout") then ["stdout"]
            else []
  {
    PaddedHasNoComma(l, w, r);
    RecognisedItem(l + w + r);
    TrimPadded(l, w, r);
    TokenSpells(l + w + r, w);
  }

  lemma TokenSpells(part: string, w: string)
    requires TrimSpace(part) == w
    ensures Token(part)
         == if Spells(w, "otlp") then Some("otlp")
            else if Spells(w, "prometheus") then Some("prometheus")
            else if Spells(w, "none") then Some("noop")
            else if Spells(w, "stdout") then Some("stdout")
            else None
  {
    LowerNames(w);
  }

  lemma LowerNames(w: string)
    ensures Lower(w) == "otlp" <==> Spells(w, "otlp")
    ensures Lower(w) == "prometheus" <==> Spells(w, "prometheus")
    ensures Lower(w) == "none" <==> Spells(w, "none")
    ensures Lower(w) == "stdout" <==> Spells(w, "stdout")
  {
    LowerSpells(w, "otlp");
    LowerSpells(w, "prometheus");
    LowerSpells(w, "none");
    LowerSpells(w, "stdout");
  }

  // The fields of Config these parsers touch. The map is shared with whoever holds the Config.
  datatype Config = Config(exporter: ExporterType, exporters: seq<ExporterType>, resourceAttributes: Dict?)

  // os.Getenv: an unset variable reads as "".
  function Getenv(env: map<string, string>, name: string): string {
    if name in env then env[name] else ""
  }

  function WithExporters(cfg: Config, found: seq<ExporterType>): Config {
    if |found| == 1 then cfg.(exporter := found[0])
    else if |found| > 1 then cfg.(exporters := found)
    else cfg
  }

  ghost function Contents(cfg: Config): map<string, string>
    reads cfg.resourceAttributes
  {
    if cfg.resourceAttributes == null then map[] else cfg.resourceAttributes.m
  }

  // The exporter and resource attribute parts of ConfigFromEnv. The returned Config is a copy, but a
  // map that the caller supplied is written in place.
  method ConfigFromEnv(cfg: Config, env: map<string, string>) returns (out: Config)
    modifies if cfg.resourceAttributes == null then {} else {cfg.resourceAttributes}
    ensures out.(resourceAttributes := null)
         == WithExporters(cfg, Recognised(Getenv(env, "OTEL_TRACES_EXPORTER"))).(resourceAttributes := null)
    ensures "OTEL_TRACES_EXPORTER" in env ==>
              var found := Recognised(env["OTEL_TRACES_EXPORTER"]);
              && out.exporter == (if |found| == 1 then found[0] else cfg.exporter)
              && out.exporters == (if |found| > 1 then found else cfg.exporters)
    ensures "OTEL_TRACES_EXPORTER" !in env ==> out.exporter == cfg.exporter && out.exporters == cfg.exporters
    ensures "OTEL_RESOURCE_ATTRIBUTES" in env ==>
              Contents(out) == Parse(old(Contents(cfg)), env["OTEL_RESOURCE_ATTRIBUTES"])
    ensures "OTEL_RESOURCE_ATTRIBUTES" !in env ==> Contents(out) == old(Contents(cfg))
    ensures Contents(out) == Parse(old(Contents(cfg)), Getenv(env, "OTEL_RESOURCE_ATTRIBUTES"))
    ensures cfg.resourceAttributes != null ==>
              var given := Parse(map[], Getenv(env, "OTEL_RESOURCE_ATTRIBUTES"));
              cfg.resourceAttributes.m == old(cfg.resourceAttributes.m) <==>
                forall k :: k in given ==> k in old(cfg.resourceAttributes.m) && old(cfg.resourceAttributes.m)[k] == given[k]
    ensures if cfg.resourceAttributes != null then out.resourceAttributes == cfg.resourceAttributes
            else if Getenv(env, "OTEL_RESOURCE_ATTRIBUTES") == "" then out.resourceAttributes == null
            else out.resourceAttributes != null && fresh(out.resourceAttributes)
  {
    out := cfg;
    var v := Getenv(env, "OTEL_TRACES_EXPORTER");
    assert Recognised("") == [] by {
      assert [""][..0] == [];
    }
    if v != "" {
      var found := ParseExporters(v);
      if |found| == 1 {
        out := out.(exporter := found[0]);
      } else if |found| > 1 {
        out := out.(exporters := found);
      }
    }
    var attrs := Getenv(env, "OTEL_RESOURCE_ATTRIBUTES");
    ParseEmpty(Contents(cfg));
    CallerMapUnchangedIff(Contents(cfg), attrs);
    if attrs != "" {
      var dict: Dict;
      if out.resourceAttributes == null {
        dict := new Dict();
        out := out.(resourceAttributes := dict);
      } else {
        dict := out.resourceAttributes;
      }
      ParseAttributes(dict, attrs);
    }
  }

  // Parsing into a map is parsing into an empty one and putting the result over it.
  lemma {:induction false} ParsePairsIsUnion(m: map<string, string>, pairs: seq<string>)
    ensures ParsePairs(m, pairs) == m + ParsePairs(map[], pairs)
  {
    if pairs != [] {
      ParsePairsIsUnion(m, pairs[..|pairs| - 1]);
    }
  }

  // A map is left as it was exactly when it already holds every pair of the variable.
  lemma CallerMapUnchangedIff(m: map<string, string>, v: string)
    ensures Parse(m, v) == m <==> forall k :: k in Parse(map[], v) ==> k in m && m[k] == Parse(map[], v)[k]
  {
    ParsePairsIsUnion(m, Split(v));
    assert Parse(m, v) == m + Parse(map[], v);
  }

  // A map without "a", and the variable "a=b": the caller's own map has a new entry afterwards.
  method CallerMapIsWritten(dict: Dict) returns (out: Config)
    requires "a" !in dict.m
    modifies dict
    ensures out.resourceAttributes == dict && dict.m == old(dict.m)["a" := "b"] != old(dict.m)
  {
    assert Parse(dict.m, "a=b") == dict.m["a" := "b"] by {
      assert "a" + "=" + "b" == "a=b";
      PrintedPairIsAdded(dict.m, ("a", "b"));
    }
    out := ConfigFromEnv(Config(STDOUT, [], dict), map["OTEL_RESOURCE_ATTRIBUTES" := "a=b"]);
  }

  method ParseExporters(v: string) returns (found: seq<ExporterType>)
    ensures found == Recognised(v)
  {
    found := [];
    var parts := Split(v);
    var i := 0;
    while i < |parts|
      invariant 0 <= i <= |parts| && found == Tokens(parts[..i])
    {
      assert parts[..i + 1][..i] == parts[..i];
      var token := Token(parts[i]);
      if token.Some? {
        found := found + [token.value];
      }
      i := i + 1;
    }
    assert parts[..i] == parts;
  }

  lemma ParsePairsNext(m: map<string, string>, pairs: seq<string>, i: nat)
    requires i < |pairs|
    ensures var before := ParsePairs(m, pairs[..i]);
      ParsePairs(m, pairs[..i + 1])
        == match ParsePair(pairs[i]) case Some(kv) => before[kv.0 := kv.1] case None => before
  {
    assert pairs[..i + 1][..i] == pairs[..i];
  }

  method ParseAttributes(dict: Dict, v: string)
    modifies dict
    ensures dict.m == Parse(old(dict.m), v)
  {
    var pairs := Split(v);
    var i := 0;
    while i < |pairs|
      invariant 0 <= i <= |pairs| && dict.m == ParsePairs(old(dict.m), pairs[..i])
    {
      ParsePairsNext(old(dict.m), pairs, i);
      var kv := ParsePair(pairs[i]);
      if kv.Some? {
        dict.Put(kv.value.0, kv.value.1);
      }
      i := i + 1;
    }
    assert pairs[..i] == pairs;
  }

  // The exporter list that New hands to the tracer provider.
  function Effective(cfg: Config): seq<ExporterType> {
    if |cfg.exporters| > 0 then cfg.exporters else [cfg.exporter]
  }

  method EffectiveExporters(cfg: Config) returns (types: seq<ExporterType>)
    ensures types == Effective(cfg)
    ensures types == if cfg.exporters != [] then cfg.exporters else [cfg.exporter]
  {
    types := [];
    if |cfg.exporters| > 0 {
      for i := 0 to |cfg.exporters|
        invariant types == cfg.exporters[..i]
      {
        types := types + [cfg.exporters[i]];
      }
    } else {
      types := types + [cfg.exporter];
    }
  }

  // New exports to exactly the recognised names if there are several, or there is one and the
  // configured list was empty (or already that one name). A single name does not override a
  // configured list, although the variable is documented to override the configuration.
  lemma VariableDecides(cfg: Config, v: string)
    ensures Effective(WithExporters(cfg, Recognised(v))) == Recognised(v) <==>
            |Recognised(v)| > 1 || (|Recognised(v)| == 1 && cfg.exporters in {[], Recognised(v)})
  {
  }

  // The two steps together: the exporters of a provider built from the environment.
  method ExportersFromEnv(cfg: Config, env: map<string, string>) returns (types: seq<ExporterType>)
    modifies if cfg.resourceAttributes == null then {} else {cfg.resourceAttributes}
    ensures "OTEL_TRACES_EXPORTER" in env ==>
              var found := Recognised(env["OTEL_TRACES_EXPORTER"]);
              && types == (if |found| > 1 then found
                           else if cfg.exporters != [] then cfg.exporters
                           else if |found| == 1 then found
                           else [cfg.exporter])
              && (types == found <==> |found| > 1 || (|found| == 1 && cfg.exporters in {[], found}))
    ensures "OTEL_TRACES_EXPORTER" !in env ==>
              types == if cfg.exporters != [] then cfg.exporters else [cfg.exporter]
  {
    var out := ConfigFromEnv(cfg, env);
    types := EffectiveExporters(out);
  }

  lemma SingleNameIsIgnored(attrs: Dict?)
    ensures Recognised(" OTLP ") == [OTLP]
    ensures Effective(WithExporters(Config(STDOUT, [STDOUT], attrs), Recognised(" OTLP "))) == [STDOUT]
  {
    SplitNoComma(" OTLP ");
    assert [" OTLP "][..0] == [];
    assert TrimLeft(" OTLP ") == "OTLP ";
    assert TrimRight("OTLP ") == "OTLP";
    assert Lower("OTLP") == "otlp";
  }
}
