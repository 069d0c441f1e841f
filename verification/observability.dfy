/** The metrics endpoint: rendering a snapshot, and what a scraper reads back from the text. */
module Observability {
  import opened Text
  import opened Models
  import opened Trails
  import opened LedgerSpec
  import opened Histories
  import opened Metrics
  import opened Exposition

  /** The rendered part of an operational snapshot; `invalid` is the integrity scan's figure, when one was made. */
  datatype Snapshot = Snapshot(
    tenant: Option<string>, statuses: map<string, nat>, events: map<string, nat>, approvals: map<string, nat>,
    duplicates: nat, invalid: Option<nat>)

  const PREFIX := "agenttrustops_"
  const RUNS := PREFIX + "runs"
  const EVENTS := PREFIX + "events_total"
  const APPROVALS := PREFIX + "approvals"
  const DUPLICATES := PREFIX + "duplicate_retries_total"
  const INVALID := PREFIX + "event_chains_invalid"

  const RUNS_HELP := "Current governed " + "action runs by status."
  const EVENTS_HELP := "Durable action " + "events by type."
  const APPROVALS_HELP := "Approval records " + "by decision state."
  const DUPLICATES_HELP := "Duplicate invocations " + "suppressed without " + "regenerating " + "the event chain."
  const INVALID_HELP := "Invalid event chains " + "found by " + "the latest scan."

  // ---- Label escaping ----

  /** `value.replace(c, text)` for a one-character `c`. */
  function Replace(s: string, c: char, text: string): string {
    if s == "" then "" else (if s[0] == c then text else [s[0]]) + Replace(s[1..], c, text)
  }

  /** The three sequential replacements. */
  function EscapeLabel(value: string): string {
    Replace(Replace(Replace(value, '\\', "\\\\"), '\n', "\\n"), '"', "\\\"")
  }

  lemma {:induction false} ReplaceAppend(a: string, b: string, c: char, text: string)
    ensures Replace(a + b, c, text) == Replace(a, c, text) + Replace(b, c, text)
  {
    if a == "" {
      assert a + b == b;
    } else {
      assert (a + b)[1..] == a[1..] + b;
      ReplaceAppend(a[1..], b, c, text);
    }
  }

  lemma ReplaceOne(x: char, c: char, text: string)
    ensures Replace([x], c, text) == if x == c then text else [x]
  {
  }

  lemma ReplaceTwo(x: char, y: char, c: char, text: string)
    requires x != c && y != c
    ensures Replace([x, y], c, text) == [x, y]
  {
    ReplaceOne(y, c, text);
    assert [x, y][1..] == [y] && [x] + [y] == [x, y];
  }

  lemma EscapeOneChar(x: char)
    ensures EscapeLabel([x]) == EscapeChar(x)
  {
    ReplaceOne(x, '\\', "\\\\");
    ReplaceOne(x, '\n', "\\n");
    ReplaceOne(x, '"', "\\\"");
    ReplaceTwo('\\', '\\', '\n', "\\n");
    ReplaceTwo('\\', '\\', '"', "\\\"");
    ReplaceTwo('\\', 'n', '"', "\\\"");
  }

  lemma EscapeLabelAppend(a: string, b: string)
    ensures EscapeLabel(a + b) == EscapeLabel(a) + EscapeLabel(b)
  {
    hide Replace;
    var a1, b1 := Replace(a, '\\', "\\\\"), Replace(b, '\\', "\\\\");
    ReplaceAppend(a, b, '\\', "\\\\");
    ReplaceAppend(a1, b1, '\n', "\\n");
    ReplaceAppend(Replace(a1, '\n', "\\n"), Replace(b1, '\n', "\\n"), '"', "\\\"");
  }

  /** The sequence of whole-string replacements never escapes its own output: it is the one-pass escaping. */
  lemma {:induction false} SequentialIsOnePass(value: string)
    ensures EscapeLabel(value) == Escape(value)
  {
    if value != "" {
      assert value == [value[0]] + value[1..];
      EscapeLabelAppend([value[0]], value[1..]);
      EscapeOneChar(value[0]);
      SequentialIsOnePass(value[1..]);
    }
  }

  // ---- Rendering ----

  /** `snapshot.tenant_id or "all"`. */
  function TenantLabel(x: Snapshot): string {
    if x.tenant.Some? && x.tenant.value != "" then x.tenant.value else "all"
  }

  /** The keys of a count table in code-point order. */
  ghost function InOrder(keys: set<string>): seq<string> {
    if keys == {} then [] else var k :| k in keys; Insert(k, InOrder(keys - {k}))
  }

  lemma {:induction false} InOrderIsSorted(keys: set<string>)
    ensures StrictlySorted(InOrder(keys)) && Elements(InOrder(keys)) == keys
  {
    if keys != {} {
      var k :| k in keys && InOrder(keys) == Insert(k, InOrder(keys - {k}));
      InOrderIsSorted(keys - {k});
      InsertKeepsOrder(k, InOrder(keys - {k}));
    }
  }

  function GroupSample(metric: string, name: string, key: string, tenant: string, count: nat): Sample {
    Sample(metric, [Label(name, key), Label("tenant", tenant)], count)
  }

  function TenantSample(metric: string, tenant: string, count: nat): Sample {
    Sample(metric, [Label("tenant", tenant)], count)
  }

  function Group(metric: string, name: string, keys: seq<string>, counts: map<string, nat>, tenant: string): seq<Sample>
    requires forall k :: k in keys ==> k in counts
  {
    if keys == [] then []
    else
      var n := |keys| - 1;
      Group(metric, name, keys[..n], counts, tenant) + [GroupSample(metric, name, keys[n], tenant, counts[keys[n]])]
  }

  function Texts(samples: seq<Sample>): seq<string> {
    if samples == [] then [] else Texts(samples[..|samples| - 1]) + [SampleText(samples[|samples| - 1])]
  }

  lemma GroupLine(metric: string, name: string, key: string, tenant: string, count: nat)
    ensures
      metric + "{" + name + "=\"" + EscapeLabel(key) + "\",tenant=\"" + EscapeLabel(tenant) + "\"} " + Decimal(count)
      == SampleText(GroupSample(metric, name, key, tenant, count))
  {
    SequentialIsOnePass(key);
    SequentialIsOnePass(tenant);
    hide Escape, EscapeLabel, Decimal;
    var labels := [Label(name, key), Label("tenant", tenant)];
    assert labels[1..] == [Label("tenant", tenant)];
    assert LabelsText(labels) == LabelText(labels[0]) + ("," + LabelText(labels[1]));
  }

  lemma TenantLine(metric: string, tenant: string, count: nat)
    ensures metric + "{tenant=\"" + EscapeLabel(tenant) + "\"} " + Decimal(count)
      == SampleText(TenantSample(metric, tenant, count))
  {
    SequentialIsOnePass(tenant);
    hide Escape, EscapeLabel, Decimal;
    assert LabelsText([Label("tenant", tenant)]) == LabelText(Label("tenant", tenant));
  }

  method SortedKeys(counts: map<string, nat>) returns (keys: seq<string>)
    ensures keys == InOrder(counts.Keys)
    ensures forall k :: k in keys <==> k in counts
  {
    var rest := counts.Keys;
    keys := [];
    while rest != {}
      invariant rest <= counts.Keys && StrictlySorted(keys) && Elements(keys) == counts.Keys - rest
      decreases |rest|
    {
      var k :| k in rest;
      InsertKeepsOrder(k, keys);
      keys := Insert(k, keys);
      rest := rest - {k};
    }
    InOrderIsSorted(counts.Keys);
    SortedUnique(keys, InOrder(counts.Keys));
    assert forall k :: k in keys <==> k in Elements(keys);
  }

  function Head(metric: string, help: string, kind: string): seq<string> {
    ["# HELP " + metric + " " + help, "# TYPE " + metric + " " + kind]
  }

  ghost function CountSamples(metric: string, name: string, counts: map<string, nat>, tenant: string): seq<Sample> {
    InOrderIsSorted(counts.Keys);
    assert forall k :: k in InOrder(counts.Keys) ==> k in Elements(InOrder(counts.Keys));
    Group(metric, name, InOrder(counts.Keys), counts, tenant)
  }

  function InvalidSamples(x: Snapshot): seq<Sample> {
    if x.invalid.Some? then [TenantSample(INVALID, TenantLabel(x), x.invalid.value)] else []
  }

  /** Every sample a snapshot stands for, in the order it is written. */
  ghost function SamplesOf(x: Snapshot): seq<Sample> {
    var tenant := TenantLabel(x);
    CountSamples(RUNS, "status", x.statuses, tenant)
      + CountSamples(EVENTS, "event_type", x.events, tenant)
      + CountSamples(APPROVALS, "status", x.approvals, tenant)
      + [TenantSample(DUPLICATES, tenant, x.duplicates)]
      + InvalidSamples(x)
  }

  ghost function LinesOf(x: Snapshot): seq<string> {
    var tenant := TenantLabel(x);
    Head(RUNS, RUNS_HELP, "gauge") + Texts(CountSamples(RUNS, "status", x.statuses, tenant))
      + Head(EVENTS, EVENTS_HELP, "counter") + Texts(CountSamples(EVENTS, "event_type", x.events, tenant))
      + Head(APPROVALS, APPROVALS_HELP, "gauge") + Texts(CountSamples(APPROVALS, "status", x.approvals, tenant))
      + Head(DUPLICATES, DUPLICATES_HELP, "counter") + Texts([TenantSample(DUPLICATES, tenant, x.duplicates)])
      + (if x.invalid.Some? then Head(INVALID, INVALID_HELP, "gauge") else []) + Texts(InvalidSamples(x))
  }

  /** `"\n".join(lines)`. */
  function Join(lines: seq<string>): string {
    if lines == [] then "" else if |lines| == 1 then lines[0] else lines[0] + ("\n" + Join(lines[1..]))
  }

  lemma {:induction false} JoinIsUnlines(lines: seq<string>)
    requires lines != []
    ensures Join(lines) + "\n" == Unlines(lines)
  {
    if |lines| > 1 {
      JoinIsUnlines(lines[1..]);
      assert Join(lines) + "\n" == lines[0] + ("\n" + (Join(lines[1..]) + "\n"));
    } else {
      assert Unlines(lines[1..]) == "";
    }
  }

  lemma GroupGrows(metric: string, name: string, keys: seq<string>, counts: map<string, nat>, tenant: string, i: nat)
    requires i < |keys| && forall k :: k in keys ==> k in counts
    ensures Texts(Group(metric, name, keys[..i + 1], counts, tenant))
      == Texts(Group(metric, name, keys[..i], counts, tenant))
         + [SampleText(GroupSample(metric, name, keys[i], tenant, counts[keys[i]]))]
  {
    hide SampleText;
    assert keys[..i + 1][..i] == keys[..i];
    var before := Group(metric, name, keys[..i], counts, tenant);
    assert (before + [GroupSample(metric, name, keys[i], tenant, counts[keys[i]])])[..|before|] == before;
  }

  /** `lines` with one line appended for every counted key, in order. */
  method AppendGroup(lines: seq<string>, metric: string, name: string, counts: map<string, nat>, tenant: string)
    returns (more: seq<string>)
    ensures more == lines + Texts(CountSamples(metric, name, counts, tenant))
  {
    hide SampleText, EscapeLabel, Decimal;
    var keys := SortedKeys(counts);
    more := lines;
    for i := 0 to |keys|
      invariant more == lines + Texts(Group(metric, name, keys[..i], counts, tenant))
    {
      GroupLine(metric, name, keys[i], tenant, counts[keys[i]]);
      GroupGrows(metric, name, keys, counts, tenant, i);
      more := more + [metric + "{" + name + "=\"" + EscapeLabel(keys[i]) + "\",tenant=\"" + EscapeLabel(tenant) + "\"} "
                      + Decimal(counts[keys[i]])];
    }
    assert keys[..|keys|] == keys;
  }

  method RenderPrometheus(x: Snapshot) returns (text: string)
    ensures text == Unlines(LinesOf(x))
  {
    hide SampleText, EscapeLabel, Decimal, CountSamples;
    var tenant := TenantLabel(x);
    var lines := AppendGroup(Head(RUNS, RUNS_HELP, "gauge"), RUNS, "status", x.statuses, tenant);
    lines := AppendGroup(lines + Head(EVENTS, EVENTS_HELP, "counter"), EVENTS, "event_type", x.events, tenant);
    lines := AppendGroup(lines + Head(APPROVALS, APPROVALS_HELP, "gauge"), APPROVALS, "status", x.approvals, tenant);
    TenantLine(DUPLICATES, tenant, x.duplicates);
    TextsOfOne(TenantSample(DUPLICATES, tenant, x.duplicates));
    lines := lines + Head(DUPLICATES, DUPLICATES_HELP, "counter")
      + [DUPLICATES + "{tenant=\"" + EscapeLabel(tenant) + "\"} " + Decimal(x.duplicates)];
    if x.invalid.Some? {
      TenantLine(INVALID, tenant, x.invalid.value);
      TextsOfOne(TenantSample(INVALID, tenant, x.invalid.value));
      lines := lines + Head(INVALID, INVALID_HELP, "gauge")
        + [INVALID + "{tenant=\"" + EscapeLabel(tenant) + "\"} " + Decimal(x.invalid.value)];
    }
    assert lines == LinesOf(x);
    JoinIsUnlines(lines);
    text := Join(lines) + "\n";
  }

  lemma TextsOfOne(x: Sample)
    ensures Texts([x]) == [SampleText(x)]
  {
    assert [x][..0] == [];
  }

  // ---- What a scraper reads ----

  predicate AllPlain(samples: seq<Sample>) { forall x :: x in samples ==> PlainSample(x) }

  lemma {:induction false} ReadTexts(samples: seq<Sample>)
    requires AllPlain(samples)
    ensures ReadSamples(Texts(samples)) == Some(samples) && OneLiners(Texts(samples))
  {
    hide SampleText, ReadSample, IsComment, PlainSample;
    if samples != [] {
      var n := |samples| - 1;
      ReadTexts(samples[..n]);
      ReadSampleText(samples[n]);
      var last := [SampleText(samples[n])];
      ReadOneSample(SampleText(samples[n]), samples[n]);
      ReadSamplesAppend(Texts(samples[..n]), last);
      assert samples == samples[..n] + [samples[n]];
    }
  }

  predicate Clean(s: string) { '\n' !in s && '{' !in s }

  predicate CleanName(s: string) { s != "" && s[0] == 'a' && Clean(s) }

  lemma NamesClean()
    ensures CleanName(RUNS) && CleanName(EVENTS) && CleanName(APPROVALS)
  {
    assert Clean("events_total") && Clean("approvals");
  }

  lemma TotalsClean()
    ensures CleanName(DUPLICATES) && CleanName(INVALID)
  {
    assert Clean("duplicate_retries_total");
    assert Clean("event_chains_invalid");
  }

  lemma HelpClean()
    ensures Clean(RUNS_HELP) && Clean(EVENTS_HELP) && Clean(APPROVALS_HELP)
  {
    assert Clean("action runs by status.");
    assert Clean("by decision state.");
  }

  lemma LongHelpClean()
    ensures Clean(DUPLICATES_HELP) && Clean(INVALID_HELP)
  {
    assert Clean("Duplicate invocations ");
    assert Clean("Invalid event chains ");
  }

  /** A block of two comment lines and its samples, after what was read already. */
  lemma ReadBlock(
    lines: seq<string>, before: seq<Sample>, metric: string, help: string, kind: string, samples: seq<Sample>)
    requires ReadSamples(lines) == Some(before) && OneLiners(lines)
    requires Clean(metric) && Clean(help) && kind in {"gauge", "counter"} && AllPlain(samples)
    ensures ReadSamples(lines + Head(metric, help, kind) + Texts(samples)) == Some(before + samples)
    ensures OneLiners(lines + Head(metric, help, kind) + Texts(samples))
  {
    hide ReadSamples, Texts, AllPlain;
    var head := Head(metric, help, kind);
    ReadComments(head[0], head[1]);
    ReadTexts(samples);
    ReadSamplesAppend(lines, head);
    ReadSamplesAppend(lines + head, Texts(samples));
    assert before + [] == before;
  }

  lemma GroupSamplePlain(metric: string, name: string, key: string, tenant: string, count: nat)
    requires CleanName(metric) && name in {"status", "event_type"}
    ensures PlainSample(GroupSample(metric, name, key, tenant, count))
  {
    assert PlainLabel(Label("tenant", tenant)) && PlainLabel(Label(name, key));
  }

  lemma TenantSamplePlain(metric: string, tenant: string, count: nat)
    requires CleanName(metric)
    ensures AllPlain([TenantSample(metric, tenant, count)])
  {
    assert PlainLabel(Label("tenant", tenant));
  }

  lemma {:induction false} GroupPlain(
    metric: string, name: string, keys: seq<string>, counts: map<string, nat>, tenant: string)
    requires forall k :: k in keys ==> k in counts
    requires CleanName(metric) && name in {"status", "event_type"}
    ensures AllPlain(Group(metric, name, keys, counts, tenant))
  {
    hide PlainSample, GroupSample;
    if keys != [] {
      var key := keys[|keys| - 1];
      GroupPlain(metric, name, keys[..|keys| - 1], counts, tenant);
      GroupSamplePlain(metric, name, key, tenant, counts[key]);
    }
  }

  lemma CountsPlain(metric: string, name: string, counts: map<string, nat>, tenant: string)
    requires CleanName(metric) && name in {"status", "event_type"}
    ensures AllPlain(CountSamples(metric, name, counts, tenant))
  {
    hide PlainSample, Group, AllPlain, InOrder;
    InOrderIsSorted(counts.Keys);
    assert forall k :: k in InOrder(counts.Keys) ==> k in Elements(InOrder(counts.Keys));
    GroupPlain(metric, name, InOrder(counts.Keys), counts, tenant);
  }

  /** The rendered text is well formed, and a scraper reads exactly the snapshot's samples from it. */
  lemma ScrapeReadsSamples(x: Snapshot)
    ensures Read(Unlines(LinesOf(x))) == Some(SamplesOf(x))
  {
    NamesClean();
    TotalsClean();
    HelpClean();
    LongHelpClean();
    hide ReadSamples, Texts, CountSamples, PlainSample, OneLiners, Clean, Head, AllPlain;
    hide RUNS, EVENTS, APPROVALS, DUPLICATES, INVALID;
    hide RUNS_HELP, EVENTS_HELP, APPROVALS_HELP, DUPLICATES_HELP, INVALID_HELP;
    var tenant := TenantLabel(x);
    var runs := CountSamples(RUNS, "status", x.statuses, tenant);
    var events := CountSamples(EVENTS, "event_type", x.events, tenant);
    var approvals := CountSamples(APPROVALS, "status", x.approvals, tenant);
    var duplicates := [TenantSample(DUPLICATES, tenant, x.duplicates)];
    CountsPlain(RUNS, "status", x.statuses, tenant);
    CountsPlain(EVENTS, "event_type", x.events, tenant);
    CountsPlain(APPROVALS, "status", x.approvals, tenant);
    TenantSamplePlain(DUPLICATES, tenant, x.duplicates);
    ReadNothing();
    ReadBlock([], [], RUNS, RUNS_HELP, "gauge", runs);
    var l1 := Head(RUNS, RUNS_HELP, "gauge") + Texts(runs);
    assert [] + Head(RUNS, RUNS_HELP, "gauge") + Texts(runs) == l1 && [] + runs == runs;
    ReadBlock(l1, runs, EVENTS, EVENTS_HELP, "counter", events);
    var l2 := l1 + Head(EVENTS, EVENTS_HELP, "counter") + Texts(events);
    ReadBlock(l2, runs + events, APPROVALS, APPROVALS_HELP, "gauge", approvals);
    var l3 := l2 + Head(APPROVALS, APPROVALS_HELP, "gauge") + Texts(approvals);
    ReadBlock(l3, runs + events + approvals, DUPLICATES, DUPLICATES_HELP, "counter", duplicates);
    var l4 := l3 + Head(DUPLICATES, DUPLICATES_HELP, "counter") + Texts(duplicates);
    if x.invalid.Some? {
      TenantSamplePlain(INVALID, tenant, x.invalid.value);
      ReadBlock(l4, runs + events + approvals + duplicates, INVALID, INVALID_HELP, "gauge", InvalidSamples(x));
    } else {
      NoTexts();
      assert LinesOf(x) == l4 + [] + [] && l4 + [] + [] == l4;
      var all := runs + events + approvals + duplicates;
      assert SamplesOf(x) == all + [] && all + [] == all;
    }
    assert ReadSamples(LinesOf(x)) == Some(SamplesOf(x)) && OneLiners(LinesOf(x));
    ReadUnlines(LinesOf(x));
  }

  lemma ReadNothing()
    ensures ReadSamples([]) == Some([]) && OneLiners([])
  {
  }

  lemma NoTexts()
    ensures Texts([]) == []
  {
  }

  // ---- Every count comes back ----

  lemma {:induction false} FindInGroup(
    metric: string, name: string, keys: seq<string>, counts: map<string, nat>, tenant: string, key: string, who: string)
    requires StrictlySorted(keys) && forall k :: k in keys ==> k in counts
    ensures Find(Group(metric, name, keys, counts, tenant), metric, [Label(name, key), Label("tenant", who)])
      == if key in keys && who == tenant then Some(counts[key]) else None
  {
    if keys != [] {
      var n := |keys| - 1;
      FindInGroup(metric, name, keys[..n], counts, tenant, key, who);
      assert keys == keys[..n] + [keys[n]];
      var last := [Label(name, keys[n]), Label("tenant", tenant)];
      assert last == [Label(name, key), Label("tenant", who)] <==> keys[n] == key && tenant == who by {
        assert last[0] == Label(name, keys[n]) && last[1] == Label("tenant", tenant);
      }
    }
  }

  lemma {:induction false} FindElsewhere(samples: seq<Sample>, metric: string, labels: seq<Label>)
    requires forall x :: x in samples ==> x.metric != metric
    ensures Find(samples, metric, labels) == None
  {
    if samples != [] { FindElsewhere(samples[..|samples| - 1], metric, labels); }
  }

  lemma {:induction false} GroupMetric(
    metric: string, name: string, keys: seq<string>, counts: map<string, nat>, tenant: string)
    requires forall k :: k in keys ==> k in counts
    ensures forall x :: x in Group(metric, name, keys, counts, tenant) ==> x.metric == metric
  {
    if keys != [] { GroupMetric(metric, name, keys[..|keys| - 1], counts, tenant); }
  }

  /** One count table among the samples: its own labels give its counts, other metrics find nothing in it. */
  lemma FindCount(metric: string, name: string, counts: map<string, nat>, tenant: string, key: string, who: string)
    ensures Find(CountSamples(metric, name, counts, tenant), metric, [Label(name, key), Label("tenant", who)])
      == if key in counts && who == tenant then Some(counts[key]) else None
    ensures forall other, labels :: other != metric ==>
      Find(CountSamples(metric, name, counts, tenant), other, labels) == None
  {
    hide InOrder, Find;
    InOrderIsSorted(counts.Keys);
    var keys := InOrder(counts.Keys);
    assert forall k :: k in keys <==> k in Elements(keys);
    FindInGroup(metric, name, keys, counts, tenant, key, who);
    GroupMetric(metric, name, keys, counts, tenant);
    forall other, labels | other != metric
      ensures Find(CountSamples(metric, name, counts, tenant), other, labels) == None
    {
      FindElsewhere(CountSamples(metric, name, counts, tenant), other, labels);
    }
  }

  lemma FindOne(x: Sample, metric: string, labels: seq<Label>)
    ensures Find([x], metric, labels) == if x.metric == metric && x.labels == labels then Some(x.value) else None
  {
    assert [x][..0] == [];
  }

  function InTable(counts: map<string, nat>, key: string): Option<nat> {
    if key in counts then Some(counts[key]) else None
  }

  /** The number a scraper holds for a labelled count of one tenant label. */
  function Scraped(text: string, metric: string, name: string, key: string, tenant: string): Option<nat> {
    match Read(text)
    case None => None
    case Some(samples) => Find(samples, metric, [Label(name, key), Label("tenant", tenant)])
  }

  function ScrapedTotal(text: string, metric: string, tenant: string): Option<nat> {
    match Read(text)
    case None => None
    case Some(samples) => Find(samples, metric, [Label("tenant", tenant)])
  }

  lemma MetricsDiffer()
    ensures RUNS != EVENTS && RUNS != APPROVALS && RUNS != DUPLICATES && RUNS != INVALID
    ensures EVENTS != APPROVALS && EVENTS != DUPLICATES && EVENTS != INVALID
    ensures APPROVALS != DUPLICATES && APPROVALS != INVALID && DUPLICATES != INVALID
  {
    assert |RUNS| == 18 && |EVENTS| == 26 && |APPROVALS| == 23 && |DUPLICATES| == 37 && |INVALID| == 34;
  }

  /** Looking up any label text whatever, a scraper finds the count the snapshot holds for it, and nothing otherwise. */
  lemma EveryCountComesBack(x: Snapshot, key: string, who: string)
    ensures
      var text := Unlines(LinesOf(x));
      var here := who == TenantLabel(x);
      && Scraped(text, RUNS, "status", key, who) == (if here then InTable(x.statuses, key) else None)
      && Scraped(text, EVENTS, "event_type", key, who) == (if here then InTable(x.events, key) else None)
      && Scraped(text, APPROVALS, "status", key, who) == (if here then InTable(x.approvals, key) else None)
      && ScrapedTotal(text, DUPLICATES, who) == (if here then Some(x.duplicates) else None)
      && ScrapedTotal(text, INVALID, who) == (if here then x.invalid else None)
  {
    ScrapeReadsSamples(x);
    MetricsDiffer();
    hide Read, Unlines, LinesOf, CountSamples, Find;
    hide RUNS, EVENTS, APPROVALS, DUPLICATES, INVALID;
    var tenant := TenantLabel(x);
    FindCount(RUNS, "status", x.statuses, tenant, key, who);
    FindCount(EVENTS, "event_type", x.events, tenant, key, who);
    FindCount(APPROVALS, "status", x.approvals, tenant, key, who);
    forall metric, labels { FindParts(x, metric, labels); }
    assert [Label("tenant", tenant)] == [Label("tenant", who)] <==> tenant == who by {
      assert [Label("tenant", tenant)][0] == Label("tenant", tenant);
    }
    assert |[Label("status", key), Label("tenant", who)]| == 2;
    assert |[Label("event_type", key), Label("tenant", who)]| == 2;
  }

  function Or(a: Option<nat>, b: Option<nat>): Option<nat> { if a.Some? then a else b }

  lemma FindParts(x: Snapshot, metric: string, labels: seq<Label>)
    ensures
      var tenant := TenantLabel(x);
      Find(SamplesOf(x), metric, labels) ==
        Or(if x.invalid.Some? && metric == INVALID && labels == [Label("tenant", tenant)] then x.invalid else None,
        Or(if metric == DUPLICATES && labels == [Label("tenant", tenant)] then Some(x.duplicates) else None,
        Or(Find(CountSamples(APPROVALS, "status", x.approvals, tenant), metric, labels),
        Or(Find(CountSamples(EVENTS, "event_type", x.events, tenant), metric, labels),
           Find(CountSamples(RUNS, "status", x.statuses, tenant), metric, labels)))))
  {
    hide CountSamples, RUNS, EVENTS, APPROVALS, DUPLICATES, INVALID;
    var tenant := TenantLabel(x);
    var runs := CountSamples(RUNS, "status", x.statuses, tenant);
    var events := CountSamples(EVENTS, "event_type", x.events, tenant);
    var approvals := CountSamples(APPROVALS, "status", x.approvals, tenant);
    var duplicates := TenantSample(DUPLICATES, tenant, x.duplicates);
    FindOne(duplicates, metric, labels);
    if x.invalid.Some? {
      FindOne(TenantSample(INVALID, tenant, x.invalid.value), metric, labels);
    } else {
      assert Find([], metric, labels) == None;
    }
    hide Find;
    FindAppend(runs, events, metric, labels);
    FindAppend(runs + events, approvals, metric, labels);
    FindAppend(runs + events + approvals, [duplicates], metric, labels);
    FindAppend(runs + events + approvals + [duplicates], InvalidSamples(x), metric, labels);
  }

  /** Two snapshots are rendered alike exactly when they carry the same tenant label and the same numbers. */
  lemma RenderingIsFaithful(x: Snapshot, y: Snapshot)
    ensures Unlines(LinesOf(x)) == Unlines(LinesOf(y)) <==>
      TenantLabel(x) == TenantLabel(y) && x.statuses == y.statuses && x.events == y.events && x.approvals == y.approvals
      && x.duplicates == y.duplicates && x.invalid == y.invalid
  {
    hide Scraped, ScrapedTotal, Unlines, RUNS, EVENTS, APPROVALS, DUPLICATES, INVALID;
    if Unlines(LinesOf(x)) == Unlines(LinesOf(y)) {
      hide LinesOf;
      EveryCountComesBack(x, "", TenantLabel(x));
      EveryCountComesBack(y, "", TenantLabel(x));
      forall key
        ensures InTable(x.statuses, key) == InTable(y.statuses, key)
        ensures InTable(x.events, key) == InTable(y.events, key)
        ensures InTable(x.approvals, key) == InTable(y.approvals, key)
      {
        EveryCountComesBack(x, key, TenantLabel(x));
        EveryCountComesBack(y, key, TenantLabel(x));
      }
      SameTable(x.statuses, y.statuses);
      SameTable(x.events, y.events);
      SameTable(x.approvals, y.approvals);
    }
  }

  lemma SameTable(a: map<string, nat>, b: map<string, nat>)
    requires forall key :: InTable(a, key) == InTable(b, key)
    ensures a == b
  {
    forall key ensures key in a <==> key in b { assert InTable(a, key) == InTable(b, key); }
    forall key | key in a ensures a[key] == b[key] { assert InTable(a, key) == InTable(b, key); }
  }

  // ---- Scraped figures obey the ledger's laws ----

  function StatusName(status: Status): string {
    match status
    case Created => "created"
    case Denied => "denied"
    case PendingApproval => "pending_approval"
    case Approved => "approved"
    case Rejected => "rejected"
    case ApprovalExpired => "approval_expired"
    case Executing => "executing"
    case Unknown => "unknown"
    case Completed => "completed"
    case Failed => "failed"
  }

  function Held(counts: map<string, nat>, key: string): nat { if key in counts then counts[key] else 0 }

  /** The snapshot's tables are the ledger's grouped counts; a status or type with no rows has no entry. */
  ghost predicate Collected(x: Snapshot, s: State) {
    && (forall status :: Held(x.statuses, StatusName(status)) == StatusCount(s, x.tenant, status))
    && (forall status :: Held(x.approvals, StatusName(status)) == ApprovalCount(s, x.tenant, status))
    && (forall name :: Held(x.events, name) == EventCount(s, x.tenant, name))
    && x.duplicates == DuplicateCount(s, x.tenant)
  }

  /** What a scraper makes of a labelled count: an absent series is zero. */
  function Figure(text: string, metric: string, name: string, key: string, tenant: string): nat {
    var found := Scraped(text, metric, name, key, tenant);
    if found.Some? then found.value else 0
  }

  /** Every figure a scraper reads is the ledger's own count. */
  lemma FiguresAreCounts(s: State, x: Snapshot)
    requires Collected(x, s)
    ensures
      var text, tenant := Unlines(LinesOf(x)), TenantLabel(x);
      && (forall name :: Figure(text, EVENTS, "event_type", name, tenant) == EventCount(s, x.tenant, name))
      && (forall status ::
            Figure(text, RUNS, "status", StatusName(status), tenant) == StatusCount(s, x.tenant, status))
      && (forall status ::
            Figure(text, APPROVALS, "status", StatusName(status), tenant) == ApprovalCount(s, x.tenant, status))
      && ScrapedTotal(text, DUPLICATES, tenant) == Some(DuplicateCount(s, x.tenant))
  {
    hide EventCount, StatusCount, ApprovalCount, DuplicateCount, StatusName, Unlines, LinesOf, Scraped, ScrapedTotal;
    hide EVENTS, RUNS, APPROVALS, DUPLICATES;
    EveryCountComesBack(x, "", TenantLabel(x));
    var text, tenant := Unlines(LinesOf(x)), TenantLabel(x);
    forall name ensures Figure(text, EVENTS, "event_type", name, tenant) == EventCount(s, x.tenant, name) {
      EveryCountComesBack(x, name, tenant);
    }
    forall status
      ensures Figure(text, RUNS, "status", StatusName(status), tenant) == StatusCount(s, x.tenant, status)
      ensures Figure(text, APPROVALS, "status", StatusName(status), tenant) == ApprovalCount(s, x.tenant, status)
    {
      EveryCountComesBack(x, StatusName(status), tenant);
    }
  }

  /** The conservation laws hold of the numbers a scraper reads from the rendered text of any reachable ledger. */
  lemma ScrapedConservation(s: State, x: Snapshot)
    requires Arises(s) && Collected(x, s)
    ensures
      var text := Unlines(LinesOf(x));
      var e := (k: Kind) => Figure(text, EVENTS, "event_type", TypeName(k), TenantLabel(x));
      var runs := (status: Status) => Figure(text, RUNS, "status", StatusName(status), TenantLabel(x));
      && e(KStarted) == e(KSucceeded) + e(KFailed) + e(KUncertain) + e(KLeaseExpired) + runs(Executing)
      && runs(Unknown) + e(KReconciled) == e(KUncertain) + e(KLeaseExpired)
      && e(KRequested) == e(KApproved) + e(KRejected) + e(KExpired)
           + Figure(text, APPROVALS, "status", StatusName(PendingApproval), TenantLabel(x))
  {
    hide Arises, EventCount, StatusCount, ApprovalCount, TypeName, StatusName, Sum, Unlines, LinesOf, Figure;
    hide EVENTS, RUNS, APPROVALS, Collected;
    Conservation(s, x.tenant);
    FiguresAreCounts(s, x);
  }
}
