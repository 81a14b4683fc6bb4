/** The Prometheus reports of the `parse` sub-command: the TSDB status
    comparison of the two Prometheus replicas (`prom_status_tsdb`) and the
    composite that runs every etcd report (`prom_show_all`). */
module PrometheusOut {
  import opened Py
  import opened Text
  import opened Registry
  import opened Parser

  // ---------------------------------------------------------------------
  // Inputs and results

  const Replica0File := "prometheus/prometheus-k8s-0/status/tsdb.json"
  const Replica1File := "prometheus/prometheus-k8s-1/status/tsdb.json"

  /** The number formatters of the helper module, which this model takes as
      given: byte sizes, counts and timestamps. */
  datatype Formatters = Formatters(
    sizeOf: Json -> string,
    countOf: Json -> string,
    dateFromTs: Json -> string)

  /** A titled table, as printed by one `print(tabulate(...))`. */
  datatype Report = Report(title: string, table: Table)

  /** The loading steps of `prom_status_tsdb`, in the order they run. */
  datatype Step = ReadFile(path: string) | LoadBuffer(replica: nat)

  const LoadSteps: seq<Step> :=
    [ReadFile(Replica0File), LoadBuffer(0), ReadFile(Replica1File), LoadBuffer(1)]

  /** How `prom_status_tsdb` ends: a loading step failed and it returned
      before printing anything, or it printed `reports` and then either
      returned or raised. */
  datatype TsdbOutcome =
    | Aborted(failedAt: Step)
    | Printed(reports: seq<Report>, raised: Option<Exc>)

  // ---------------------------------------------------------------------
  // The headStats table

  const HeadStatsHeaders := ["metric", "prometheus-k8s-0", "prometheus-k8s-1"]

  function StatPath(field: string): (path: seq<Key>)
  {
    [Name("data"), Name("headStats"), Name(field)]
  }

  /** `[field, f(repl0["data"]["headStats"][field]), f(repl1[...][field])]`. */
  function HeadStatsRow(r0: Json, r1: Json, field: string, f: Json -> string): (row: Result<seq<Json>>)
  {
    var a :- Path(r0, StatPath(field));
    var b :- Path(r1, StatPath(field));
    Ok([JStr(field), JStr(f(a)), JStr(f(b))])
  }

  /** The four headStats rows, or the exception of the first that fails. */
  function HeadStatsRows(r0: Json, r1: Json, fmt: Formatters): (rows: Result<seq<seq<Json>>>)
  {
    var a :- HeadStatsRow(r0, r1, "numSeries", fmt.countOf);
    var b :- HeadStatsRow(r0, r1, "chunkCount", fmt.countOf);
    var c :- HeadStatsRow(r0, r1, "minTime", fmt.dateFromTs);
    var d :- HeadStatsRow(r0, r1, "maxTime", fmt.dateFromTs);
    Ok([a, b, c, d])
  }

  /** The headStats block: four rows appended one by one. */
  method BuildHeadStats(r0: Json, r1: Json, fmt: Formatters) returns (res: Result<seq<seq<Json>>>)
    ensures res == HeadStatsRows(r0, r1, fmt)
  {
    var outputRes: seq<seq<Json>> := [];
    var a := HeadStatsRow(r0, r1, "numSeries", fmt.countOf);
    if a.Err? { return Err(a.exc); }
    outputRes := outputRes + [a.value];
    var b := HeadStatsRow(r0, r1, "chunkCount", fmt.countOf);
    if b.Err? { return Err(b.exc); }
    outputRes := outputRes + [b.value];
    var c := HeadStatsRow(r0, r1, "minTime", fmt.dateFromTs);
    if c.Err? { return Err(c.exc); }
    outputRes := outputRes + [c.value];
    var d := HeadStatsRow(r0, r1, "maxTime", fmt.dateFromTs);
    if d.Err? { return Err(d.exc); }
    outputRes := outputRes + [d.value];
    assert outputRes == [a.value, b.value, c.value, d.value];
    res := Ok(outputRes);
  }

  /** Both replicas have the statistic `field`. */
  predicate HasStat(r0: Json, r1: Json, field: string)
  {
    Path(r0, StatPath(field)).Ok? && Path(r1, StatPath(field)).Ok?
  }

  /** The headStats table is complete exactly when both replicas have all
      four statistics. */
  lemma HeadStatsComplete(r0: Json, r1: Json, fmt: Formatters)
    ensures HeadStatsRows(r0, r1, fmt).Ok? <==>
      HasStat(r0, r1, "numSeries") && HasStat(r0, r1, "chunkCount") &&
      HasStat(r0, r1, "minTime") && HasStat(r0, r1, "maxTime")
  {
    HeadStatsRowOk(r0, r1, "numSeries", fmt.countOf);
    HeadStatsRowOk(r0, r1, "chunkCount", fmt.countOf);
    HeadStatsRowOk(r0, r1, "minTime", fmt.dateFromTs);
    HeadStatsRowOk(r0, r1, "maxTime", fmt.dateFromTs);
  }

  /** A complete headStats table has the rows numSeries, chunkCount, minTime
      and maxTime, in that order, with replica 0's value formatted in column
      1 and replica 1's in column 2: counts for the first two, dates for the
      last two. */
  lemma HeadStatsOrder(r0: Json, r1: Json, fmt: Formatters)
    requires HeadStatsRows(r0, r1, fmt).Ok?
    ensures HasStat(r0, r1, "numSeries") && HasStat(r0, r1, "chunkCount")
    ensures HasStat(r0, r1, "minTime") && HasStat(r0, r1, "maxTime")
    ensures HeadStatsRows(r0, r1, fmt).value ==
      [StatRow(r0, r1, "numSeries", fmt.countOf), StatRow(r0, r1, "chunkCount", fmt.countOf),
       StatRow(r0, r1, "minTime", fmt.dateFromTs), StatRow(r0, r1, "maxTime", fmt.dateFromTs)]
  {
    HeadStatsRowOk(r0, r1, "numSeries", fmt.countOf);
    HeadStatsRowOk(r0, r1, "chunkCount", fmt.countOf);
    HeadStatsRowOk(r0, r1, "minTime", fmt.dateFromTs);
    HeadStatsRowOk(r0, r1, "maxTime", fmt.dateFromTs);
  }

  /** One row: present exactly when both replicas have the statistic. */
  lemma HeadStatsRowOk(r0: Json, r1: Json, field: string, f: Json -> string)
    ensures HeadStatsRow(r0, r1, field, f).Ok? <==> HasStat(r0, r1, field)
    ensures HeadStatsRow(r0, r1, field, f).Ok? ==> HeadStatsRow(r0, r1, field, f).value == StatRow(r0, r1, field, f)
  {
  }

  /** The row a statistic gives when both replicas have it. */
  function StatRow(r0: Json, r1: Json, field: string, f: Json -> string): (row: seq<Json>)
    requires HasStat(r0, r1, field)
  {
    [JStr(field), JStr(f(Path(r0, StatPath(field)).value)), JStr(f(Path(r1, StatPath(field)).value))]
  }

  // ---------------------------------------------------------------------
  // The top-N tables

  /** One of the four top-N blocks: its metric key, the word in its value
      columns, and whether its values are byte sizes. */
  datatype Section = Section(metric: string, valueWord: string, sized: bool)

  const TopNSections: seq<Section> := [
    Section("seriesCountByMetricName", "Count", false),
    Section("labelValueCountByLabelName", "Count", false),
    Section("memoryInBytesByLabelName", "Size", true),
    Section("seriesCountByLabelValuePair", "Count", false)
  ]

  function TopNHeaders(s: Section): (headers: seq<string>)
  {
    ["Top#N",
     "MetricName(prometheus-k8s-0)", s.valueWord + "(prometheus-k8s-0)",
     "MetricName(prometheus-k8s-1)", s.valueWord + "(prometheus-k8s-1)"]
  }

  function SectionFormatter(s: Section, fmt: Formatters): (f: Json -> string)
  {
    if s.sized then fmt.sizeOf else fmt.countOf
  }

  /** `f"#{str(idx+1)}"`. */
  function TopNLabel(idx: nat): (text: string)
  {
    "#" + NatToString(idx + 1)
  }

  function ListPath(metric: string): (path: seq<Key>)
  {
    [Name("data"), Name(metric)]
  }

  function EntryPath(metric: string, idx: nat, field: string): (path: seq<Key>)
  {
    ListPath(metric) + [Index(idx), Name(field)]
  }

  /** Row idx of a top-N table: replica 0's entry idx next to replica 1's
      entry idx, subscripted in the order the list display evaluates them. */
  function TopNRow(r0: Json, r1: Json, metric: string, idx: nat, f: Json -> string): (row: Result<seq<Json>>)
    ensures row.Ok? ==> |row.value| == 5 && row.value[0] == JStr(TopNLabel(idx))
  {
    var n0 :- Path(r0, EntryPath(metric, idx, "name"));
    var v0 :- Path(r0, EntryPath(metric, idx, "value"));
    var n1 :- Path(r1, EntryPath(metric, idx, "name"));
    var v1 :- Path(r1, EntryPath(metric, idx, "value"));
    Ok([JStr(TopNLabel(idx)), n0, JStr(f(v0)), n1, JStr(f(v1))])
  }

  /** Rows 0 .. k-1, or the exception of the first row that fails. */
  function TopNRowsUpTo(r0: Json, r1: Json, metric: string, f: Json -> string, k: nat): (rows: Result<seq<seq<Json>>>)
    decreases k
  {
    if k == 0 then Ok([])
    else
      var rows :- TopNRowsUpTo(r0, r1, metric, f, k - 1);
      var row :- TopNRow(r0, r1, metric, k - 1, f);
      Ok(rows + [row])
  }

  /** A whole top-N table: one row per index of replica 0's list. */
  function TopNRows(r0: Json, r1: Json, metric: string, f: Json -> string): (rows: Result<seq<seq<Json>>>)
  {
    var list0 :- Path(r0, ListPath(metric));
    var n :- Len(list0);
    TopNRowsUpTo(r0, r1, metric, f, n)
  }

  /** Once a row has failed, every longer prefix fails with the same exception. */
  lemma {:induction false} TopNErrorSticks(r0: Json, r1: Json, metric: string, f: Json -> string, k: nat, m: nat)
    requires k <= m && TopNRowsUpTo(r0, r1, metric, f, k).Err?
    ensures TopNRowsUpTo(r0, r1, metric, f, m) == TopNRowsUpTo(r0, r1, metric, f, k)
    decreases m
  {
    if m > k {
      TopNErrorSticks(r0, r1, metric, f, k, m - 1);
    }
  }

  /** The loop of one top-N block. */
  method BuildTopN(r0: Json, r1: Json, metric: string, f: Json -> string) returns (res: Result<seq<seq<Json>>>)
    ensures res == TopNRows(r0, r1, metric, f)
  {
    var list0 := Path(r0, ListPath(metric));
    if list0.Err? { return Err(list0.exc); }
    var n := Len(list0.value);
    if n.Err? { return Err(n.exc); }
    var outputRes: seq<seq<Json>> := [];
    for idx := 0 to n.value
      invariant TopNRowsUpTo(r0, r1, metric, f, idx) == Ok(outputRes)
    {
      var row := TopNRow(r0, r1, metric, idx, f);
      if row.Err? {
        TopNErrorSticks(r0, r1, metric, f, idx + 1, n.value);
        return Err(row.exc);
      }
      outputRes := outputRes + [row.value];
    }
    res := Ok(outputRes);
  }

  /** Every top-N row is labelled by its 1-based rank and holds the row
      function's cells. */
  lemma {:induction false} TopNRowsUpToShape(r0: Json, r1: Json, metric: string, f: Json -> string, k: nat)
    requires TopNRowsUpTo(r0, r1, metric, f, k).Ok?
    ensures var rows := TopNRowsUpTo(r0, r1, metric, f, k).value;
            && |rows| == k
            && forall i :: 0 <= i < k ==>
                 TopNRow(r0, r1, metric, i, f) == Ok(rows[i]) && rows[i][0] == JStr(TopNLabel(i))
    decreases k
  {
    if k > 0 {
      TopNRowsUpToShape(r0, r1, metric, f, k - 1);
      var prefix := TopNRowsUpTo(r0, r1, metric, f, k - 1).value;
      var last := TopNRow(r0, r1, metric, k - 1, f);
      assert TopNRowsUpTo(r0, r1, metric, f, k).value == prefix + [last.value];
    }
  }

  /** A table that completes has exactly `len(repl0["data"][metric])` rows. */
  lemma TopNRowCount(r0: Json, r1: Json, metric: string, f: Json -> string)
    requires TopNRows(r0, r1, metric, f).Ok?
    ensures Path(r0, ListPath(metric)).Ok? && Len(Path(r0, ListPath(metric)).value).Ok?
    ensures |TopNRows(r0, r1, metric, f).value| == Len(Path(r0, ListPath(metric)).value).value
  {
    var n := Len(Path(r0, ListPath(metric)).value).value;
    TopNRowsUpToShape(r0, r1, metric, f, n);
  }

  /** The labels run #1, #2, ... without repetition. */
  lemma TopNLabelsDistinct(i: nat, j: nat)
    ensures TopNLabel(i) == TopNLabel(j) <==> i == j
  {
    if TopNLabel(i) == TopNLabel(j) {
      assert TopNLabel(i)[1..] == NatToString(i + 1);
      assert TopNLabel(j)[1..] == NatToString(j + 1);
      NatToStringInjective(i + 1, j + 1);
    }
  }

  /** A top-N list as Prometheus returns it: a list of objects, each with a
      `name` and a `value`. */
  predicate RankedList(doc: Json, metric: string, items: seq<Json>)
  {
    && Path(doc, ListPath(metric)) == Ok(JList(items))
    && forall i :: 0 <= i < |items| ==>
         Subscript(items[i], Name("name")).Ok? && Subscript(items[i], Name("value")).Ok?
  }

  /** Subscripting an entry goes through the list. */
  lemma EntryLookup(doc: Json, metric: string, items: seq<Json>, idx: nat, field: string)
    requires Path(doc, ListPath(metric)) == Ok(JList(items))
    ensures Path(doc, EntryPath(metric, idx, field)) ==
      if idx < |items| then Subscript(items[idx], Name(field)) else Err(IndexError)
  {
    var tail := [Index(idx), Name(field)];
    PathAppend(doc, ListPath(metric), tail);
    assert tail[1..] == [Name(field)];
    assert [Name(field)][1..] == [];
    if idx < |items| {
      assert Path(JList(items), tail) == Path(items[idx], [Name(field)]);
      match Subscript(items[idx], Name(field))
      case Ok(v) => assert Path(v, []) == Ok(v);
      case Err(_) =>
    } else {
      assert Subscript(JList(items), Index(idx)) == Err(IndexError);
    }
  }

  /** Positional pairing: when replica 1's list is at least as long as
      replica 0's, row i pairs entry i of each replica, whatever their names,
      and replica 1's extra entries are not shown. */
  lemma TopNPairsByPosition(r0: Json, r1: Json, metric: string, f: Json -> string,
                            items0: seq<Json>, items1: seq<Json>)
    requires RankedList(r0, metric, items0) && RankedList(r1, metric, items1)
    requires |items1| >= |items0|
    ensures TopNRows(r0, r1, metric, f).Ok?
    ensures var rows := TopNRows(r0, r1, metric, f).value;
            && |rows| == |items0|
            && forall i :: 0 <= i < |items0| ==>
                 rows[i] == [JStr(TopNLabel(i)),
                             Subscript(items0[i], Name("name")).value,
                             JStr(f(Subscript(items0[i], Name("value")).value)),
                             Subscript(items1[i], Name("name")).value,
                             JStr(f(Subscript(items1[i], Name("value")).value))]
  {
    forall i | 0 <= i < |items0|
      ensures TopNRow(r0, r1, metric, i, f) == Ok([JStr(TopNLabel(i)),
                             Subscript(items0[i], Name("name")).value,
                             JStr(f(Subscript(items0[i], Name("value")).value)),
                             Subscript(items1[i], Name("name")).value,
                             JStr(f(Subscript(items1[i], Name("value")).value))])
    {
      EntryLookup(r0, metric, items0, i, "name");
      EntryLookup(r0, metric, items0, i, "value");
      EntryLookup(r1, metric, items1, i, "name");
      EntryLookup(r1, metric, items1, i, "value");
    }
    AllRowsOk(r0, r1, metric, f, |items0|);
    TopNRowsUpToShape(r0, r1, metric, f, |items0|);
  }

  /** If every row up to k succeeds, so does the prefix. */
  lemma {:induction false} AllRowsOk(r0: Json, r1: Json, metric: string, f: Json -> string, k: nat)
    requires forall i :: 0 <= i < k ==> TopNRow(r0, r1, metric, i, f).Ok?
    ensures TopNRowsUpTo(r0, r1, metric, f, k).Ok?
    decreases k
  {
    if k > 0 {
      AllRowsOk(r0, r1, metric, f, k - 1);
    }
  }

  /** No truncation: when replica 1's list is shorter than replica 0's, the
      table raises IndexError instead of stopping at the shorter list. */
  lemma TopNShorterReplicaRaises(r0: Json, r1: Json, metric: string, f: Json -> string,
                                 items0: seq<Json>, items1: seq<Json>)
    requires RankedList(r0, metric, items0) && RankedList(r1, metric, items1)
    requires |items1| < |items0|
    ensures TopNRows(r0, r1, metric, f) == Err(IndexError)
  {
    var m := |items1|;
    forall i | 0 <= i < m
      ensures TopNRow(r0, r1, metric, i, f).Ok?
    {
      EntryLookup(r0, metric, items0, i, "name");
      EntryLookup(r0, metric, items0, i, "value");
      EntryLookup(r1, metric, items1, i, "name");
      EntryLookup(r1, metric, items1, i, "value");
    }
    AllRowsOk(r0, r1, metric, f, m);
    EntryLookup(r0, metric, items0, m, "name");
    EntryLookup(r0, metric, items0, m, "value");
    EntryLookup(r1, metric, items1, m, "name");
    assert TopNRow(r0, r1, metric, m, f) == Err(IndexError);
    assert TopNRowsUpTo(r0, r1, metric, f, m + 1) == Err(IndexError);
    TopNErrorSticks(r0, r1, metric, f, m + 1, |items0|);
  }

  /** A document without a top-N list raises KeyError; replica 1 is not
      consulted when replica 0's list is empty. */
  lemma TopNMissingOrEmpty(r0: Json, r1: Json, metric: string, f: Json -> string)
    ensures Path(r0, ListPath(metric)) == Err(KeyError) ==> TopNRows(r0, r1, metric, f) == Err(KeyError)
    ensures Path(r0, ListPath(metric)) == Ok(JList([])) ==> TopNRows(r0, r1, metric, f) == Ok([])
  {
  }

  // ---------------------------------------------------------------------
  // prom_status_tsdb

  /** The five tables in their printing order; an exception stops the
      printing and keeps the tables already printed. */
  function TsdbTables(r0: Json, r1: Json, fmt: Formatters): (out: TsdbOutcome)
    ensures out.Printed?
  {
    match HeadStatsRows(r0, r1, fmt)
    case Err(e) => Printed([], Some(e))
    case Ok(head) =>
      TopNTables([Report("headStats", Table(HeadStatsHeaders, head))], r0, r1, fmt, TopNSections)
  }

  /** `rep` is the printed table of section `s`: its title, its headers,
      and the rows that section's table computes. */
  predicate BlockReport(rep: Report, r0: Json, r1: Json, fmt: Formatters, s: Section)
  {
    && rep.title == s.metric
    && rep.table.headers == TopNHeaders(s)
    && TopNRows(r0, r1, s.metric, SectionFormatter(s, fmt)) == Ok(rep.table.rows)
  }

  /** One top-N block printed after `done`, or the exception that stops it. */
  function TopNBlock(done: seq<Report>, r0: Json, r1: Json, fmt: Formatters, s: Section): (out: TsdbOutcome)
    ensures out.Printed?
    ensures out.raised.Some? ==>
              out.reports == done && TopNRows(r0, r1, s.metric, SectionFormatter(s, fmt)) == Err(out.raised.value)
    ensures out.raised.None? ==> |out.reports| == |done| + 1 && out.reports[..|done|] == done
    ensures out.raised.None? ==> BlockReport(out.reports[|done|], r0, r1, fmt, s)
  {
    match TopNRows(r0, r1, s.metric, SectionFormatter(s, fmt))
    case Err(e) => Printed(done, Some(e))
    case Ok(rows) =>
      var reports := done + [Report(s.metric, Table(TopNHeaders(s), rows))];
      assert reports[..|done|] == done;
      Printed(reports, None)
  }

  /** The top-N blocks of `sections`, printed after `done`. */
  function TopNTables(done: seq<Report>, r0: Json, r1: Json, fmt: Formatters, sections: seq<Section>): (out: TsdbOutcome)
    ensures out.Printed? && |done| <= |out.reports| <= |done| + |sections|
    ensures out.reports[..|done|] == done
    ensures out.raised.None? ==> |out.reports| == |done| + |sections|
    decreases |sections|
  {
    if |sections| == 0 then Printed(done, None)
    else
      var block := TopNBlock(done, r0, r1, fmt, sections[0]);
      if block.raised.Some? then block
      else
        var out := TopNTables(block.reports, r0, r1, fmt, sections[1..]);
        assert out.reports[..|done|] == out.reports[..|done| + 1][..|done|];
        out
  }

  /** Whether loading step k (0 .. 3) reports an error. */
  function StageFailed(fs: string -> FsAnswer, loads: string -> DecodeOutcome, k: nat): (failed: bool)
    requires k < 4
  {
    if k == 0 then FileReader(Replica0File, fs).1
    else if k == 1 then LoadBufferAsJson(FileReader(Replica0File, fs).0, loads).1
    else if k == 2 then FileReader(Replica1File, fs).1
    else LoadBufferAsJson(FileReader(Replica1File, fs).0, loads).1
  }

  /** Step k is the first loading step that fails. */
  predicate FirstFailure(fs: string -> FsAnswer, loads: string -> DecodeOutcome, k: nat)
  {
    k < 4 && StageFailed(fs, loads, k) && forall j :: 0 <= j < k ==> !StageFailed(fs, loads, j)
  }

  predicate AllStagesLoad(fs: string -> FsAnswer, loads: string -> DecodeOutcome)
  {
    !StageFailed(fs, loads, 0) && !StageFailed(fs, loads, 1) &&
    !StageFailed(fs, loads, 2) && !StageFailed(fs, loads, 3)
  }

  /** The document decoded from a replica's file. */
  function ReplicaDoc(fs: string -> FsAnswer, loads: string -> DecodeOutcome, path: string): (doc: Json)
    requires !LoadBufferAsJson(FileReader(path, fs).0, loads).1
  {
    LoadBufferAsJson(FileReader(path, fs).0, loads).0.doc
  }

  datatype Loading = LoadFailed(at: Step) | Replicas(repl0: Json, repl1: Json)

  /** The four loading steps of `prom_status_tsdb`, each run only when the
      one before it succeeded. */
  method LoadReplicas(fs: string -> FsAnswer, loads: string -> DecodeOutcome)
    returns (steps: seq<Step>, res: Loading)
    ensures forall k: nat :: FirstFailure(fs, loads, k) ==>
              steps == LoadSteps[..k + 1] && res == LoadFailed(LoadSteps[k])
    ensures AllStagesLoad(fs, loads) ==>
              && steps == LoadSteps
              && res == Replicas(ReplicaDoc(fs, loads, Replica0File), ReplicaDoc(fs, loads, Replica1File))
  {
    steps := [ReadFile(Replica0File)];
    var (buffer0, err0) := FileReader(Replica0File, fs);
    assert StageFailed(fs, loads, 0) == err0;
    if err0 {
      assert steps == LoadSteps[..1];
      return steps, LoadFailed(ReadFile(Replica0File));
    }
    steps := steps + [LoadBuffer(0)];
    var (loaded0, errLoad0) := LoadBufferAsJson(buffer0, loads);
    assert StageFailed(fs, loads, 1) == errLoad0;
    if errLoad0 {
      assert steps == LoadSteps[..2];
      return steps, LoadFailed(LoadBuffer(0));
    }
    steps := steps + [ReadFile(Replica1File)];
    var (buffer1, err1) := FileReader(Replica1File, fs);
    assert StageFailed(fs, loads, 2) == err1;
    if err1 {
      assert steps == LoadSteps[..3];
      return steps, LoadFailed(ReadFile(Replica1File));
    }
    steps := steps + [LoadBuffer(1)];
    var (loaded1, errLoad1) := LoadBufferAsJson(buffer1, loads);
    assert StageFailed(fs, loads, 3) == errLoad1;
    if errLoad1 {
      return steps, LoadFailed(LoadBuffer(1));
    }
    res := Replicas(loaded0.doc, loaded1.doc);
  }

  /** The printing half of `prom_status_tsdb`: headStats, then the four
      top-N blocks, each one printed before the next is built. */
  method PrintTsdbTables(repl0: Json, repl1: Json, fmt: Formatters) returns (out: TsdbOutcome)
    ensures out == TsdbTables(repl0, repl1, fmt)
  {
    var head := BuildHeadStats(repl0, repl1, fmt);
    if head.Err? {
      return Printed([], Some(head.exc));
    }
    var reports := [Report("headStats", Table(HeadStatsHeaders, head.value))];
    assert TsdbTables(repl0, repl1, fmt) == TopNTables(reports, repl0, repl1, fmt, TopNSections);
    out := PrintTopNTables(reports, repl0, repl1, fmt);
  }

  /** The four top-N blocks, printed after `done` in their fixed order. */
  method PrintTopNTables(done: seq<Report>, repl0: Json, repl1: Json, fmt: Formatters) returns (out: TsdbOutcome)
    ensures out == TopNTables(done, repl0, repl1, fmt, TopNSections)
  {
    var sections := TopNSections;
    TopNTablesStep(done, repl0, repl1, fmt, sections);
    out := PrintTopNBlock(done, repl0, repl1, fmt, sections[0]);
    if out.raised.Some? { return; }

    sections := sections[1..];
    TopNTablesStep(out.reports, repl0, repl1, fmt, sections);
    out := PrintTopNBlock(out.reports, repl0, repl1, fmt, sections[0]);
    if out.raised.Some? { return; }

    sections := sections[1..];
    TopNTablesStep(out.reports, repl0, repl1, fmt, sections);
    out := PrintTopNBlock(out.reports, repl0, repl1, fmt, sections[0]);
    if out.raised.Some? { return; }

    sections := sections[1..];
    TopNTablesStep(out.reports, repl0, repl1, fmt, sections);
    out := PrintTopNBlock(out.reports, repl0, repl1, fmt, sections[0]);
    assert sections[1..] == [];
  }

  /** Printing the next block either stops with its exception or goes on
      with the remaining sections. */
  lemma TopNTablesStep(done: seq<Report>, r0: Json, r1: Json, fmt: Formatters, sections: seq<Section>)
    requires |sections| > 0
    ensures var block := TopNBlock(done, r0, r1, fmt, sections[0]);
            TopNTables(done, r0, r1, fmt, sections) ==
              if block.raised.Some? then block else TopNTables(block.reports, r0, r1, fmt, sections[1..])
  {
  }


  /** One top-N block of `prom_status_tsdb` (the four blocks differ only in
      the metric key, the value word of the headers and the formatter):
      build the rows, then print them after the tables already printed. */
  method PrintTopNBlock(done: seq<Report>, repl0: Json, repl1: Json, fmt: Formatters, s: Section)
    returns (out: TsdbOutcome)
    ensures out == TopNBlock(done, repl0, repl1, fmt, s)
  {
    var rows := BuildTopN(repl0, repl1, s.metric, SectionFormatter(s, fmt));
    if rows.Err? {
      return Printed(done, Some(rows.exc));
    }
    out := Printed(done + [Report(s.metric, Table(TopNHeaders(s), rows.value))], None);
  }

  /** `prom_status_tsdb()`: read and decode replica 0's then replica 1's
      tsdb.json, returning at the first failure before anything is printed;
      then print the headStats table and the four top-N tables. */
  method PromStatusTsdb(fs: string -> FsAnswer, loads: string -> DecodeOutcome, fmt: Formatters)
    returns (steps: seq<Step>, out: TsdbOutcome)
    ensures forall k: nat :: FirstFailure(fs, loads, k) ==>
              steps == LoadSteps[..k + 1] && out == Aborted(LoadSteps[k])
    ensures AllStagesLoad(fs, loads) ==>
              && steps == LoadSteps
              && out == TsdbTables(ReplicaDoc(fs, loads, Replica0File), ReplicaDoc(fs, loads, Replica1File), fmt)
  {
    var loading;
    steps, loading := LoadReplicas(fs, loads);
    if loading.LoadFailed? {
      return steps, Aborted(loading.at);
    }
    out := PrintTsdbTables(loading.repl0, loading.repl1, fmt);
  }

  /** Exactly one of the two happens: some step is the first to fail, or
      all four succeed. */
  lemma LoadingIsDecided(fs: string -> FsAnswer, loads: string -> DecodeOutcome)
    ensures AllStagesLoad(fs, loads) <==> forall k: nat :: !FirstFailure(fs, loads, k)
  {
    if !AllStagesLoad(fs, loads) {
      if StageFailed(fs, loads, 0) { assert FirstFailure(fs, loads, 0); }
      else if StageFailed(fs, loads, 1) { assert FirstFailure(fs, loads, 1); }
      else if StageFailed(fs, loads, 2) { assert FirstFailure(fs, loads, 2); }
      else { assert FirstFailure(fs, loads, 3); }
    }
  }

  /** A complete report prints five tables in the fixed order, headStats
      first with its four rows, then each top-N table in its section with its
      formatter: sizes for memoryInBytesByLabelName, counts for the others. */
  lemma TsdbTablesOrder(r0: Json, r1: Json, fmt: Formatters)
    requires TsdbTables(r0, r1, fmt).raised.None?
    ensures HeadStatsRows(r0, r1, fmt).Ok? && |TsdbTables(r0, r1, fmt).reports| == 5
    ensures var reports := TsdbTables(r0, r1, fmt).reports;
            && reports[0] == Report("headStats", Table(HeadStatsHeaders, HeadStatsRows(r0, r1, fmt).value))
            && |reports[0].table.rows| == 4
            && forall k :: 1 <= k < 5 ==> BlockReport(reports[k], r0, r1, fmt, TopNSections[k - 1])
  {
    var head := HeadStatsRows(r0, r1, fmt);
    assert head.Ok?;
    HeadStatsOrder(r0, r1, fmt);
    var done := [Report("headStats", Table(HeadStatsHeaders, head.value))];
    var out := TopNTables(done, r0, r1, fmt, TopNSections);
    assert TsdbTables(r0, r1, fmt) == out;
    assert out.reports[0] == out.reports[..1][0];
    TopNTablesContents(done, r0, r1, fmt, TopNSections);
  }

  /** `reports[start..]` begins with the complete tables of `sections`, in order. */
  predicate CompleteBlocks(reports: seq<Report>, start: nat, r0: Json, r1: Json, fmt: Formatters,
                           sections: seq<Section>)
  {
    && start + |sections| <= |reports|
    && forall k :: 0 <= k < |sections| ==> BlockReport(reports[start + k], r0, r1, fmt, sections[k])
  }

  /** What each printed top-N report holds. */
  lemma {:induction false} TopNTablesContents(done: seq<Report>, r0: Json, r1: Json, fmt: Formatters, sections: seq<Section>)
    requires TopNTables(done, r0, r1, fmt, sections).raised.None?
    ensures CompleteBlocks(TopNTables(done, r0, r1, fmt, sections).reports, |done|, r0, r1, fmt, sections)
    decreases |sections|
  {
    if |sections| > 0 {
      TopNTablesStep(done, r0, r1, fmt, sections);
      var block := TopNBlock(done, r0, r1, fmt, sections[0]);
      TopNTablesContents(block.reports, r0, r1, fmt, sections[1..]);
      var reports := TopNTables(block.reports, r0, r1, fmt, sections[1..]).reports;
      assert |block.reports| == |done| + 1;
      assert reports[..|block.reports|] == block.reports;
      assert reports[|done|] == block.reports[|done|];
      CompleteBlocksCons(reports, |done|, |block.reports|, r0, r1, fmt, sections);
    }
  }

  /** A complete block in front of complete blocks. */
  lemma CompleteBlocksCons(reports: seq<Report>, start: nat, next: nat, r0: Json, r1: Json, fmt: Formatters,
                           sections: seq<Section>)
    requires |sections| > 0 && next == start + 1 && start < |reports|
    requires BlockReport(reports[start], r0, r1, fmt, sections[0])
    requires CompleteBlocks(reports, next, r0, r1, fmt, sections[1..])
    ensures CompleteBlocks(reports, start, r0, r1, fmt, sections)
  {
    forall k | 0 <= k < |sections|
      ensures BlockReport(reports[start + k], r0, r1, fmt, sections[k])
    {
      if k > 0 {
        assert sections[1..][k - 1] == sections[k];
        assert next + (k - 1) == start + k;
      }
    }
  }

  /** `reports[start..]` are the complete tables of a prefix of `sections`,
      and the section right after that prefix raised `e`. */
  predicate StoppedBy(reports: seq<Report>, start: nat, r0: Json, r1: Json, fmt: Formatters,
                      sections: seq<Section>, e: Exc)
  {
    && start <= |reports| < start + |sections|
    && (forall k :: 0 <= k < |reports| - start ==> BlockReport(reports[start + k], r0, r1, fmt, sections[k]))
    && var failing := sections[|reports| - start];
       TopNRows(r0, r1, failing.metric, SectionFormatter(failing, fmt)) == Err(e)
  }

  /** When an exception stops the printing, either headStats raised it and
      nothing was printed, or the tables printed are headStats followed by
      the complete top-N tables before the one that raised it. */
  lemma TsdbTablesRaised(r0: Json, r1: Json, fmt: Formatters, e: Exc)
    requires TsdbTables(r0, r1, fmt).raised == Some(e)
    ensures HeadStatsRows(r0, r1, fmt).Err? ==>
              HeadStatsRows(r0, r1, fmt) == Err(e) && TsdbTables(r0, r1, fmt).reports == []
    ensures HeadStatsRows(r0, r1, fmt).Ok? ==>
              var reports := TsdbTables(r0, r1, fmt).reports;
              && |reports| <= 4
              && reports[..1] == [Report("headStats", Table(HeadStatsHeaders, HeadStatsRows(r0, r1, fmt).value))]
              && StoppedBy(reports, 1, r0, r1, fmt, TopNSections, e)
  {
    var head := HeadStatsRows(r0, r1, fmt);
    if head.Ok? {
      var done := [Report("headStats", Table(HeadStatsHeaders, head.value))];
      TopNTablesRaised(done, r0, r1, fmt, TopNSections, e);
    }
  }

  /** The top-N part of the above. */
  lemma {:induction false} TopNTablesRaised(done: seq<Report>, r0: Json, r1: Json, fmt: Formatters,
                                            sections: seq<Section>, e: Exc)
    requires TopNTables(done, r0, r1, fmt, sections).raised == Some(e)
    ensures StoppedBy(TopNTables(done, r0, r1, fmt, sections).reports, |done|, r0, r1, fmt, sections, e)
    decreases |sections|
  {
    TopNTablesStep(done, r0, r1, fmt, sections);
    var block := TopNBlock(done, r0, r1, fmt, sections[0]);
    if block.raised.None? {
      TopNTablesRaised(block.reports, r0, r1, fmt, sections[1..], e);
      var reports := TopNTables(block.reports, r0, r1, fmt, sections[1..]).reports;
      assert |block.reports| == |done| + 1;
      assert reports[..|block.reports|] == block.reports;
      assert reports[|done|] == block.reports[|done|];
      StoppedByCons(reports, |done|, r0, r1, fmt, sections, e);
    }
  }

  /** A complete block in front of a stop is still a stop. */
  lemma StoppedByCons(reports: seq<Report>, start: nat, r0: Json, r1: Json, fmt: Formatters,
                      sections: seq<Section>, e: Exc)
    requires start < |reports| && |sections| > 0
    requires BlockReport(reports[start], r0, r1, fmt, sections[0])
    requires StoppedBy(reports, start + 1, r0, r1, fmt, sections[1..], e)
    ensures StoppedBy(reports, start, r0, r1, fmt, sections, e)
  {
    forall k | 0 <= k < |reports| - start
      ensures BlockReport(reports[start + k], r0, r1, fmt, sections[k])
    {
      if k > 0 {
        assert sections[1..][k - 1] == sections[k];
        assert (start + 1) + (k - 1) == start + k;
      }
    }
    assert sections[1..][|reports| - (start + 1)] == sections[|reports| - start];
  }

  /** The memory table formats with the size formatter, the other three
      with the count formatter. */
  lemma SectionFormatters(fmt: Formatters)
    ensures SectionFormatter(TopNSections[2], fmt) == fmt.sizeOf
    ensures forall k :: 0 <= k < 4 && k != 2 ==> SectionFormatter(TopNSections[k], fmt) == fmt.countOf
  {
  }

  // ---------------------------------------------------------------------
  // prom_status_tsdb reached through parser_main

  /** How the call `fn_out(buffer)` of the prometheus-status-tsdb entry ends:
      a failed loading step prints its message and returns, and so does a
      complete report; an exception raised while printing leaves the call. */
  function TsdbEffect(fs: string -> FsAnswer, loads: string -> DecodeOutcome, fmt: Formatters): (eff: Effect)
    ensures !AllStagesLoad(fs, loads) ==> eff == Returned
    ensures AllStagesLoad(fs, loads) ==>
              var out := TsdbTables(ReplicaDoc(fs, loads, Replica0File), ReplicaDoc(fs, loads, Replica1File), fmt);
              && (eff == Returned <==> out.raised.None?)
              && (eff.Raised? ==> out.raised == Some(eff.exc))
  {
    if !AllStagesLoad(fs, loads) then Returned
    else
      match TsdbTables(ReplicaDoc(fs, loads, Replica0File), ReplicaDoc(fs, loads, Replica1File), fmt).raised
      case None => Returned
      case Some(e) => Raised(e)
  }

  /** The call `parser_main` makes for the prometheus-status-tsdb entry. */
  function TsdbCall(fs: string -> FsAnswer): (call: Invocation)
  {
    Invocation(Extractor.PromStatusTsdb, FileReader("", fs).0)
  }

  /** `parser_main(["prometheus-status-tsdb", ...])` where `run` behaves as
      `prom_status_tsdb` does: the entry has no input file and ignores the
      read error, so the report always runs; a KeyError it raises turns into
      the help listing, any other exception leaves `parser_main`. */
  lemma TsdbDispatch(rest: seq<string>, fs: string -> FsAnswer, loads: string -> DecodeOutcome,
                     fmt: Formatters, run: Invocation -> Effect)
    requires run(TsdbCall(fs)) == TsdbEffect(fs, loads, fmt)
    ensures var r := ParserMain(Some(["prometheus-status-tsdb"] + rest), false, fs, run);
            && (!AllStagesLoad(fs, loads) ==> r == Extracted(TsdbCall(fs)))
            && (AllStagesLoad(fs, loads) ==>
                  var out := TsdbTables(ReplicaDoc(fs, loads, Replica0File), ReplicaDoc(fs, loads, Replica1File), fmt);
                  && (out.raised.None? ==> r == Extracted(TsdbCall(fs)))
                  && (out.raised == Some(KeyError) ==> r == ListingAfter(TsdbCall(fs)))
                  && (out.raised.Some? && out.raised.value != KeyError ==>
                        r == Propagated(TsdbCall(fs), out.raised.value)))
  {
    LookupAt(6);
    assert ParserMap[6].0 == "prometheus-status-tsdb";
    KnownCommandPolicy("prometheus-status-tsdb", rest, fs, run);
  }

  /** A replica 0 document without `data.headStats.numSeries` makes
      `parser_main` show the help listing after the call. */
  lemma TsdbMissingStatShowsHelp(rest: seq<string>, fs: string -> FsAnswer, loads: string -> DecodeOutcome,
                                 fmt: Formatters, run: Invocation -> Effect)
    requires run(TsdbCall(fs)) == TsdbEffect(fs, loads, fmt)
    requires AllStagesLoad(fs, loads)
    requires Path(ReplicaDoc(fs, loads, Replica0File), StatPath("numSeries")) == Err(KeyError)
    ensures ParserMain(Some(["prometheus-status-tsdb"] + rest), false, fs, run) == ListingAfter(TsdbCall(fs))
  {
    var r0, r1 := ReplicaDoc(fs, loads, Replica0File), ReplicaDoc(fs, loads, Replica1File);
    assert HeadStatsRow(r0, r1, "numSeries", fmt.countOf) == Err(KeyError);
    assert TsdbTables(r0, r1, fmt).raised == Some(KeyError);
    TsdbDispatch(rest, fs, loads, fmt, run);
  }

  /** A replica 1 series-count list shorter than replica 0's makes the
      IndexError of the first top-N table leave `parser_main`. */
  lemma TsdbShorterReplicaPropagates(rest: seq<string>, fs: string -> FsAnswer, loads: string -> DecodeOutcome,
                                     fmt: Formatters, run: Invocation -> Effect,
                                     items0: seq<Json>, items1: seq<Json>)
    requires run(TsdbCall(fs)) == TsdbEffect(fs, loads, fmt)
    requires AllStagesLoad(fs, loads)
    requires HeadStatsRows(ReplicaDoc(fs, loads, Replica0File), ReplicaDoc(fs, loads, Replica1File), fmt).Ok?
    requires RankedList(ReplicaDoc(fs, loads, Replica0File), "seriesCountByMetricName", items0)
    requires RankedList(ReplicaDoc(fs, loads, Replica1File), "seriesCountByMetricName", items1)
    requires |items1| < |items0|
    ensures ParserMain(Some(["prometheus-status-tsdb"] + rest), false, fs, run) ==
              Propagated(TsdbCall(fs), IndexError)
  {
    var r0, r1 := ReplicaDoc(fs, loads, Replica0File), ReplicaDoc(fs, loads, Replica1File);
    var s := TopNSections[0];
    TopNShorterReplicaRaises(r0, r1, s.metric, SectionFormatter(s, fmt), items0, items1);
    var done := [Report("headStats", Table(HeadStatsHeaders, HeadStatsRows(r0, r1, fmt).value))];
    TopNTablesStep(done, r0, r1, fmt, TopNSections);
    assert TsdbTables(r0, r1, fmt).raised == Some(IndexError);
    TsdbDispatch(rest, fs, loads, fmt, run);
  }

  // ---------------------------------------------------------------------
  // prom_show_all

  /** `cmd.startswith('etcd') and not cmd.startswith('etcd-all')`. */
  predicate IsEtcdSubCommand(name: string)
  {
    "etcd" <= name && !("etcd-all" <= name)
  }

  /** The descriptors of the entries whose key passes the etcd filter, in
      registry order. */
  function EtcdSelection(entries: seq<Entry>): (sel: seq<Descriptor>)
    ensures |sel| <= |entries|
    decreases |entries|
  {
    if |entries| == 0 then []
    else
      var last := entries[|entries| - 1];
      EtcdSelection(entries[..|entries| - 1]) + (if IsEtcdSubCommand(last.0) then [last.1] else [])
  }

  /** A descriptor is selected exactly when some entry with an etcd key
      holds it. */
  lemma {:induction false} EtcdSelectionMembers(entries: seq<Entry>, d: Descriptor)
    ensures d in EtcdSelection(entries) <==>
      exists i :: 0 <= i < |entries| && IsEtcdSubCommand(entries[i].0) && entries[i].1 == d
    decreases |entries|
  {
    if |entries| > 0 {
      var init := entries[..|entries| - 1];
      EtcdSelectionMembers(init, d);
      assert forall i :: 0 <= i < |init| ==> init[i] == entries[i];
    }
  }

  /** One more entry extends the selection by at most that entry. */
  lemma EtcdSelectionStep(entries: seq<Entry>, k: nat)
    requires k < |entries|
    ensures EtcdSelection(entries[..k + 1]) ==
      EtcdSelection(entries[..k]) + (if IsEtcdSubCommand(entries[k].0) then [entries[k].1] else [])
  {
    assert entries[..k + 1][..k] == entries[..k];
  }

  /** A registry laid out like `parser_map`: three etcd reports, then
      etcd-all and four other reports. */
  lemma {:induction false} EtcdSelectionOfLayout(entries: seq<Entry>)
    requires |entries| == 8
    requires IsEtcdSubCommand(entries[0].0) && IsEtcdSubCommand(entries[1].0)
    requires IsEtcdSubCommand(entries[2].0) && !IsEtcdSubCommand(entries[3].0)
    requires !IsEtcdSubCommand(entries[4].0) && !IsEtcdSubCommand(entries[5].0)
    requires !IsEtcdSubCommand(entries[6].0) && !IsEtcdSubCommand(entries[7].0)
    ensures EtcdSelection(entries) == [entries[0].1, entries[1].1, entries[2].1]
  {
    assert entries[..0] == [];
    EtcdSelectionStep(entries, 0);
    EtcdSelectionStep(entries, 1);
    EtcdSelectionStep(entries, 2);
    EtcdSelectionStep(entries, 3);
    EtcdSelectionStep(entries, 4);
    EtcdSelectionStep(entries, 5);
    EtcdSelectionStep(entries, 6);
    EtcdSelectionStep(entries, 7);
    assert entries[..8] == entries;
  }

  /** On the registry, the composite runs the member list, endpoint health
      and endpoint status reports, in that order, and not etcd-all itself. */
  lemma RegistryEtcdSelection()
    ensures EtcdSelection(ParserMap) == [ParserMap[0].1, ParserMap[1].1, ParserMap[2].1]
  {
    RegistryEtcdKeys();
    EtcdSelectionOfLayout(ParserMap);
  }

  /** The first three keys of the registry pass the etcd filter; etcd-all
      and the rest do not. */
  lemma RegistryEtcdKeys()
    ensures IsEtcdSubCommand(ParserMap[0].0) && IsEtcdSubCommand(ParserMap[1].0)
    ensures IsEtcdSubCommand(ParserMap[2].0) && !IsEtcdSubCommand(ParserMap[3].0)
    ensures !IsEtcdSubCommand(ParserMap[4].0) && !IsEtcdSubCommand(ParserMap[5].0)
    ensures !IsEtcdSubCommand(ParserMap[6].0) && !IsEtcdSubCommand(ParserMap[7].0)
  {
    var entries := ParserMap;
    EtcdKey(entries[0].0, 'm');
    EtcdKey(entries[1].0, 'e');
    EtcdKey(entries[2].0, 'e');
    assert "etcd-all" <= entries[3].0;
    OtherKey(entries[4].0);
    OtherKey(entries[5].0);
    OtherKey(entries[6].0);
    OtherKey(entries[7].0);
  }

  lemma EtcdKey(name: string, c: char)
    requires |name| > 5 && name[..5] == "etcd-" && name[5] == c && c != 'a'
    ensures IsEtcdSubCommand(name)
  {
    assert "etcd" == name[..4];
    assert "etcd-all"[5] != name[5];
  }

  lemma OtherKey(name: string)
    requires |name| > 0 && name[0] != 'e'
    ensures !IsEtcdSubCommand(name)
  {
    assert "etcd"[0] != name[0];
  }

  /** `prom_show_all()` over the registry. */
  method PromShowAll(fs: string -> FsAnswer, run: Invocation -> Effect)
    returns (calls: seq<Invocation>, raised: Option<Exc>)
    ensures var sel := EtcdSelection(ParserMap);
            && |calls| <= |sel|
            && (forall k :: 0 <= k < |calls| ==>
                  calls[k] == Invocation(sel[k].fnOut, FileReader(sel[k].fileIn, fs).0))
            && (raised.None? ==> |calls| == |sel| && forall k :: 0 <= k < |calls| ==> run(calls[k]) == Returned)
            && (raised.Some? ==>
                  && |calls| > 0
                  && run(calls[|calls| - 1]) == Raised(raised.value)
                  && forall k :: 0 <= k < |calls| - 1 ==> run(calls[k]) == Returned)
  {
    RegistryWellFormed();
    calls, raised := ShowAllOf(ParserMap, fs, run);
  }

  /** The body of `prom_show_all()`, over any registry whose keys are unique
      and equal to their descriptors' `command`: select the etcd entries,
      then call each one's `fn_out` with what reading its file returned,
      error or not. An exception from an extractor ends the run. */
  method ShowAllOf(registry: seq<Entry>, fs: string -> FsAnswer, run: Invocation -> Effect)
    returns (calls: seq<Invocation>, raised: Option<Exc>)
    requires UniqueKeys(registry)
    requires forall i :: 0 <= i < |registry| ==> registry[i].1.command == registry[i].0
    ensures var sel := EtcdSelection(registry);
            && |calls| <= |sel|
            && (forall k :: 0 <= k < |calls| ==>
                  calls[k] == Invocation(sel[k].fnOut, FileReader(sel[k].fileIn, fs).0))
            && (raised.None? ==> |calls| == |sel| && forall k :: 0 <= k < |calls| ==> run(calls[k]) == Returned)
            && (raised.Some? ==>
                  && |calls| > 0
                  && run(calls[|calls| - 1]) == Raised(raised.value)
                  && forall k :: 0 <= k < |calls| - 1 ==> run(calls[k]) == Returned)
  {
    var etcdCmds := SelectEtcd(registry);
    calls := [];
    for j := 0 to |etcdCmds|
      invariant |calls| == j
      invariant forall k :: 0 <= k < j ==>
        calls[k] == Invocation(etcdCmds[k].fnOut, FileReader(etcdCmds[k].fileIn, fs).0)
      invariant forall k :: 0 <= k < j ==> run(calls[k]) == Returned
    {
      var cmd := etcdCmds[j];
      var (buffer, err) := FileReader(cmd.fileIn, fs);
      FindSelected(registry, cmd);
      var call := Invocation(Find(registry, cmd.command).value.fnOut, buffer);
      calls := calls + [call];
      if run(call).Raised? {
        return calls, Some(run(call).exc);
      }
    }
    raised := None;
  }

  /** The first loop of `prom_show_all()`: the descriptors of the etcd
      entries, in registry order. */
  method SelectEtcd(registry: seq<Entry>) returns (etcdCmds: seq<Descriptor>)
    requires UniqueKeys(registry)
    ensures etcdCmds == EtcdSelection(registry)
  {
    etcdCmds := [];
    for i := 0 to |registry|
      invariant etcdCmds == EtcdSelection(registry[..i])
    {
      assert registry[..i + 1][..i] == registry[..i];
      var cmd := registry[i].0;
      if !("etcd" <= cmd) {
        continue;
      }
      if "etcd-all" <= cmd {
        continue;
      }
      FindAt(registry, i);
      etcdCmds := etcdCmds + [Find(registry, cmd).value];
    }
    assert registry[..|registry|] == registry;
  }

  /** Looking a selected descriptor up again by its `command` finds it. */
  lemma FindSelected(registry: seq<Entry>, d: Descriptor)
    requires UniqueKeys(registry)
    requires forall i :: 0 <= i < |registry| ==> registry[i].1.command == registry[i].0
    requires d in EtcdSelection(registry)
    ensures Find(registry, d.command) == Some(d)
  {
    EtcdSelectionMembers(registry, d);
    var i :| 0 <= i < |registry| && IsEtcdSubCommand(registry[i].0) && registry[i].1 == d;
    FindAt(registry, i);
  }

}
