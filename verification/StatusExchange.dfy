/** A node's answer on its way into the orchestrator's table: what the table holds afterwards, field
    by field. */
module StatusExchange {
  import opened Text
  import opened NodeInfoStorage
  import opened StatusMessage
  import opened MessageHandler
  import opened StatusRoundTrip
  import opened StatusRefresh

  /** The numbers of the report that the bootstrap handler parses are ints. */
  predicate ReportFits(r: NodeReport) {
    && r.cores <= 0x7FFF_FFFF && r.ram <= 0x7FFF_FFFF && r.rom <= 0x7FFF_FFFF && DataList(r.data).Done?
    && forall i :: 0 <= i < |r.functions| ==>
         var f := r.functions[i];
         && f.counter <= 0x7FFF_FFFF && f.missed <= 0x7FFF_FFFF && f.cpu <= 0x7FFF_FFFF
         && f.ram <= 0x7FFF_FFFF && f.rom <= 0x7FFF_FFFF && f.size <= 0x7FFF_FFFF
  }

  /** The row tells every field of the reported function. */
  ghost predicate Tells(row: FunctionRow, f: FunctionReport) {
    && row.name == "/" + f.name && row.status == f.enabled && row.exeCounter == f.counter && row.interestCounter == f.missed
    && row.cores == f.cpu && row.ram == f.ram && row.rom == f.rom && row.size == f.size
    && row.inputs == if f.inputs == "null" then [] else Split(f.inputs, ',')
  }

  /** The view tells every field of the report, with no busy count. */
  ghost predicate Shows(v: View, r: NodeReport) {
    && v.cpu == r.cores && v.ram == r.ram && v.rom == r.rom && v.busy == 0
    && v.links == Split(r.links, ',') && v.runtimes == Split(r.runtimes, ',') && DataList(r.data) == Done(v.data)
    && |v.functions| == |r.functions| && forall i :: 0 <= i < |r.functions| ==> Tells(v.functions[i], r.functions[i])
  }

  lemma {:induction false} RowsTell(fs: seq<FunctionReport>)
    ensures |RowsOf(fs)| == |fs| && forall i :: 0 <= i < |fs| ==> Tells(RowsOf(fs)[i], fs[i])
  {
    hide Split;
    if fs != [] { RowsTell(fs[1..]); }
  }

  /** A node answers a bootstrap request and the orchestrator handles the answer: a node that was not
      in the table is now, with all that it reported in both views alike; one that was is left as it
      was, and so are all others. The handler ends in an exception exactly when a number is no int. */
  method BootstrapNode(app: NdnOrchestrationComputeNodeApp, handler: OrchestrationMessageHandler) returns (ok: bool)
    requires Clean(app.report)
    modifies app, handler.storage
    ensures ok <==> ReportFits(app.report)
    ensures var id, before, after := "/" + app.report.name, old(handler.storage.table), handler.storage.table;
      && (!ok || id in before ==> after == before)
      && (ok && id !in before ==>
            && after.Keys == before.Keys + {id} && (forall other :: other in before ==> after[other] == before[other])
            && after[id].name == id && Shows(after[id].initial, app.report) && Shows(after[id].current, app.report))
    ensures app.busyCounter == 0
  {
    var payload := app.StatusFetchHandler(true);
    ok := handler.HandleMessage("/BootstrapInfo", payload);
    var r := app.report.(busy := 0);
    BootstrapRoundTrip(r);
    RowsTell(r.functions);
  }

  /** What a status message makes of the rows: those reported tell the report, with the old inputs in
      front of the reported ones; the others stay. */
  ghost predicate RowsRefreshed(rows: seq<FunctionRow>, rows1: seq<FunctionRow>, fs: seq<FunctionReport>) {
    && |rows1| == |rows|
    && (forall k, j :: 0 <= k < |rows| && 0 <= j < |fs| && rows[k].name == "/" + fs[j].name ==>
          rows1[k] == FunctionRow("/" + fs[j].name, fs[j].enabled, fs[j].counter, fs[j].missed, fs[j].cpu, fs[j].ram,
                                  fs[j].rom, fs[j].size, rows[k].inputs + Split(fs[j].inputs, ',')))
    && (forall k :: 0 <= k < |rows| && (forall j :: 0 <= j < |fs| ==> rows[k].name != "/" + fs[j].name) ==> rows1[k] == rows[k])
  }

  /** A node answers a status request and the orchestrator handles the answer: RAM, ROM, busy counter,
      links, runtimes, data and known rows of the current view are the reported ones; the CPU, the
      default view and every other record are as before. */
  method RefreshNode(app: NdnOrchestrationComputeNodeApp, handler: OrchestrationMessageHandler) returns (ok: bool)
    requires Clean(app.report) && DistinctReports(app.report.functions)
    modifies app, handler.storage
    ensures var id, before, after := "/" + app.report.name, old(handler.storage.table), handler.storage.table;
      && after.Keys == before.Keys && (forall other :: other in before && other != id ==> after[other] == before[other])
      && (id in before ==> after[id].name == before[id].name && after[id].initial == before[id].initial)
      && (id in before && ok && DistinctRows(before[id].current.functions) ==>
            var v, v1 := before[id].current, after[id].current;
            && v1.ram == app.report.ram && v1.rom == app.report.rom && v1.busy == old(app.busyCounter) && v1.cpu == v.cpu
            && v1.links == Split(app.report.links, ',') && v1.runtimes == Split(app.report.runtimes, ',')
            && (if app.report.data == "null" then v1.data == v.data else DataList(app.report.data) == Done(v1.data))
            && RowsRefreshed(v.functions, v1.functions, app.report.functions))
      && (id in before ==> (ok <==> FetchFits(before[id].current, app.report.(busy := old(app.busyCounter)))))
    ensures app.busyCounter == 0
  {
    ghost var before, r := handler.storage.table, app.report.(busy := app.busyCounter);
    var payload := app.StatusFetchHandler(false);
    ok := handler.HandleMessage("/NodeStatusFetch", payload);
    FetchKeepsDefaults(before, payload);
    FetchLeavesOthers(before, r);
    if "/" + r.name in before {
      FetchRefreshes(before, r);
      var rows := before["/" + r.name].current.functions;
      if DistinctRows(rows) { MergedRows(rows, r.functions); }
    }
  }

  lemma MergedRows(rows: seq<FunctionRow>, fs: seq<FunctionReport>)
    requires DistinctRows(rows) && DistinctReports(fs)
    ensures RowsRefreshed(rows, MergeRows(rows, fs), fs)
  {
    hide Split, MergeRows;
    MergeRowsIsExact(rows, fs);
  }

  /** A name made from text has exactly one slash added, if it had none in front. */
  lemma NameUriInFields(s: string)
    ensures NameUri(s) == if |s| > 0 && s[0] == '/' then s else "/" + s
  {
  }

  // ---- What a message looks like ----

  /** The fields in their order under their keys, split by semicolons; each function behind a slash,
      its nine pieces split by colons. */
  lemma MessageFormat(r: NodeReport)
    requires Clean(r)
    ensures StatusText(r) == Join(
      ["name=/" + r.name, "processor_core=" + Digits(r.cores), "processor_type=" + Digits(r.speed),
       "RAM=" + Digits(r.ram), "ROM=" + Digits(r.rom), "links=" + r.links, "runtimes=" + r.runtimes,
       "node_busy_counter=" + Digits(r.busy), "data=" + r.data, "functions=" + FunctionsText(r.functions)], ';')
  {
    hide Split, StatusText, Join, Digits, FunctionsText, Clean, FieldsOf;
    MessageSplits(r);
    JoinSplit(StatusText(r), ';');
    FieldsFormat(r);
  }

  lemma FieldsFormat(r: NodeReport)
    ensures FieldsOf(r) ==
      ["name=/" + r.name, "processor_core=" + Digits(r.cores), "processor_type=" + Digits(r.speed),
       "RAM=" + Digits(r.ram), "ROM=" + Digits(r.rom), "links=" + r.links, "runtimes=" + r.runtimes,
       "node_busy_counter=" + Digits(r.busy), "data=" + r.data, "functions=" + FunctionsText(r.functions)]
  {
    hide Digits, FunctionsText;
    var keys := ["name", "processor_core", "processor_type", "RAM", "ROM", "links", "runtimes", "node_busy_counter",
                 "data", "functions"];
    var heads := ["name=", "processor_core=", "processor_type=", "RAM=", "ROM=", "links=", "runtimes=",
                  "node_busy_counter=", "data=", "functions="];
    assert forall k :: 0 <= k < 10 ==> keys[k] + ['='] == heads[k];
    assert "name" + ['='] + (['/'] + r.name) == "name=/" + r.name;
    var fs := FieldsOf(r);
    assert fs[1] == keys[1] + ['='] + Digits(r.cores) && fs[2] == keys[2] + ['='] + Digits(r.speed);
    assert fs[3] == keys[3] + ['='] + Digits(r.ram) && fs[4] == keys[4] + ['='] + Digits(r.rom);
    assert fs[5] == keys[5] + ['='] + r.links && fs[6] == keys[6] + ['='] + r.runtimes;
    assert fs[7] == keys[7] + ['='] + Digits(r.busy) && fs[8] == keys[8] + ['='] + r.data;
    assert fs[9] == keys[9] + ['='] + FunctionsText(r.functions);
  }

  lemma {:induction false} RowsFormat(fs: seq<FunctionReport>)
    requires AllClean(fs)
    ensures FunctionsText(fs) == SlashText(RowTexts(fs)) && |RowTexts(fs)| == |fs|
    ensures forall i :: 0 <= i < |fs| ==>
      var f := fs[i];
      RowTexts(fs)[i] == Join([f.name, if f.enabled then "1" else "0", Digits(f.counter), Digits(f.missed),
        Digits(f.cpu), Digits(f.ram), Digits(f.rom), Digits(f.size), f.inputs], ':')
  {
    hide Join, Digits;
    RowTextsFree(fs);
    if fs != [] {
      CleanTail(fs);
      RowsFormat(fs[1..]);
    }
  }
}
