/** Where the snapshot that an orchestration round starts from comes from: the nodes' own reports. */
module Snapshots {
  import opened Names
  import opened ComputeNodes
  import opened NodeInfoStorage
  import opened StatusMessage
  import opened MessageHandler
  import opened StatusRoundTrip
  import opened StatusRefresh
  import opened FunctionSwitch
  import opened SwitchRound

  /** The report tells the states and counters of functions that the node has installed. */
  ghost predicate Reflects(fs: seq<FunctionReport>, node: NodeState) {
    && DistinctReports(fs)
    && forall i :: 0 <= i < |fs| ==>
         && OneComponent(['/'] + fs[i].name) && Generic(fs[i].name) in node.functions
         && node.functions[Generic(fs[i].name)].enabled == fs[i].enabled
         && node.functions[Generic(fs[i].name)].execCounter == fs[i].counter
         && node.functions[Generic(fs[i].name)].missCounter == fs[i].missed
  }

  /** Every row of the table is reported. */
  ghost predicate Covers(rows: seq<FunctionRow>, fs: seq<FunctionReport>) {
    forall k :: 0 <= k < |rows| ==> IsReported(rows[k].name, fs)
  }

  ghost predicate IsReported(name: string, fs: seq<FunctionReport>) {
    exists j :: 0 <= j < |fs| && name == ['/'] + fs[j].name
  }

  lemma RowMirrors(row: FunctionRow, f: FunctionReport, node: NodeState)
    requires row.name == ['/'] + f.name && row.status == f.enabled && row.exeCounter == f.counter && row.interestCounter == f.missed
    requires OneComponent(['/'] + f.name) && Generic(f.name) in node.functions
    requires node.functions[Generic(f.name)].enabled == f.enabled
    requires node.functions[Generic(f.name)].execCounter == f.counter && node.functions[Generic(f.name)].missCounter == f.missed
    ensures OneComponent(row.name) && ComponentOf(row.name) in node.functions
    ensures node.functions[ComponentOf(row.name)].enabled == row.status
    ensures node.functions[ComponentOf(row.name)].execCounter == row.exeCounter
    ensures node.functions[ComponentOf(row.name)].missCounter == row.interestCounter
  {
    OneComponentTail(row.name);
    assert Tail(row.name) == f.name;
  }

  lemma {:induction false} RowsOfAt(fs: seq<FunctionReport>)
    ensures |RowsOf(fs)| == |fs| && forall i :: 0 <= i < |fs| ==> RowsOf(fs)[i] == RowOf(fs[i])
  {
    if fs != [] { RowsOfAt(fs[1..]); }
  }

  /** The record that a node is bootstrapped with mirrors the node. */
  lemma BootstrapMirrors(fs: seq<FunctionReport>, node: NodeState)
    requires Reflects(fs, node)
    ensures Mirrors(RowsOf(fs), node) && Covers(RowsOf(fs), fs)
  {
    hide OneComponent, InputsOf;
    RowsOfAt(fs);
    var rows := RowsOf(fs);
    forall i, j | 0 <= i < j < |rows| ensures rows[i].name != rows[j].name { SameTail(fs[i].name, fs[j].name); }
    forall k | 0 <= k < |rows|
      ensures OneComponent(rows[k].name) && ComponentOf(rows[k].name) in node.functions
        && node.functions[ComponentOf(rows[k].name)].enabled == rows[k].status
        && node.functions[ComponentOf(rows[k].name)].execCounter == rows[k].exeCounter
        && node.functions[ComponentOf(rows[k].name)].missCounter == rows[k].interestCounter
    {
      RowMirrors(rows[k], fs[k], node);
    }
  }

  /** Rows that are all reported mirror the node once the report has been merged, whatever they were. */
  lemma RefreshMirrors(rows: seq<FunctionRow>, fs: seq<FunctionReport>, node: NodeState)
    requires DistinctRows(rows) && Reflects(fs, node) && Covers(rows, fs)
    ensures Mirrors(MergeRows(rows, fs), node) && Covers(MergeRows(rows, fs), fs)
  {
    hide OneComponent, MergeRows, InputsOf;
    MergeRowsIsExact(rows, fs);
    var r := MergeRows(rows, fs);
    forall k | 0 <= k < |r|
      ensures OneComponent(r[k].name) && ComponentOf(r[k].name) in node.functions
        && node.functions[ComponentOf(r[k].name)].enabled == r[k].status
        && node.functions[ComponentOf(r[k].name)].execCounter == r[k].exeCounter
        && node.functions[ComponentOf(r[k].name)].missCounter == r[k].interestCounter
    {
      var j :| 0 <= j < |fs| && rows[k].name == ['/'] + fs[j].name;
      RowMirrors(r[k], fs[j], node);
    }
    assert forall k :: 0 <= k < |r| ==> r[k].name == rows[k].name;
  }

  // ---- A round of reports ----

  /** The table after these status messages. */
  function FetchAll(table: Table, rs: seq<NodeReport>): Table {
    if rs == [] then table
    else NodeStatusFetch(FetchAll(table, rs[..|rs| - 1]), StatusText(rs[|rs| - 1])).table
  }

  function IdOf(r: NodeReport): string { ['/'] + r.name }

  /** The report of a known node, readable and true. */
  ghost predicate Reports(r: NodeReport, table: Table, net: Network) {
    && Clean(r) && IdOf(r) in table && IdOf(r) in net && OneComponent(IdOf(r))
    && var v := table[IdOf(r)].current;
       FetchFits(v, r) && DistinctRows(v.functions) && Reflects(r.functions, net[IdOf(r)]) && Covers(v.functions, r.functions)
  }

  ghost predicate ReportsOnce(rs: seq<NodeReport>, table: Table, net: Network) {
    && (forall i :: 0 <= i < |rs| ==> Reports(rs[i], table, net))
    && forall i, j :: 0 <= i < j < |rs| ==> rs[i].name != rs[j].name
  }

  ghost predicate Reported(rs: seq<NodeReport>, id: string) {
    exists i :: 0 <= i < |rs| && IdOf(rs[i]) == id
  }

  lemma OneReport(table: Table, r: NodeReport, net: Network)
    requires Reports(r, table, net)
    ensures var t := NodeStatusFetch(table, StatusText(r)).table;
      && SameOthers(table, t, IdOf(r)) && Mirrors(t[IdOf(r)].current.functions, net[IdOf(r)])
  {
    hide Clean, FetchFits, MergeRows, Reflects, Covers, Mirrors, OneComponent, StatusText, NodeStatusFetch;
    FetchRefreshes(table, r);
    RefreshMirrors(table[IdOf(r)].current.functions, r.functions, net[IdOf(r)]);
  }

  lemma {:induction false} FetchAllMirrors(table: Table, rs: seq<NodeReport>, net: Network)
    requires ReportsOnce(rs, table, net)
    ensures var t := FetchAll(table, rs);
      && t.Keys == table.Keys
      && (forall id :: id in table && !Reported(rs, id) ==> t[id] == table[id])
      && (forall id :: id in table && Reported(rs, id) ==> id in net && OneComponent(id) && Mirrors(t[id].current.functions, net[id]))
  {
    hide Clean, FetchFits, Reflects, Covers, Mirrors, OneComponent, StatusText, NodeStatusFetch, Reported, DistinctRows;
    if rs == [] {
      NoneReported();
    } else {
      var init, last := rs[..|rs| - 1], rs[|rs| - 1];
      FetchAllMirrors(table, init, net);
      NotReportedBefore(rs);
      OneReport(FetchAll(table, init), last, net);
      assert Reports(last, table, net);
      forall id ensures Reported(rs, id) <==> Reported(init, id) || id == IdOf(last) { ReportedSplits(rs, id); }
    }
  }

  lemma NoneReported()
    ensures forall id :: !Reported([], id)
  {
  }

  lemma NotReportedBefore(rs: seq<NodeReport>)
    requires rs != [] && forall i, j :: 0 <= i < j < |rs| ==> rs[i].name != rs[j].name
    ensures !Reported(rs[..|rs| - 1], IdOf(rs[|rs| - 1]))
  {
    forall i | 0 <= i < |rs| - 1 ensures IdOf(rs[i]) != IdOf(rs[|rs| - 1]) { SameTail(rs[i].name, rs[|rs| - 1].name); }
  }

  lemma ReportedSplits(rs: seq<NodeReport>, id: string)
    requires rs != []
    ensures Reported(rs, id) <==> Reported(rs[..|rs| - 1], id) || id == IdOf(rs[|rs| - 1])
  {
    var init := rs[..|rs| - 1];
    if i :| 0 <= i < |rs| && IdOf(rs[i]) == id { assert i < |init| ==> IdOf(init[i]) == id; }
    if i :| 0 <= i < |init| && IdOf(init[i]) == id { assert IdOf(rs[i]) == id; }
  }

  /** Once every known node has reported, the table is the snapshot that the round starts from. */
  lemma ReportsMakeSnapshot(table: Table, rs: seq<NodeReport>, net: Network)
    requires ReportsOnce(rs, table, net) && forall id :: id in table ==> Reported(rs, id)
    ensures Snapshot(FetchAll(table, rs), net)
  {
    hide Mirrors, OneComponent, ReportsOnce, Reported, FetchAll;
    FetchAllMirrors(table, rs, net);
  }
}
