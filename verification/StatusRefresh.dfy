/** What a status fetch changes in the table, and the list encodings inside the message. */
module StatusRefresh {
  import opened Text
  import opened NodeInfoStorage
  import opened StatusMessage
  import opened MessageHandler
  import opened StatusRoundTrip

  // ---- Lists inside the message ----

  function InputText(inputs: seq<string>): string {
    if inputs == [] then "null" else Join(inputs, ',')
  }

  /** "null" stands for the empty list, so exactly the list of one input called null is misread. */
  lemma InputsRoundTrip(inputs: seq<string>)
    requires AllFree(inputs, ",")
    ensures InputsOf(InputText(inputs)) == inputs <==> inputs != ["null"]
  {
    if inputs != [] {
      SplitJoin(inputs, ',');
      SplitFree("null", ',');
    }
  }

  datatype DataSource = DataSource(name: string, size: nat)

  function DataPieces(ds: seq<DataSource>): seq<string> {
    if ds == [] then [] else [ds[0].name + [':'] + Digits(ds[0].size)] + DataPieces(ds[1..])
  }

  function DataText(ds: seq<DataSource>): string {
    if ds == [] then "null" else Join(DataPieces(ds), ',')
  }

  function DataRowsOf(ds: seq<DataSource>): seq<DataRow> {
    if ds == [] then [] else [DataRow(NameUri(ds[0].name), ds[0].size)] + DataRowsOf(ds[1..])
  }

  ghost predicate CleanData(ds: seq<DataSource>) {
    forall i :: 0 <= i < |ds| ==> Free(ds[i].name, ",:")
  }

  predicate SizesFit(ds: seq<DataSource>) {
    forall i :: 0 <= i < |ds| ==> ds[i].size <= INT_MAX
  }

  lemma DataPieceReads(d: DataSource)
    requires Free(d.name, ",:")
    ensures var piece := d.name + [':'] + Digits(d.size);
      && Free(piece, ",")
      && Split(piece, ':') == [d.name, Digits(d.size)]
      && ParseData(piece) == if d.size <= INT_MAX then Done(DataRow(NameUri(d.name), d.size)) else Thrown
  {
    hide Digits, Split, ParseNumber;
    FreeLess(d.name, ",:", ":");
    FreeLess(d.name, ",:", ",");
    DigitsFree(d.size, ",:");
    FreeLess(Digits(d.size), ",:", ":");
    FreeLess(Digits(d.size), ",:", ",");
    SplitCons(d.name, Digits(d.size), ':');
    SplitFree(Digits(d.size), ':');
    NumberParses(d.size);
  }

  lemma {:induction false} DataPiecesParse(ds: seq<DataSource>)
    requires CleanData(ds)
    ensures |DataPieces(ds)| == |ds| && AllFree(DataPieces(ds), ",")
    ensures forall i :: 0 <= i < |ds| ==> DataPieces(ds)[i] == ds[i].name + [':'] + Digits(ds[i].size)
    ensures ParseDataRows(DataPieces(ds)) == if SizesFit(ds) then Done(DataRowsOf(ds)) else Thrown
  {
    hide Digits, ParseData, Free;
    if ds != [] {
      var rest := ds[1..];
      assert forall i :: 0 <= i < |rest| ==> rest[i] == ds[i + 1];
      assert forall i :: 1 <= i < |ds| ==> ds[i] == rest[i - 1];
      DataPieceReads(ds[0]);
      DataPiecesParse(rest);
      assert DataPieces(ds)[1..] == DataPieces(rest);
    }
  }

  /** A data list never prints as the empty list: its first piece holds a colon. */
  lemma NotNull(ds: seq<DataSource>)
    requires CleanData(ds) && ds != []
    ensures DataText(ds) != "null"
  {
    DataPiecesParse(ds);
    SplitJoin(DataPieces(ds), ',');
    SplitFree("null", ',');
    var piece := DataPieces(ds)[0];
    assert piece == ds[0].name + [':'] + Digits(ds[0].size);
    assert piece[|ds[0].name|] == ':';
    assert forall i :: 0 <= i < |"null"| ==> "null"[i] != ':';
    assert piece != "null";
  }

  /** The data list is read back exactly when all sizes are ints. */
  lemma DataRoundTrip(ds: seq<DataSource>)
    requires CleanData(ds)
    ensures DataList(DataText(ds)) == if SizesFit(ds) then Done(DataRowsOf(ds)) else Thrown
  {
    if ds != [] {
      DataPiecesParse(ds);
      SplitJoin(DataPieces(ds), ',');
      NotNull(ds);
    }
  }

  // ---- The refreshed view ----

  /** The row keeps its old inputs in front of what the report splits into. */
  function Refreshed(row: FunctionRow, f: FunctionReport): FunctionRow {
    RowOf(f).(inputs := row.inputs + Split(f.inputs, ','))
  }

  function MergeRow(rows: seq<FunctionRow>, f: FunctionReport): seq<FunctionRow> {
    var k := FindRow(rows, ['/'] + f.name);
    if k == |rows| then rows else rows[k := Refreshed(rows[k], f)]
  }

  function MergeRows(rows: seq<FunctionRow>, fs: seq<FunctionReport>): seq<FunctionRow>
    decreases |fs|
  {
    if fs == [] then rows else MergeRows(MergeRow(rows, fs[0]), fs[1..])
  }

  function RefreshedView(v: View, r: NodeReport): View
    requires DataList(r.data).Done?
  {
    HeadView(v, r).(functions := MergeRows(v.functions, r.functions))
  }

  /** The view after every field but the functions. */
  function HeadView(v: View, r: NodeReport): View
    requires DataList(r.data).Done?
  {
    v.(ram := r.ram, rom := r.rom, busy := r.busy, links := Split(r.links, ','), runtimes := Split(r.runtimes, ','),
       data := if r.data == "null" then v.data else DataList(r.data).value)
  }

  predicate HeadFits(r: NodeReport) {
    r.cores <= INT_MAX && r.ram <= INT_MAX && r.rom <= INT_MAX && r.busy <= INT_MAX && DataList(r.data).Done?
  }

  /** Numbers in rows of functions that the table does not know are never read. */
  predicate KnownFit(rows: seq<FunctionRow>, fs: seq<FunctionReport>) {
    forall i :: 0 <= i < |fs| && FindRow(rows, ['/'] + fs[i].name) < |rows| ==> RowFits(fs[i])
  }

  predicate FetchFits(v: View, r: NodeReport) {
    HeadFits(r) && KnownFit(v.functions, r.functions)
  }

  /** The record of the node with another current view. */
  function WithCurrent(table: Table, id: string, v: View): Table
    requires id in table
  {
    table[id := table[id].(current := v)]
  }

  lemma WithCurrentTwice(table: Table, id: string, v: View, v': View)
    requires id in table
    ensures WithCurrent(WithCurrent(table, id, v), id, v') == WithCurrent(table, id, v')
    ensures WithCurrent(table, id, table[id].current) == table
    ensures id in WithCurrent(table, id, v) && WithCurrent(table, id, v)[id].current == v
  {
  }

  /** The setter calls that one reported row stands for. */
  function UpdatesOf(f: FunctionReport): seq<FunctionUpdate> {
    [SetName(['/'] + f.name), SetStatus(f.enabled), SetExeCounter(f.counter), SetInterestCounter(f.missed),
     SetCores(f.cpu), SetFuncRam(f.ram), SetFuncRom(f.rom), SetSize(f.size), AddInputs(Split(f.inputs, ','))]
  }

  lemma RowUpdatesOf(f: FunctionReport)
    requires CleanFunction(f) && RowFits(f)
    ensures RowUpdates(RowFields(f)) == Lifted(UpdatesOf(f))
  {
    hide Digits, ParseNumber, Split;
    NumberParses(f.counter); NumberParses(f.missed); NumberParses(f.cpu);
    NumberParses(f.ram); NumberParses(f.rom); NumberParses(f.size);
    assert "0"[0] != "1"[0];
  }

  function RowAfter(row: FunctionRow, us: seq<FunctionUpdate>): FunctionRow
    decreases |us|
  {
    if us == [] then row else RowAfter(UpdatedRow(row, us[0], false), us[1..])
  }

  function Lifted(us: seq<FunctionUpdate>): seq<Outcome<FunctionUpdate>> {
    seq(|us|, i requires 0 <= i < |us| => Done(us[i]))
  }

  lemma {:induction false} ApplyRowIsRowAfter(st: Fetch, k: nat, us: seq<FunctionUpdate>)
    requires st.ok && st.id in st.table && k < |st.table[st.id].current.functions|
    ensures var v := st.table[st.id].current;
      ApplyRow(st, k, Lifted(us)) == st.(table := WithCurrent(st.table, st.id,
        v.(functions := v.functions[k := RowAfter(v.functions[k], us)])))
    decreases |us|
  {
    var v := st.table[st.id].current;
    if us == [] {
      assert v.functions[k := v.functions[k]] == v.functions;
      WithCurrentTwice(st.table, st.id, v, v);
    } else {
      var row1 := UpdatedRow(v.functions[k], us[0], false);
      var st1 := st.(table := SetFunctionIn(st.table, st.id, k, us[0], false));
      assert st1.table == WithCurrent(st.table, st.id, v.(functions := v.functions[k := row1]));
      assert Lifted(us)[1..] == Lifted(us[1..]);
      ApplyRowIsRowAfter(st1, k, us[1..]);
      assert v.functions[k := row1][k := RowAfter(row1, us[1..])] == v.functions[k := RowAfter(row1, us[1..])];
    }
  }

  lemma RowAfterStep(row: FunctionRow, us: seq<FunctionUpdate>, k: nat)
    requires k < |us|
    ensures RowAfter(row, us[k..]) == RowAfter(UpdatedRow(row, us[k], false), us[k + 1..])
  {
    assert us[k..][0] == us[k] && us[k..][1..] == us[k + 1..];
  }

  lemma UpdatesAt(f: FunctionReport)
    ensures var us := UpdatesOf(f);
      && |us| == 9 && us[0] == SetName(['/'] + f.name) && us[1] == SetStatus(f.enabled)
      && us[2] == SetExeCounter(f.counter) && us[3] == SetInterestCounter(f.missed) && us[4] == SetCores(f.cpu)
      && us[5] == SetFuncRam(f.ram) && us[6] == SetFuncRom(f.rom) && us[7] == SetSize(f.size)
      && us[8] == AddInputs(Split(f.inputs, ','))
  {
    hide Split;
  }

  lemma RowAfterAll(row: FunctionRow, f: FunctionReport)
    ensures RowAfter(row, UpdatesOf(f)) == Refreshed(row, f)
  {
    var us := UpdatesOf(f);
    var r1 := row.(name := ['/'] + f.name);
    var r2 := r1.(status := f.enabled);
    var r3 := r2.(exeCounter := f.counter);
    var r4 := r3.(interestCounter := f.missed);
    var r5 := r4.(cores := f.cpu);
    var r6 := r5.(ram := f.ram);
    var r7 := r6.(rom := f.rom);
    var r8 := r7.(size := f.size);
    UpdatesAt(f);
    RowAfterNothing(Refreshed(row, f));
    assert us[0..] == us && us[9..] == [];
    hide RowAfter, Split, UpdatesOf;
    RowAfterStep(row, us, 0);
    RowAfterStep(r1, us, 1);
    RowAfterStep(r2, us, 2);
    RowAfterStep(r3, us, 3);
    RowAfterStep(r4, us, 4);
    RowAfterStep(r5, us, 5);
    RowAfterStep(r6, us, 6);
    RowAfterStep(r7, us, 7);
    RowAfterStep(r8, us, 8);
  }

  lemma RowAfterNothing(row: FunctionRow)
    ensures RowAfter(row, []) == row
  {
  }

  lemma {:induction false} ApplyRowStops(st: Fetch, k: nat, us: seq<Outcome<FunctionUpdate>>, j: nat)
    requires st.id in st.table && k < |st.table[st.id].current.functions| && j < |us| && us[j].Thrown?
    ensures !ApplyRow(st, k, us).ok
    decreases |us|
  {
    if us[0].Done? {
      ApplyRowStops(st.(table := SetFunctionIn(st.table, st.id, k, us[0].value, false)), k, us[1..], j - 1);
    }
  }

  lemma FetchRowStops(st: Fetch, f: FunctionReport)
    requires st.ok && st.id in st.table && CleanFunction(f) && !RowFits(f)
    requires var rows := st.table[st.id].current.functions; FindRow(rows, ['/'] + f.name) < |rows|
    ensures !FetchRow(st, RowText(f)).ok
  {
    hide RowText, ApplyRow, Split, Digits, ParseNumber, CleanFunction;
    RowParses(f);
    NumberParses(f.counter); NumberParses(f.missed); NumberParses(f.cpu);
    NumberParses(f.ram); NumberParses(f.rom); NumberParses(f.size);
    var us := RowUpdates(RowFields(f));
    var j := if f.counter > INT_MAX then 2 else if f.missed > INT_MAX then 3 else if f.cpu > INT_MAX then 4
      else if f.ram > INT_MAX then 5 else if f.rom > INT_MAX then 6 else 7;
    assert us[j].Thrown?;
    ApplyRowStops(st, FindRow(st.table[st.id].current.functions, ['/'] + f.name), us, j);
  }

  lemma {:induction false} StoppedRows(st: Fetch, texts: seq<string>)
    requires !st.ok
    ensures FetchRows(st, texts) == st
    decreases |texts|
  {
    if texts != [] { StoppedRows(st, texts[1..]); }
  }

  lemma {:induction false} SameNamesSameRow(rows: seq<FunctionRow>, rows1: seq<FunctionRow>, name: string)
    requires |rows| == |rows1| && forall k :: 0 <= k < |rows| ==> rows[k].name == rows1[k].name
    ensures FindRow(rows, name) == FindRow(rows1, name)
  {
  }

  lemma MergeKeepsNames(rows: seq<FunctionRow>, f: FunctionReport)
    ensures var r := MergeRow(rows, f);
      |r| == |rows| && forall k :: 0 <= k < |rows| ==> r[k].name == rows[k].name
  {
  }

  lemma FetchRowMerges(st: Fetch, f: FunctionReport)
    requires st.ok && st.id in st.table && CleanFunction(f)
    requires var rows := st.table[st.id].current.functions; FindRow(rows, ['/'] + f.name) < |rows| ==> RowFits(f)
    ensures var v := st.table[st.id].current;
      FetchRow(st, RowText(f)) == st.(table := WithCurrent(st.table, st.id, v.(functions := MergeRow(v.functions, f))))
  {
    hide RowText, ApplyRow, RowUpdates, UpdatesOf, Lifted, RowAfter, Split, RowFits, CleanFunction;
    var v := st.table[st.id].current;
    RowParses(f);
    var k := FindRow(v.functions, ['/'] + f.name);
    if k == |v.functions| {
      WithCurrentTwice(st.table, st.id, v, v);
    } else {
      RowUpdatesOf(f);
      ApplyRowIsRowAfter(st, k, UpdatesOf(f));
      RowAfterAll(v.functions[k], f);
    }
  }

  lemma KnownFitSplits(rows: seq<FunctionRow>, fs: seq<FunctionReport>)
    requires fs != []
    ensures KnownFit(rows, fs) <==>
      (FindRow(rows, ['/'] + fs[0].name) < |rows| ==> RowFits(fs[0])) && KnownFit(MergeRow(rows, fs[0]), fs[1..])
  {
    hide MergeRow, FindRow, RowFits;
    var rows1 := MergeRow(rows, fs[0]);
    MergeKeepsNames(rows, fs[0]);
    forall i | 0 <= i < |fs| ensures FindRow(rows, ['/'] + fs[i].name) == FindRow(rows1, ['/'] + fs[i].name) {
      SameNamesSameRow(rows, rows1, ['/'] + fs[i].name);
    }
    var rest := fs[1..];
    if KnownFit(rows, fs) {
      forall i | 0 <= i < |rest| && FindRow(rows1, ['/'] + rest[i].name) < |rows1| ensures RowFits(rest[i]) {
        assert rest[i] == fs[i + 1];
      }
    } else {
      var i :| 0 <= i < |fs| && FindRow(rows, ['/'] + fs[i].name) < |rows| && !RowFits(fs[i]);
      assert i > 0 ==> rest[i - 1] == fs[i];
    }
  }

  lemma {:induction false} FetchRowsMerge(st: Fetch, fs: seq<FunctionReport>)
    requires st.ok && st.id in st.table && AllClean(fs)
    ensures var v := st.table[st.id].current;
      var r := FetchRows(st, RowTexts(fs));
      && (KnownFit(v.functions, fs) ==>
            r == st.(table := WithCurrent(st.table, st.id, v.(functions := MergeRows(v.functions, fs)))))
      && (!KnownFit(v.functions, fs) ==> !r.ok)
    decreases |fs|
  {
    hide RowText, FetchRow, MergeRow, RowFits, CleanFunction, KnownFit, FindRow;
    var v := st.table[st.id].current;
    if fs == [] {
      WithCurrentTwice(st.table, st.id, v, v);
      NothingToFit(v.functions);
    } else {
      CleanTail(fs);
      KnownFitSplits(v.functions, fs);
      assert RowTexts(fs)[0] == RowText(fs[0]) && RowTexts(fs)[1..] == RowTexts(fs[1..]);
      if FindRow(v.functions, ['/'] + fs[0].name) < |v.functions| && !RowFits(fs[0]) {
        FetchRowStops(st, fs[0]);
        StoppedRows(FetchRow(st, RowText(fs[0])), RowTexts(fs[1..]));
      } else {
        FetchRowMerges(st, fs[0]);
        var v1 := v.(functions := MergeRow(v.functions, fs[0]));
        WithCurrentTwice(st.table, st.id, v1, v1.(functions := MergeRows(v1.functions, fs[1..])));
        FetchRowsMerge(FetchRow(st, RowText(fs[0])), fs[1..]);
      }
    }
  }

  lemma NothingToFit(rows: seq<FunctionRow>)
    ensures KnownFit(rows, [])
  {
  }

  // ---- The whole message ----

  lemma FetchStep(st: Fetch, tokens: seq<string>, k: nat)
    requires k < |tokens|
    ensures FetchFields(st, tokens[k..]) == FetchFields(FetchField(st, tokens[k]), tokens[k + 1..])
  {
    assert tokens[k..][0] == tokens[k] && tokens[k..][1..] == tokens[k + 1..];
  }

  /** One field that sets something in the current view of a known node. */
  lemma FetchSets(st: Fetch, token: string, key: string, value: string, u: NodeUpdate)
    requires st.ok && st.id in st.table && Split(token, '=') == [key, value]
    requires KeyOf(key) !in {KOther, KName, KFunctions, KData} && FieldUpdate(KeyOf(key), value) == Done(u)
    ensures var v := st.table[st.id].current;
      FetchField(st, token) == st.(table := WithCurrent(st.table, st.id, UpdatedView(v, if u.SetCpu? then SetRam(u.n) else u)))
  {
    hide KeyOf, FieldUpdate, Split;
  }

  /** A status message of a bootstrapped node replaces, in its current view only, RAM, ROM, busy
      counter, links, runtimes and the rows of known functions; the CPU stays, the input lists
      grow, an empty data list changes nothing, and no default view and no other record changes.
      The handler ends in an exception exactly when a number that it parses is no int. */
  lemma FetchRefreshes(table: Table, r: NodeReport)
    requires Clean(r) && ['/'] + r.name in table
    ensures var id := ['/'] + r.name;
      var v := table[id].current;
      var result := NodeStatusFetch(table, StatusText(r));
      && (result.ok <==> FetchFits(v, r))
      && (FetchFits(v, r) ==> result == Fetch(WithCurrent(table, id, RefreshedView(v, r)), id, true))
  {
    hide FunctionsText, StatusText, DataList, KnownFit, FetchField, MergeRows, FieldsOf;
    var id, fs := ['/'] + r.name, FieldsOf(r);
    var v := table[id].current;
    MessageSplits(r);
    FieldValues(r);
    if HeadFits(r) {
      FetchHead(table, r);
      var v9 := HeadView(v, r);
      WithCurrentTwice(table, id, v9, RefreshedView(v, r));
      FunctionsField(Fetch(WithCurrent(table, id, v9), id, true), fs[9], r.functions);
    } else {
      FetchStops(table, r);
    }
  }

  lemma {:induction false} StoppedFields(st: Fetch, tokens: seq<string>)
    requires !st.ok
    ensures FetchFields(st, tokens) == st
    decreases |tokens|
  {
    hide Split, KeyOf;
    if tokens != [] { StoppedFields(st, tokens[1..]); }
  }

  lemma {:induction false} OneFieldStops(st: Fetch, tokens: seq<string>, j: nat)
    requires j < |tokens| && forall st1 :: !FetchField(st1, tokens[j]).ok
    ensures !FetchFields(st, tokens).ok
    decreases j
  {
    hide FetchField;
    if j == 0 {
      StoppedFields(FetchField(st, tokens[0]), tokens[1..]);
    } else {
      assert tokens[1..][j - 1] == tokens[j];
      OneFieldStops(FetchField(st, tokens[0]), tokens[1..], j - 1);
    }
  }

  lemma FieldStops(st: Fetch, token: string, key: string, value: string)
    requires Split(token, '=') == [key, value]
    requires KeyOf(key) in {KCpu, KRam, KRom, KBusy, KData}
    requires if KeyOf(key) == KData then DataList(value).Thrown? else ParseNumber(value).Thrown?
    ensures !FetchField(st, token).ok
  {
    hide KeyOf, Split, ParseNumber, ParseDataRows;
  }

  /** A number that does not fit stops the handler, whatever the state it has reached. */
  lemma FetchStops(table: Table, r: NodeReport)
    requires Clean(r) && !HeadFits(r)
    ensures !NodeStatusFetch(table, StatusText(r)).ok
  {
    hide FunctionsText, StatusText, DataList, KeyOf, Split, FetchField, FieldsOf, Digits, ParseNumber, FetchFields;
    var fs := FieldsOf(r);
    MessageSplits(r);
    FieldValues(r);
    KeysAreTold();
    NumberParses(r.cores);
    NumberParses(r.ram);
    NumberParses(r.rom);
    NumberParses(r.busy);
    var keys := ["name", "processor_core", "processor_type", "RAM", "ROM", "links", "runtimes", "node_busy_counter", "data"];
    var values := ["", Digits(r.cores), "", Digits(r.ram), Digits(r.rom), "", "", Digits(r.busy), r.data];
    var j := if r.cores > INT_MAX then 1 else if r.ram > INT_MAX then 3 else if r.rom > INT_MAX then 4
      else if r.busy > INT_MAX then 7 else 8;
    assert Split(fs[j], '=') == [keys[j], values[j]];
    forall st1 ensures !FetchField(st1, fs[j]).ok { FieldStops(st1, fs[j], keys[j], values[j]); }
    OneFieldStops(Fetch(table, "", true), fs, j);
  }

  /** Up to the functions field. */
  lemma FetchHead(table: Table, r: NodeReport)
    requires Clean(r) && HeadFits(r) && ['/'] + r.name in table
    ensures var id := ['/'] + r.name;
      NodeStatusFetch(table, StatusText(r)) ==
        FetchField(Fetch(WithCurrent(table, id, HeadView(table[id].current, r)), id, true), FieldsOf(r)[9])
  {
    hide Split, FunctionsText, Digits, Field, Free, StatusText, ParseDataRows, KeyOf, RowsFit, FieldsOf, ParseNumber,
      FetchField, MergeRows, FetchRows, DataList;
    MessageSplits(r);
    FieldValues(r);
    KeysAreTold();
    NumberParses(r.cores);
    NumberParses(r.ram);
    var id, fs := ['/'] + r.name, FieldsOf(r);
    var v0 := table[id].current;
    assert fs[0..] == fs;
    var st1 := Fetch(table, id, true);
    NameField(Fetch(table, "", true), fs[0], id);
    FetchStep(Fetch(table, "", true), fs, 0);
    var v1 := v0.(ram := r.cores);
    FetchSets(st1, fs[1], "processor_core", Digits(r.cores), SetCpu(r.cores));
    FetchStep(st1, fs, 1);
    var st2 := st1.(table := WithCurrent(table, id, v1));
    WithCurrentTwice(table, id, v1, v0.(ram := r.ram));
    OtherField(st2, fs[2], "processor_type", Digits(r.speed));
    FetchStep(st2, fs, 2);
    FetchSets(st2, fs[3], "RAM", Digits(r.ram), SetRam(r.ram));
    FetchStep(st2, fs, 3);
    FetchRest(table, r, v0.(ram := r.ram));
  }

  lemma NameField(st: Fetch, token: string, id: string)
    requires st.ok && Split(token, '=') == ["name", id]
    ensures FetchField(st, token) == st.(id := id)
  {
    KeysAreTold();
  }

  lemma OtherField(st: Fetch, token: string, key: string, value: string)
    requires Split(token, '=') == [key, value] && KeyOf(key) == KOther
    ensures FetchField(st, token) == st
  {
  }

  /** From the ROM field on, whatever the current view v was. */
  lemma FetchRest(table: Table, r: NodeReport, v: View)
    requires Clean(r) && HeadFits(r) && ['/'] + r.name in table
    requires v == table[['/'] + r.name].current.(ram := r.ram)
    ensures var id := ['/'] + r.name;
      FetchFields(Fetch(WithCurrent(table, id, v), id, true), FieldsOf(r)[4..]) ==
        FetchField(Fetch(WithCurrent(table, id, HeadView(table[id].current, r)), id, true), FieldsOf(r)[9])
  {
    hide Split, FunctionsText, Digits, Field, Free, KeyOf, RowsFit, FieldsOf, ParseNumber, FetchField, MergeRows,
      FetchRows, DataList, ParseDataRows;
    FieldValues(r);
    KeysAreTold();
    NumberParses(r.rom);
    NumberParses(r.busy);
    var id, fs := ['/'] + r.name, FieldsOf(r);
    var v4 := v.(rom := r.rom);
    var v5 := v4.(links := Split(r.links, ','));
    var v6 := v5.(runtimes := Split(r.runtimes, ','));
    var v7 := v6.(busy := r.busy);
    WithCurrentTwice(table, id, v, v4);
    WithCurrentTwice(table, id, v4, v5);
    WithCurrentTwice(table, id, v5, v6);
    WithCurrentTwice(table, id, v6, v7);
    FetchSets(Fetch(WithCurrent(table, id, v), id, true), fs[4], "ROM", Digits(r.rom), SetRom(r.rom));
    FetchStep(Fetch(WithCurrent(table, id, v), id, true), fs, 4);
    FetchSets(Fetch(WithCurrent(table, id, v4), id, true), fs[5], "links", r.links, SetLinks(Split(r.links, ',')));
    FetchStep(Fetch(WithCurrent(table, id, v4), id, true), fs, 5);
    FetchSets(Fetch(WithCurrent(table, id, v5), id, true), fs[6], "runtimes", r.runtimes, SetRuntimes(Split(r.runtimes, ',')));
    FetchStep(Fetch(WithCurrent(table, id, v5), id, true), fs, 6);
    FetchSets(Fetch(WithCurrent(table, id, v6), id, true), fs[7], "node_busy_counter", Digits(r.busy), SetBusy(r.busy));
    FetchStep(Fetch(WithCurrent(table, id, v6), id, true), fs, 7);
    var v8 := v7.(data := if r.data == "null" then v7.data else DataList(r.data).value);
    DataField(Fetch(WithCurrent(table, id, v7), id, true), fs[8], r.data);
    WithCurrentTwice(table, id, v7, v8);
    FetchStep(Fetch(WithCurrent(table, id, v7), id, true), fs, 8);
    var st9 := Fetch(WithCurrent(table, id, v8), id, true);
    FetchStep(st9, fs, 9);
    assert fs[10..] == [];
    NoFields(FetchField(st9, fs[9]));
  }

  lemma NoFields(st: Fetch)
    ensures FetchFields(st, []) == st
  {
  }

  lemma DataField(st: Fetch, token: string, text: string)
    requires st.ok && st.id in st.table && Split(token, '=') == ["data", text] && DataList(text).Done?
    ensures var v := st.table[st.id].current;
      FetchField(st, token) == st.(table := WithCurrent(st.table, st.id,
        v.(data := if text == "null" then v.data else DataList(text).value)))
  {
    KeysAreTold();
    WithCurrentTwice(st.table, st.id, st.table[st.id].current, st.table[st.id].current);
  }

  lemma FunctionsField(st: Fetch, token: string, fs: seq<FunctionReport>)
    requires st.ok && st.id in st.table && Split(token, '=') == ["functions", FunctionsText(fs)]
    requires AllClean(fs)
    ensures var v := st.table[st.id].current;
      var r := FetchField(st, token);
      && (KnownFit(v.functions, fs) ==>
            r == st.(table := WithCurrent(st.table, st.id, v.(functions := MergeRows(v.functions, fs)))))
      && (!KnownFit(v.functions, fs) ==> !r.ok)
  {
    hide FunctionsText, RowText;
    KeysAreTold();
    FunctionsSplit(fs);
    assert ([""] + RowTexts(fs))[1..] == RowTexts(fs);
    FetchRowsMerge(st, fs);
  }

  // ---- What no status message changes, however it ends ----

  /** The same nodes under the same names with the same default views. */
  ghost predicate SameDefaults(table: Table, table1: Table) {
    && table1.Keys == table.Keys
    && forall id :: id in table ==> table1[id].name == table[id].name && table1[id].initial == table[id].initial
  }

  ghost predicate SameOthers(table: Table, table1: Table, id: string) {
    table1.Keys == table.Keys && forall other :: other in table && other != id ==> table1[other] == table[other]
  }

  ghost predicate Untouched(st: Fetch, st1: Fetch) {
    SameDefaults(st.table, st1.table) && SameOthers(st.table, st1.table, st.id)
  }

  lemma {:induction false} ApplyRowTouches(st: Fetch, k: nat, us: seq<Outcome<FunctionUpdate>>)
    requires st.id in st.table && k < |st.table[st.id].current.functions|
    ensures Untouched(st, ApplyRow(st, k, us)) && ApplyRow(st, k, us).id == st.id
    decreases |us|
  {
    if us != [] && us[0].Done? {
      ApplyRowTouches(st.(table := SetFunctionIn(st.table, st.id, k, us[0].value, false)), k, us[1..]);
    }
  }

  lemma FetchRowTouches(st: Fetch, text: string)
    ensures Untouched(st, FetchRow(st, text)) && FetchRow(st, text).id == st.id
  {
    hide Split, ApplyRow, RowUpdates;
    if st.ok && st.id in st.table {
      var p, rows := Split(text, ':'), st.table[st.id].current.functions;
      var k := FindRow(rows, ['/'] + p[0]);
      if k < |rows| { ApplyRowTouches(st, k, RowUpdates(p)); }
    }
  }

  lemma {:induction false} FetchRowsTouches(st: Fetch, texts: seq<string>)
    ensures Untouched(st, FetchRows(st, texts)) && FetchRows(st, texts).id == st.id
    decreases |texts|
  {
    hide FetchRow;
    if texts != [] {
      FetchRowTouches(st, texts[0]);
      FetchRowsTouches(FetchRow(st, texts[0]), texts[1..]);
    }
  }

  lemma FetchFieldTouches(st: Fetch, token: string)
    ensures var r := FetchField(st, token);
      Untouched(st, r) && (KeyOf(Split(token, '=')[0]) != KName ==> r.id == st.id)
  {
    hide Split, KeyOf, FetchRows, ParseDataRows, FieldUpdate;
    var values := Split(token, '=');
    if |values| >= 2 { FetchRowsTouches(st, Split(values[1], '/')[1..]); }
  }

  lemma {:induction false} FetchFieldsTouch(st: Fetch, tokens: seq<string>)
    ensures SameDefaults(st.table, FetchFields(st, tokens).table)
    ensures (forall k :: 0 <= k < |tokens| ==> KeyOf(Split(tokens[k], '=')[0]) != KName) ==>
      SameOthers(st.table, FetchFields(st, tokens).table, st.id)
    decreases |tokens|
  {
    hide FetchField, Split, KeyOf;
    if tokens != [] {
      FetchFieldTouches(st, tokens[0]);
      FetchFieldsTouch(FetchField(st, tokens[0]), tokens[1..]);
      if forall k :: 0 <= k < |tokens| ==> KeyOf(Split(tokens[k], '=')[0]) != KName {
        assert forall k :: 0 <= k < |tokens| - 1 ==> tokens[1..][k] == tokens[k + 1];
      }
    }
  }

  /** Whatever the message and however it ends, no node appears or disappears and no default view
      or name changes. */
  lemma FetchKeepsDefaults(table: Table, content: string)
    ensures SameDefaults(table, NodeStatusFetch(table, content).table)
  {
    FetchFieldsTouch(Fetch(table, "", true), Split(content, ';'));
  }

  /** A printed message touches the record of its own node only, even when it ends in an exception. */
  lemma FetchLeavesOthers(table: Table, r: NodeReport)
    requires Clean(r)
    ensures SameOthers(table, NodeStatusFetch(table, StatusText(r)).table, ['/'] + r.name)
  {
    hide Split, KeyOf, FunctionsText, StatusText, FieldsOf, FetchField, Digits, Field, Free;
    var fs := FieldsOf(r);
    MessageSplits(r);
    FieldValues(r);
    KeysAreTold();
    assert fs[0..] == fs;
    FetchStep(Fetch(table, "", true), fs, 0);
    NameField(Fetch(table, "", true), fs[0], ['/'] + r.name);
    FetchFieldsTouch(Fetch(table, ['/'] + r.name, true), fs[1..]);
    forall k | 0 <= k < 9 ensures KeyOf(Split(fs[1..][k], '=')[0]) != KName { assert fs[1..][k] == fs[k + 1]; }
  }

  /** The RAM of the current view is right only because the message names the cores before it. */
  lemma RamNeedsItsPlace(table: Table, id: string, cores: nat, ram: nat)
    requires id in table && cores <= INT_MAX && ram <= INT_MAX
    ensures var asPrinted, swapped := [Field("processor_core", Digits(cores)), Field("RAM", Digits(ram))],
                                      [Field("RAM", Digits(ram)), Field("processor_core", Digits(cores))];
      var v := table[id].current;
      && FetchFields(Fetch(table, id, true), asPrinted) == Fetch(WithCurrent(table, id, v.(ram := ram)), id, true)
      && FetchFields(Fetch(table, id, true), swapped) == Fetch(WithCurrent(table, id, v.(ram := cores)), id, true)
  {
    hide Split, Digits, Field, Free, KeyOf, ParseNumber, FetchField;
    KeysAreTold();
    KeysAreFree();
    LongKeysAreFree();
    NumberFieldReads("processor_core", cores);
    NumberFieldReads("RAM", ram);
    NumberParses(cores);
    NumberParses(ram);
    var st := Fetch(table, id, true);
    var c, m := Field("processor_core", Digits(cores)), Field("RAM", Digits(ram));
    FetchSets(st, c, "processor_core", Digits(cores), SetCpu(cores));
    FetchSets(FetchField(st, c), m, "RAM", Digits(ram), SetRam(ram));
    FetchSets(st, m, "RAM", Digits(ram), SetRam(ram));
    FetchSets(FetchField(st, m), c, "processor_core", Digits(cores), SetCpu(cores));
    assert [c, m][1..] == [m] && [m, c][1..] == [c] && [m][1..] == [] && [c][1..] == [];
    NoFields(FetchField(FetchField(st, c), m));
    NoFields(FetchField(FetchField(st, m), c));
    var v := table[id].current;
    WithCurrentTwice(table, id, v.(ram := cores), v.(ram := ram));
    WithCurrentTwice(table, id, v.(ram := ram), v.(ram := cores));
  }

  // ---- What merging the rows means ----

  ghost predicate DistinctReports(fs: seq<FunctionReport>) {
    forall i, j :: 0 <= i < j < |fs| ==> fs[i].name != fs[j].name
  }

  /** No row is added, removed or renamed; a known function's row takes over the report's, and
      rows that the report does not name stay. */
  lemma {:induction false} MergeRowsIsExact(rows: seq<FunctionRow>, fs: seq<FunctionReport>)
    requires DistinctRows(rows) && DistinctReports(fs)
    ensures var r := MergeRows(rows, fs);
      && |r| == |rows| && DistinctRows(r)
      && (forall k :: 0 <= k < |r| ==> r[k].name == rows[k].name)
      && (forall k, j :: 0 <= k < |r| && 0 <= j < |fs| && rows[k].name == ['/'] + fs[j].name ==>
            r[k] == Refreshed(rows[k], fs[j]))
      && (forall k :: 0 <= k < |r| && (forall j :: 0 <= j < |fs| ==> rows[k].name != ['/'] + fs[j].name) ==>
            r[k] == rows[k])
    decreases |fs|
  {
    if fs != [] {
      var rest := fs[1..];
      var rows1 := MergeRow(rows, fs[0]);
      MergeRowIsExact(rows, fs[0]);
      assert forall i :: 0 <= i < |rest| ==> rest[i] == fs[i + 1];
      MergeRowsIsExact(rows1, rest);
      var r := MergeRows(rows, fs);
      forall k, j | 0 <= k < |r| && 0 <= j < |fs| && rows[k].name == ['/'] + fs[j].name
        ensures r[k] == Refreshed(rows[k], fs[j])
      {
        if j == 0 {
          forall i | 0 <= i < |rest| ensures rows1[k].name != ['/'] + rest[i].name {
            SameTail(fs[0].name, rest[i].name);
          }
        } else {
          SameTail(fs[0].name, fs[j].name);
          assert rest[j - 1] == fs[j];
        }
      }
      forall k | 0 <= k < |r| && (forall j :: 0 <= j < |fs| ==> rows[k].name != ['/'] + fs[j].name)
        ensures r[k] == rows[k]
      {
        assert rows[k].name != ['/'] + fs[0].name;
      }
    }
  }

  lemma SameTail(a: string, b: string)
    ensures ['/'] + a == ['/'] + b ==> a == b
  {
    assert (['/'] + a)[1..] == a && (['/'] + b)[1..] == b;
  }

  lemma MergeRowIsExact(rows: seq<FunctionRow>, f: FunctionReport)
    requires DistinctRows(rows)
    ensures var r := MergeRow(rows, f);
      && |r| == |rows| && DistinctRows(r)
      && forall k :: 0 <= k < |r| ==>
           r[k].name == rows[k].name && r[k] == if rows[k].name == ['/'] + f.name then Refreshed(rows[k], f) else rows[k]
  {
  }
}
