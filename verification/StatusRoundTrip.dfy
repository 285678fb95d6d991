/** What the orchestrator reads is what the node printed. */
module StatusRoundTrip {
  import opened Text
  import opened NodeInfoStorage
  import opened StatusMessage
  import opened MessageHandler

  /** The separators of the message occur in none of its texts. */
  ghost predicate CleanFunction(f: FunctionReport) {
    Free(f.name, ";=/:") && Free(f.inputs, ";=/:")
  }

  ghost predicate Clean(r: NodeReport) {
    && Free(r.name, ";=") && Free(r.links, ";=") && Free(r.runtimes, ";=") && Free(r.data, ";=")
    && forall i :: 0 <= i < |r.functions| ==> CleanFunction(r.functions[i])
  }

  predicate RowFits(f: FunctionReport) {
    f.counter <= INT_MAX && f.missed <= INT_MAX && f.cpu <= INT_MAX && f.ram <= INT_MAX && f.rom <= INT_MAX && f.size <= INT_MAX
  }

  predicate RowsFit(fs: seq<FunctionReport>) {
    forall i :: 0 <= i < |fs| ==> RowFits(fs[i])
  }

  /** The numbers that the bootstrap handler parses are ints. */
  predicate BootstrapFits(r: NodeReport) {
    r.cores <= INT_MAX && r.ram <= INT_MAX && r.rom <= INT_MAX && DataList(r.data).Done? && RowsFit(r.functions)
  }

  function RowOf(f: FunctionReport): FunctionRow {
    FunctionRow(['/'] + f.name, f.enabled, f.counter, f.missed, f.cpu, f.ram, f.rom, f.size, InputsOf(f.inputs))
  }

  function RowsOf(fs: seq<FunctionReport>): seq<FunctionRow> {
    if fs == [] then [] else [RowOf(fs[0])] + RowsOf(fs[1..])
  }

  /** What the report says, as a record whose two views agree. */
  function RecordOf(r: NodeReport): Record
    requires DataList(r.data).Done?
  {
    var v := View(r.cores, r.ram, r.rom, 0, Split(r.links, ','), Split(r.runtimes, ','), DataList(r.data).value, RowsOf(r.functions));
    Record(['/'] + r.name, v, v)
  }

  // ---- Pieces ----

  lemma KeysAreTold()
    ensures KeyOf("name") == KName && KeyOf("processor_core") == KCpu && KeyOf("processor_type") == KOther
    ensures KeyOf("RAM") == KRam && KeyOf("ROM") == KRom && KeyOf("links") == KLinks && KeyOf("runtimes") == KRuntimes
    ensures KeyOf("node_busy_counter") == KBusy && KeyOf("data") == KData && KeyOf("functions") == KFunctions
  {
    assert "RAM"[1] != "ROM"[1];
    assert "data"[0] != "name"[0];
    assert "processor_type"[10] != "processor_core"[10];
  }

  lemma FieldSplits(key: string, value: string)
    requires Free(key, "=") && Free(value, "=")
    ensures Split(Field(key, value), '=') == [key, value]
  {
    SplitCons(key, value, '=');
    SplitFree(value, '=');
  }

  lemma FieldFree(key: string, value: string)
    requires Free(key, ";=") && Free(value, ";")
    ensures Free(Field(key, value), ";")
  {
    FreeLess(key, ";=", ";");
  }

  lemma {:induction false} SplitTerminated(xs: seq<string>, last: string, c: char)
    requires AllFree(xs, [c]) && Free(last, [c])
    ensures Split(Terminated(xs, c) + last, c) == xs + [last]
  {
    hide Split, Free;
    if xs == [] {
      assert "" + last == last;
      SplitFree(last, c);
    } else {
      var rest := xs[1..];
      assert forall i :: 0 <= i < |rest| ==> rest[i] == xs[i + 1];
      SplitTerminated(rest, last, c);
      assert Terminated(xs, c) + last == xs[0] + [c] + (Terminated(rest, c) + last);
      SplitCons(xs[0], Terminated(rest, c) + last, c);
      assert [xs[0]] + (rest + [last]) == xs + [last];
    }
  }

  lemma NumberParses(n: nat)
    ensures ParseNumber(Digits(n)) == if n <= INT_MAX then Done(n) else Thrown
  {
    hide Digits, Stoi;
    StoiOfDigits(n);
  }

  lemma DigitsAreFree(n: nat)
    ensures Free(Digits(n), ";=/:")
  {
    DigitsFree(n, ";=/:");
  }

  lemma RowFieldsFree(f: FunctionReport)
    requires CleanFunction(f)
    ensures AllFree(RowFields(f), ";=/:") && Free(RowText(f), ";=/")
  {
    var xs := RowFields(f);
    DigitsAreFree(f.counter); DigitsAreFree(f.missed); DigitsAreFree(f.cpu);
    DigitsAreFree(f.ram); DigitsAreFree(f.rom); DigitsAreFree(f.size);
    forall i | 0 <= i < |xs| ensures Free(xs[i], ";=/:") && Free(xs[i], ";=/") {
      FreeLess(xs[i], ";=/:", ";=/");
    }
    JoinFree(xs, ':', ";=/");
  }

  lemma RowParses(f: FunctionReport)
    requires CleanFunction(f)
    ensures Split(RowText(f), ':') == RowFields(f)
    ensures ParseRow(RowText(f)) == if RowFits(f) then Done(RowOf(f)) else Thrown
  {
    hide Digits, ParseNumber, Split, InputsOf;
    var xs := RowFields(f);
    RowFieldsFree(f);
    forall i | 0 <= i < |xs| ensures Free(xs[i], ":") { FreeLess(xs[i], ";=/:", ":"); }
    SplitJoin(xs, ':');
    NumberParses(f.counter); NumberParses(f.missed); NumberParses(f.cpu);
    NumberParses(f.ram); NumberParses(f.rom); NumberParses(f.size);
    assert "0"[0] != "1"[0];
  }

  function RowTexts(fs: seq<FunctionReport>): seq<string> {
    if fs == [] then [] else [RowText(fs[0])] + RowTexts(fs[1..])
  }

  ghost predicate AllClean(fs: seq<FunctionReport>) {
    forall i :: 0 <= i < |fs| ==> CleanFunction(fs[i])
  }

  lemma CleanTail(fs: seq<FunctionReport>)
    requires fs != [] && AllClean(fs)
    ensures CleanFunction(fs[0]) && AllClean(fs[1..]) && (RowsFit(fs) <==> RowFits(fs[0]) && RowsFit(fs[1..]))
  {
    assert forall i :: 0 <= i < |fs| - 1 ==> fs[1..][i] == fs[i + 1];
    assert forall i :: 1 <= i < |fs| ==> fs[i] == fs[1..][i - 1];
  }

  lemma {:induction false} RowsParse(fs: seq<FunctionReport>)
    requires AllClean(fs)
    ensures ParseRows(RowTexts(fs)) == if RowsFit(fs) then Done(RowsOf(fs)) else Thrown
  {
    if fs != [] {
      CleanTail(fs);
      RowParses(fs[0]);
      RowsParse(fs[1..]);
      assert RowTexts(fs)[0] == RowText(fs[0]) && RowTexts(fs)[1..] == RowTexts(fs[1..]);
    }
  }

  lemma {:induction false} RowTextsFree(fs: seq<FunctionReport>)
    requires AllClean(fs)
    ensures AllFree(RowTexts(fs), "/") && AllFree(RowTexts(fs), ";=")
    ensures FunctionsText(fs) == SlashText(RowTexts(fs))
  {
    hide RowText, CleanFunction, Free;
    if fs != [] {
      CleanTail(fs);
      RowTextsFree(fs[1..]);
      RowFieldsFree(fs[0]);
      FreeLess(RowText(fs[0]), ";=/", "/");
      FreeLess(RowText(fs[0]), ";=/", ";=");
      assert RowTexts(fs)[1..] == RowTexts(fs[1..]);
    }
  }

  lemma FunctionsSplit(fs: seq<FunctionReport>)
    requires AllClean(fs)
    ensures Split(FunctionsText(fs), '/') == [""] + RowTexts(fs) && Free(FunctionsText(fs), ";=")
  {
    RowTextsFree(fs);
    SlashSplit(RowTexts(fs));
    SlashFree(RowTexts(fs), ";=");
  }

  // ---- Bootstrap ----

  function FieldsOf(r: NodeReport): seq<string> {
    HeadFields(r) + [Field("functions", FunctionsText(r.functions))]
  }

  lemma KeysAreFree()
    ensures Free("name", ";=") && Free("RAM", ";=") && Free("ROM", ";=") && Free("links", ";=")
    ensures Free("runtimes", ";=") && Free("data", ";=") && Free("functions", ";=")
  {
  }

  lemma LongKeysAreFree()
    ensures Free("processor_core", ";=") && Free("processor_type", ";=") && Free("node_busy_counter", ";=")
  {
  }

  /** A field whose value holds neither separator. */
  lemma FieldReads(key: string, value: string)
    requires Free(key, ";=") && Free(value, ";=")
    ensures Split(Field(key, value), '=') == [key, value] && Free(Field(key, value), ";")
  {
    FreeLess(key, ";=", "=");
    FreeLess(value, ";=", "=");
    FreeLess(value, ";=", ";");
    FieldSplits(key, value);
    FieldFree(key, value);
  }

  lemma NumberFieldReads(key: string, n: nat)
    requires Free(key, ";=")
    ensures Split(Field(key, Digits(n)), '=') == [key, Digits(n)] && Free(Field(key, Digits(n)), ";")
  {
    DigitsFree(n, ";=");
    FieldReads(key, Digits(n));
  }

  /** Every field splits into its key and its value, and holds no terminator. */
  lemma FieldValues(r: NodeReport)
    requires Clean(r)
    ensures var fs := FieldsOf(r);
      && |fs| == 10 && AllFree(fs, ";")
      && Split(fs[0], '=') == ["name", ['/'] + r.name]
      && Split(fs[1], '=') == ["processor_core", Digits(r.cores)]
      && Split(fs[2], '=') == ["processor_type", Digits(r.speed)]
      && Split(fs[3], '=') == ["RAM", Digits(r.ram)]
      && Split(fs[4], '=') == ["ROM", Digits(r.rom)]
      && Split(fs[5], '=') == ["links", r.links]
      && Split(fs[6], '=') == ["runtimes", r.runtimes]
      && Split(fs[7], '=') == ["node_busy_counter", Digits(r.busy)]
      && Split(fs[8], '=') == ["data", r.data]
      && Split(fs[9], '=') == ["functions", FunctionsText(r.functions)]
  {
    hide Split, FunctionsText, Digits, Free, Field;
    KeysAreFree();
    LongKeysAreFree();
    var keys := ["name", "processor_core", "processor_type", "RAM", "ROM", "links", "runtimes",
                 "node_busy_counter", "data", "functions"];
    assert forall i :: 0 <= i < 10 ==> Free(keys[i], ";=");
    FreeConcatSlash(r.name);
    FunctionsSplit(r.functions);
    FieldReads(keys[0], ['/'] + r.name);
    NumberFieldReads(keys[1], r.cores);
    NumberFieldReads(keys[2], r.speed);
    NumberFieldReads(keys[3], r.ram);
    NumberFieldReads(keys[4], r.rom);
    FieldReads(keys[5], r.links);
    FieldReads(keys[6], r.runtimes);
    NumberFieldReads(keys[7], r.busy);
    FieldReads(keys[8], r.data);
    FieldReads(keys[9], FunctionsText(r.functions));
  }

  lemma FreeConcatSlash(s: string)
    requires Free(s, ";=")
    ensures Free(['/'] + s, ";=")
  {
  }

  lemma MessageSplits(r: NodeReport)
    requires Clean(r)
    ensures Split(StatusText(r), ';') == FieldsOf(r)
  {
    hide Split, FunctionsText, Digits, Field, Free;
    var xs, fs := HeadFields(r), FieldsOf(r);
    FieldValues(r);
    assert forall i :: 0 <= i < |xs| ==> xs[i] == fs[i];
    assert fs[9] == Field("functions", FunctionsText(r.functions));
    SplitTerminated(xs, Field("functions", FunctionsText(r.functions)), ';');
  }

  /** One step of the bootstrap loop, on a field with this key and value. */
  lemma BootstrapStep(r: Record, tokens: seq<string>, k: nat, key: string, value: string)
    requires k < |tokens| && Split(tokens[k], '=') == [key, value]
    ensures KeyOf(key).KOther? ==> BootstrapFields(r, tokens[k..]) == BootstrapFields(r, tokens[k + 1..])
    ensures KeyOf(key).KBusy? ==>
      BootstrapFields(r, tokens[k..]) == BootstrapFields(BothViews(r, SetBusy(0)), tokens[k + 1..])
    ensures !KeyOf(key).KOther? && !KeyOf(key).KBusy? ==>
      var next := BootstrapValue(r, KeyOf(key), value);
      BootstrapFields(r, tokens[k..]) ==
        if next.Thrown? then Thrown else BootstrapFields(next.value, tokens[k + 1..])
  {
    hide Split, KeyOf, BootstrapValue, BothViews;
    assert tokens[k..][0] == tokens[k] && tokens[k..][1..] == tokens[k + 1..];
  }

  /** Round trip: the bootstrap handler reads from the message of a node exactly the record that
      the node reports, alike in both views; it throws exactly when a number it parses is no int. */
  lemma BootstrapRoundTrip(r: NodeReport)
    requires Clean(r)
    ensures Bootstrap(StatusText(r)) == if BootstrapFits(r) then Done(RecordOf(r)) else Thrown
  {
    hide Split, FunctionsText, Digits, Field, Free, StatusText, ParseRows, DataList, ParseNumber, KeyOf, RowsFit, FieldsOf, BootstrapField;
    MessageSplits(r);
    FieldValues(r);
    KeysAreTold();
    NumberParses(r.cores);
    NumberParses(r.ram);
    NumberParses(r.rom);
    FunctionsSplit(r.functions);
    RowsParse(r.functions);
    assert ([""] + RowTexts(r.functions))[1..] == RowTexts(r.functions);
    var fs := FieldsOf(r);
    assert fs[0..] == fs && fs[10..] == [];
    var r1 := NO_RECORD.(name := ['/'] + r.name);
    BootstrapStep(NO_RECORD, fs, 0, "name", ['/'] + r.name);
    BootstrapStep(r1, fs, 1, "processor_core", Digits(r.cores));
    if r.cores <= INT_MAX {
      var r2 := BothViews(r1, SetCpu(r.cores));
      BootstrapStep(r2, fs, 2, "processor_type", Digits(r.speed));
      BootstrapStep(r2, fs, 3, "RAM", Digits(r.ram));
      if r.ram <= INT_MAX {
        var r3 := BothViews(r2, SetRam(r.ram));
        BootstrapStep(r3, fs, 4, "ROM", Digits(r.rom));
        if r.rom <= INT_MAX {
          BootstrapRest(r, BothViews(r3, SetRom(r.rom)));
        }
      }
    }
  }

  /** From the links field on. */
  lemma BootstrapRest(r: NodeReport, r4: Record)
    requires Clean(r) && r4 == Record(['/'] + r.name, View(r.cores, r.ram, r.rom, 0, [], [], [], []), r4.initial)
    requires r4.current == r4.initial
    ensures BootstrapFields(r4, FieldsOf(r)[5..]) ==
      if DataList(r.data).Done? && RowsFit(r.functions) then Done(RecordOf(r)) else Thrown
  {
    hide Split, FunctionsText, Digits, Field, Free, ParseRows, DataList, KeyOf, RowsFit, FieldsOf, BootstrapField;
    FieldValues(r);
    KeysAreTold();
    FunctionsSplit(r.functions);
    RowsParse(r.functions);
    assert ([""] + RowTexts(r.functions))[1..] == RowTexts(r.functions);
    var fs := FieldsOf(r);
    assert fs[10..] == [];
    var r5 := BothViews(r4, SetLinks(Split(r.links, ',')));
    var r6 := BothViews(r5, SetRuntimes(Split(r.runtimes, ',')));
    BootstrapStep(r4, fs, 5, "links", r.links);
    BootstrapStep(r5, fs, 6, "runtimes", r.runtimes);
    BootstrapStep(r6, fs, 7, "node_busy_counter", Digits(r.busy));
    BootstrapStep(r6, fs, 8, "data", r.data);
    if DataList(r.data).Done? {
      var rows := DataList(r.data).value;
      var r7 := r6.(initial := r6.initial.(data := rows), current := r6.current.(data := rows));
      assert [] + rows == rows;
      BootstrapStep(r7, fs, 9, "functions", FunctionsText(r.functions));
      assert [] + RowsOf(r.functions) == RowsOf(r.functions);
    }
  }
}
