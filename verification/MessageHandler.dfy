/** The orchestrator's handlers of status messages. */
module MessageHandler {
  import opened Text
  import opened NodeInfoStorage

  // ---- What one piece of a message means ----

  datatype Key = KName | KCpu | KRam | KRom | KLinks | KRuntimes | KBusy | KData | KFunctions | KOther

  function KeyOf(s: string): Key {
    if s == "name" then KName
    else if s == "processor_core" then KCpu
    else if s == "RAM" then KRam
    else if s == "ROM" then KRom
    else if s == "links" then KLinks
    else if s == "runtimes" then KRuntimes
    else if s == "node_busy_counter" then KBusy
    else if s == "data" then KData
    else if s == "functions" then KFunctions
    else KOther
  }

  /** stoi, stored in a uint32. */
  function ParseNumber(s: string): Outcome<nat> {
    match Stoi(s)
    case None => Thrown
    case Some(i) => Done(i % 0x1_0000_0000)
  }

  /** Reading piece i of a split text; reading past the end has no defined result. */
  function NumberAt(pieces: seq<string>, i: nat): Outcome<nat> {
    if i < |pieces| then ParseNumber(pieces[i]) else Thrown
  }

  /** A name made from text has a leading slash in its URI. */
  function NameUri(s: string): string {
    if s != "" && s[0] == '/' then s else ['/'] + s
  }

  function ParseData(text: string): Outcome<DataRow> {
    var pieces := Split(text, ':');
    if |pieces| < 2 then Thrown
    else
      var n :- ParseNumber(pieces[1]);
      Done(DataRow(NameUri(pieces[0]), n))
  }

  function ParseDataRows(texts: seq<string>): Outcome<seq<DataRow>> {
    if texts == [] then Done([])
    else
      var row :- ParseData(texts[0]);
      var rows :- ParseDataRows(texts[1..]);
      Done([row] + rows)
  }

  function DataList(text: string): Outcome<seq<DataRow>> {
    if text == "null" then Done([]) else ParseDataRows(Split(text, ','))
  }

  function InputsOf(text: string): seq<string> {
    if text == "null" then [] else Split(text, ',')
  }

  function ParseRow(text: string): Outcome<FunctionRow> {
    var p := Split(text, ':');
    if |p| < 9 then Thrown
    else
      var exe :- ParseNumber(p[2]);
      var interest :- ParseNumber(p[3]);
      var cores :- ParseNumber(p[4]);
      var ram :- ParseNumber(p[5]);
      var rom :- ParseNumber(p[6]);
      var size :- ParseNumber(p[7]);
      Done(FunctionRow(['/'] + p[0], p[1] == "1", exe, interest, cores, ram, rom, size, InputsOf(p[8])))
  }

  function ParseRows(texts: seq<string>): Outcome<seq<FunctionRow>> {
    if texts == [] then Done([])
    else
      var row :- ParseRow(texts[0]);
      var rows :- ParseRows(texts[1..]);
      Done([row] + rows)
  }

  // ---- Bootstrap: a new record, both views alike ----

  const NO_VIEW := View(0, 0, 0, 0, [], [], [], [])
  const NO_RECORD := Record("", NO_VIEW, NO_VIEW)

  function BothViews(r: Record, u: NodeUpdate): Record {
    r.(initial := UpdatedView(r.initial, u), current := UpdatedView(r.current, u))
  }

  /** A field with a value. */
  function BootstrapValue(r: Record, key: Key, text: string): Outcome<Record> {
    if key == KName then Done(r.(name := NameUri(text)))
    else if key == KLinks then Done(BothViews(r, SetLinks(Split(text, ','))))
    else if key == KRuntimes then Done(BothViews(r, SetRuntimes(Split(text, ','))))
    else if key == KData then
      var rows :- DataList(text);
      Done(r.(initial := r.initial.(data := r.initial.data + rows),
              current := r.current.(data := r.current.data + rows)))
    else if key == KFunctions then
      var rows :- ParseRows(Split(text, '/')[1..]);
      Done(r.(initial := r.initial.(functions := r.initial.functions + rows),
              current := r.current.(functions := r.current.functions + rows)))
    else
      var n :- ParseNumber(text);
      Done(BothViews(r, if key == KCpu then SetCpu(n) else if key == KRam then SetRam(n) else SetRom(n)))
  }

  function BootstrapField(r: Record, token: string): Outcome<Record> {
    var values := Split(token, '=');
    match KeyOf(values[0])
    case KOther => Done(r)
    case KBusy => Done(BothViews(r, SetBusy(0)))
    case key => if |values| < 2 then Thrown else BootstrapValue(r, key, values[1])
  }

  function BootstrapFields(r: Record, tokens: seq<string>): Outcome<Record>
    decreases |tokens|
  {
    if tokens == [] then Done(r)
    else
      var r1 :- BootstrapField(r, tokens[0]);
      BootstrapFields(r1, tokens[1..])
  }

  /** The record a bootstrap message describes. */
  function Bootstrap(content: string): Outcome<Record> {
    BootstrapFields(NO_RECORD, Split(content, ';'))
  }

  // ---- Status fetch: setters on the current view of a known node ----

  /** An exception leaves what was written before it: the table, the node named so far, and
      whether the handler is still running. */
  datatype Fetch = Fetch(table: Table, id: string, ok: bool)

  function Setting(st: Fetch, value: Outcome<NodeUpdate>): Fetch {
    match value
    case Thrown => st.(ok := false)
    case Done(u) => st.(table := SetNodeIn(st.table, st.id, u, false))
  }

  /** The setter call for a field that is not the name, the data or the functions. */
  function FieldUpdate(key: Key, text: string): Outcome<NodeUpdate> {
    if key == KLinks then Done(SetLinks(Split(text, ',')))
    else if key == KRuntimes then Done(SetRuntimes(Split(text, ',')))
    else
      var n :- ParseNumber(text);
      Done(match key
           case KCpu => SetCpu(n)
           case KRam => SetRam(n)
           case KRom => SetRom(n)
           case _ => SetBusy(n))
  }

  /** The setter calls for one function row, in order; a number that does not parse ends them. */
  function RowUpdates(p: seq<string>): seq<Outcome<FunctionUpdate>>
    requires p != []
  {
    [Done(SetName(['/'] + p[0])),
     if |p| > 1 then Done(SetStatus(p[1] == "1")) else Thrown,
     FunctionNumber(p, 2), FunctionNumber(p, 3), FunctionNumber(p, 4), FunctionNumber(p, 5),
     FunctionNumber(p, 6), FunctionNumber(p, 7),
     if |p| > 8 then Done(AddInputs(Split(p[8], ','))) else Thrown]
  }

  function FunctionNumber(p: seq<string>, i: nat): Outcome<FunctionUpdate> {
    var n :- NumberAt(p, i);
    Done(match i
         case 2 => SetExeCounter(n)
         case 3 => SetInterestCounter(n)
         case 4 => SetCores(n)
         case 5 => SetFuncRam(n)
         case 6 => SetFuncRom(n)
         case _ => SetSize(n))
  }

  function ApplyRow(st: Fetch, k: nat, us: seq<Outcome<FunctionUpdate>>): (r: Fetch)
    requires st.id in st.table && k < |st.table[st.id].current.functions|
    ensures r.table.Keys == st.table.Keys && r.id == st.id
    ensures |r.table[st.id].current.functions| == |st.table[st.id].current.functions|
    decreases |us|
  {
    if us == [] then st
    else
      match us[0]
      case Thrown => st.(ok := false)
      case Done(u) => ApplyRow(st.(table := SetFunctionIn(st.table, st.id, k, u, false)), k, us[1..])
  }

  /** Rows of functions the table does not know are skipped; an unknown node has no index to ask. */
  function FetchRow(st: Fetch, text: string): Fetch {
    if !st.ok then st
    else if st.id !in st.table then st.(ok := false)
    else
      var p := Split(text, ':');
      var rows := st.table[st.id].current.functions;
      var k := FindRow(rows, ['/'] + p[0]);
      if k == |rows| then st else ApplyRow(st, k, RowUpdates(p))
  }

  function FetchRows(st: Fetch, texts: seq<string>): Fetch
    decreases |texts|
  {
    if texts == [] then st else FetchRows(FetchRow(st, texts[0]), texts[1..])
  }

  function FetchField(st: Fetch, token: string): Fetch {
    var values := Split(token, '=');
    var key := KeyOf(values[0]);
    if !st.ok || key.KOther? then st
    else if |values| < 2 then st.(ok := false)
    else if key.KName? then st.(id := values[1])
    else if key.KFunctions? then FetchRows(st, Split(values[1], '/')[1..])
    else if key.KData? then
      if values[1] == "null" then st
      else
        var rows := ParseDataRows(Split(values[1], ','));
        if rows.Thrown? then st.(ok := false) else Setting(st, Done(SetData(rows.value)))
    else Setting(st, FieldUpdate(key, values[1]))
  }

  function FetchFields(st: Fetch, tokens: seq<string>): Fetch
    decreases |tokens|
  {
    if tokens == [] then st else FetchFields(FetchField(st, tokens[0]), tokens[1..])
  }

  function NodeStatusFetch(table: Table, content: string): Fetch {
    FetchFields(Fetch(table, "", true), Split(content, ';'))
  }

  /** What a loop has collected, in front of what the rest yields. */
  function Prepend<T>(xs: seq<T>, o: Outcome<seq<T>>): Outcome<seq<T>> {
    if o.Thrown? then Thrown else Done(xs + o.value)
  }

  lemma PrependNothing<T>(xs: seq<T>, o: Outcome<seq<T>>)
    ensures Prepend([], o) == o && Prepend(xs, Done([])) == Done(xs)
  {
    assert o.Done? ==> [] + o.value == o.value;
    assert xs + [] == xs;
  }

  lemma PrependStep<T>(xs: seq<T>, x: T, rest: Outcome<seq<T>>)
    ensures Prepend(xs, if rest.Thrown? then Thrown else Done([x] + rest.value)) == Prepend(xs + [x], rest)
  {
    if rest.Done? { assert xs + ([x] + rest.value) == xs + [x] + rest.value; }
  }

  // ---- The handler object ----

  class OrchestrationMessageHandler {
    const storage: Storage

    constructor (storage: Storage)
      ensures this.storage == storage
    {
      this.storage := storage;
    }

    method ParseFunctions(text: string) returns (rows: Outcome<seq<FunctionRow>>)
      ensures rows == ParseRows(Split(text, '/')[1..])
    {
      var texts := Split(text, '/')[1..];
      var done := [];
      PrependNothing(done, ParseRows(texts));
      assert texts[0..] == texts;
      for i := 0 to |texts|
        invariant ParseRows(texts) == Prepend(done, ParseRows(texts[i..]))
      {
        assert texts[i..][1..] == texts[i + 1..];
        var row := ParseRow(texts[i]);
        if row.Thrown? { return Thrown; }
        PrependStep(done, row.value, ParseRows(texts[i + 1..]));
        done := done + [row.value];
      }
      rows := Done(done);
      PrependNothing(done, rows);
    }

    method ParseProvidedData(text: string) returns (rows: Outcome<seq<DataRow>>)
      ensures rows == DataList(text)
    {
      if text == "null" { return Done([]); }
      var texts := Split(text, ',');
      var done := [];
      PrependNothing(done, ParseDataRows(texts));
      assert texts[0..] == texts;
      for i := 0 to |texts|
        invariant ParseDataRows(texts) == Prepend(done, ParseDataRows(texts[i..]))
      {
        assert texts[i..][1..] == texts[i + 1..];
        var row := ParseData(texts[i]);
        if row.Thrown? { return Thrown; }
        PrependStep(done, row.value, ParseDataRows(texts[i + 1..]));
        done := done + [row.value];
      }
      rows := Done(done);
      PrependNothing(done, rows);
    }

    /** One token of a bootstrap message. */
    method ReadField(r: Record, token: string) returns (next: Outcome<Record>)
      ensures next == BootstrapField(r, token)
    {
      var values := Split(token, '=');
      var key := KeyOf(values[0]);
      if key == KFunctions && |values| >= 2 {
        var rows := ParseFunctions(values[1]);
        if rows.Thrown? { return Thrown; }
        next := Done(r.(initial := r.initial.(functions := r.initial.functions + rows.value),
                        current := r.current.(functions := r.current.functions + rows.value)));
      } else if key == KData && |values| >= 2 {
        var rows := ParseProvidedData(values[1]);
        if rows.Thrown? { return Thrown; }
        next := Done(r.(initial := r.initial.(data := r.initial.data + rows.value),
                        current := r.current.(data := r.current.data + rows.value)));
      } else {
        next := BootstrapField(r, token);
      }
    }

    /** Every other action is ignored. */
    method HandleMessage(action: string, content: string) returns (ok: bool)
      modifies storage
      ensures action == "/BootstrapInfo" ==>
        && ok == Bootstrap(content).Done?
        && (!ok ==> storage.table == old(storage.table))
        && (ok ==> var r := Bootstrap(content).value;
              storage.table == if r.name in old(storage.table) then old(storage.table) else old(storage.table)[r.name := r])
      ensures action == "/NodeStatusFetch" ==>
        var r := NodeStatusFetch(old(storage.table), content); storage.table == r.table && ok == r.ok
      ensures action != "/BootstrapInfo" && action != "/NodeStatusFetch" ==> ok && storage.table == old(storage.table)
    {
      ok := true;
      if action == "/BootstrapInfo" {
        ok := BootstrapPhaseHandler(content);
      } else if action == "/NodeStatusFetch" {
        ok := NodeStatusFetchHandler(content);
      }
    }

    /** A record already there is kept; a message that ends in an exception adds nothing. */
    method BootstrapPhaseHandler(content: string) returns (ok: bool)
      modifies storage
      ensures ok == Bootstrap(content).Done?
      ensures !ok ==> storage.table == old(storage.table)
      ensures ok ==>
        var r := Bootstrap(content).value;
        storage.table == if r.name in old(storage.table) then old(storage.table) else old(storage.table)[r.name := r]
    {
      var newNode := NO_RECORD;
      var tokens := Split(content, ';');
      for i := 0 to |tokens|
        invariant BootstrapFields(newNode, tokens[i..]) == Bootstrap(content)
        invariant storage.table == old(storage.table)
      {
        assert tokens[i..][1..] == tokens[i + 1..];
        var next := ReadField(newNode, tokens[i]);
        if next.Thrown? { return false; }
        newNode := next.value;
      }
      var _ := storage.AddNodeToTable(newNode.name, newNode);
      ok := true;
    }

    method FetchFunctions(id: string, text: string) returns (ok: bool)
      modifies storage
      ensures Fetch(storage.table, id, ok) ==
        FetchRows(Fetch(old(storage.table), id, true), Split(text, '/')[1..])
    {
      var texts := Split(text, '/')[1..];
      ok := true;
      for i := 0 to |texts|
        invariant FetchRows(Fetch(storage.table, id, ok), texts[i..]) ==
          FetchRows(Fetch(old(storage.table), id, true), texts)
      {
        assert texts[i..][1..] == texts[i + 1..];
        if ok { ok := FetchFunction(id, texts[i]); }
      }
    }

    method FetchFunction(id: string, text: string) returns (ok: bool)
      modifies storage
      ensures Fetch(storage.table, id, ok) == FetchRow(Fetch(old(storage.table), id, true), text)
    {
      if id !in storage.table { return false; }
      var p := Split(text, ':');
      var found, k := storage.GetFuncIndex(id, ['/'] + p[0], false);
      if !found { return true; }
      var updates := RowUpdates(p);
      ok := true;
      for i := 0 to |updates|
        invariant id in storage.table && k < |storage.table[id].current.functions|
        invariant ok && ApplyRow(Fetch(storage.table, id, true), k, updates[i..]) ==
          ApplyRow(Fetch(old(storage.table), id, true), k, updates)
      {
        assert updates[i..][1..] == updates[i + 1..];
        if updates[i].Thrown? { return false; }
        var _ := storage.SetFunction(id, k, updates[i].value, false);
      }
    }

    method NodeStatusFetchHandler(content: string) returns (ok: bool)
      modifies storage
      ensures var r := NodeStatusFetch(old(storage.table), content); storage.table == r.table && ok == r.ok
    {
      var id := "";
      var tokens := Split(content, ';');
      ok := true;
      for i := 0 to |tokens|
        invariant FetchFields(Fetch(storage.table, id, ok), tokens[i..]) == NodeStatusFetch(old(storage.table), content)
      {
        assert tokens[i..][1..] == tokens[i + 1..];
        if ok { id, ok := FetchToken(id, tokens[i]); }
      }
    }

    /** One token of a status message. */
    method FetchToken(uuid: string, token: string) returns (id: string, ok: bool)
      modifies storage
      ensures Fetch(storage.table, id, ok) == FetchField(Fetch(old(storage.table), uuid, true), token)
    {
      var values := Split(token, '=');
      id, ok := uuid, true;
      var key := KeyOf(values[0]);
      if key == KOther { return; }
      if |values| < 2 { return id, false; }
      if key == KName { return values[1], true; }
      if key == KFunctions {
        ok := FetchFunctions(id, values[1]);
        return;
      }
      var update: Outcome<NodeUpdate>;
      if key == KData {
        if values[1] == "null" { return; }
        var rows := ParseDataRows(Split(values[1], ','));
        if rows.Thrown? { return id, false; }
        update := Done(SetData(rows.value));
      } else {
        update := FieldUpdate(key, values[1]);
      }
      if update.Thrown? { return id, false; }
      var _ := storage.SetNode(id, update.value, false);
    }
  }
}
