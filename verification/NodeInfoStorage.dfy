/** The orchestrator's node table: one record per node with a default and a current view. */
module NodeInfoStorage {
  /** A result, or an exception (or a read past the end) that ends the handler. */
  datatype Outcome<+T> = Done(value: T) | Thrown {
    predicate IsFailure() { Thrown? }

    function PropagateFailure<U>(): Outcome<U>
      requires Thrown?
    {
      Thrown
    }

    function Extract(): T
      requires Done?
    {
      value
    }
  }

  datatype DataRow = DataRow(name: string, size: nat)

  datatype FunctionRow = FunctionRow(
    name: string, status: bool, exeCounter: nat, interestCounter: nat,
    cores: nat, ram: nat, rom: nat, size: nat, inputs: seq<string>)

  datatype View = View(
    cpu: nat, ram: nat, rom: nat, busy: nat, links: seq<string>, runtimes: seq<string>,
    data: seq<DataRow>, functions: seq<FunctionRow>)

  datatype Record = Record(name: string, initial: View, current: View)

  type Table = map<string, Record>

  /** A call of one of the node setters. */
  datatype NodeUpdate =
    | SetCpu(n: nat) | SetRam(n: nat) | SetRom(n: nat) | SetBusy(n: nat)
    | SetLinks(names: seq<string>) | SetRuntimes(names: seq<string>) | SetData(rows: seq<DataRow>)

  /** A call of one of the function setters. */
  datatype FunctionUpdate =
    | SetName(name: string) | SetStatus(on: bool) | SetExeCounter(n: nat) | SetInterestCounter(n: nat)
    | SetCores(n: nat) | SetFuncRam(n: nat) | SetFuncRom(n: nat) | SetSize(n: nat) | AddInputs(names: seq<string>)

  function UpdatedView(v: View, u: NodeUpdate): View {
    match u
    case SetCpu(n) => v.(cpu := n)
    case SetRam(n) => v.(ram := n)
    case SetRom(n) => v.(rom := n)
    case SetBusy(n) => v.(busy := n)
    case SetLinks(xs) => v.(links := xs)
    case SetRuntimes(xs) => v.(runtimes := xs)
    case SetData(rows) => v.(data := rows)
  }

  /** The CPU setter for the current view writes the current RAM. */
  function UpdatedNode(r: Record, u: NodeUpdate, isDefault: bool): Record {
    if isDefault then r.(initial := UpdatedView(r.initial, u))
    else r.(current := UpdatedView(r.current, if u.SetCpu? then SetRam(u.n) else u))
  }

  /** The counter setters for the default view write zero; the input setter appends. */
  function UpdatedRow(f: FunctionRow, u: FunctionUpdate, isDefault: bool): FunctionRow {
    match u
    case SetName(x) => f.(name := x)
    case SetStatus(on) => f.(status := on)
    case SetExeCounter(n) => f.(exeCounter := if isDefault then 0 else n)
    case SetInterestCounter(n) => f.(interestCounter := if isDefault then 0 else n)
    case SetCores(n) => f.(cores := n)
    case SetFuncRam(n) => f.(ram := n)
    case SetFuncRom(n) => f.(rom := n)
    case SetSize(n) => f.(size := n)
    case AddInputs(xs) => f.(inputs := f.inputs + xs)
  }

  function ViewOf(r: Record, isDefault: bool): View { if isDefault then r.initial else r.current }

  function WithView(r: Record, isDefault: bool, v: View): Record {
    if isDefault then r.(initial := v) else r.(current := v)
  }

  function SetNodeIn(table: Table, id: string, u: NodeUpdate, isDefault: bool): Table {
    if id in table then table[id := UpdatedNode(table[id], u, isDefault)] else table
  }

  function SetFunctionIn(table: Table, id: string, k: nat, u: FunctionUpdate, isDefault: bool): Table
    requires id in table ==> k < |ViewOf(table[id], isDefault).functions|
  {
    if id !in table then table
    else
      var v := ViewOf(table[id], isDefault);
      table[id := WithView(table[id], isDefault,
        v.(functions := v.functions[k := UpdatedRow(v.functions[k], u, isDefault)]))]
  }

  function FindRow(rows: seq<FunctionRow>, name: string): (k: nat)
    ensures k <= |rows| && (k < |rows| ==> rows[k].name == name)
    ensures forall j :: 0 <= j < k ==> rows[j].name != name
  {
    if rows == [] || rows[0].name == name then 0 else 1 + FindRow(rows[1..], name)
  }

  ghost predicate DistinctRows(rows: seq<FunctionRow>) {
    forall i, j :: 0 <= i < j < |rows| ==> rows[i].name != rows[j].name
  }

  // ---- The setters, field by field ----

  /** A node setter writes its own field of the chosen view, with one exception: the CPU setter writes
      the RAM of the current view. Other views, names and records stay. */
  lemma SetNodeInFields(table: Table, id: string, u: NodeUpdate, isDefault: bool)
    requires id in table
    ensures var r := SetNodeIn(table, id, u, isDefault);
      && r.Keys == table.Keys && (forall other :: other in table && other != id ==> r[other] == table[other])
      && r[id].name == table[id].name
      && (isDefault ==> r[id].current == table[id].current && Writes(table[id].initial, r[id].initial, u))
      && (!isDefault ==> r[id].initial == table[id].initial)
      && (!isDefault && !u.SetCpu? ==> Writes(table[id].current, r[id].current, u))
      && (!isDefault && u.SetCpu? ==> r[id].current == table[id].current.(ram := u.n))
  {
  }

  ghost predicate Writes(v: View, v1: View, u: NodeUpdate) {
    match u
    case SetCpu(n) => v1 == v.(cpu := n)
    case SetRam(n) => v1 == v.(ram := n)
    case SetRom(n) => v1 == v.(rom := n)
    case SetBusy(n) => v1 == v.(busy := n)
    case SetLinks(xs) => v1 == v.(links := xs)
    case SetRuntimes(xs) => v1 == v.(runtimes := xs)
    case SetData(rows) => v1 == v.(data := rows)
  }

  /** A function setter writes its own field of the chosen row of the chosen view; the counter setters
      write zero into the default view, and inputs are appended. */
  lemma SetFunctionInFields(table: Table, id: string, k: nat, u: FunctionUpdate, isDefault: bool)
    requires id in table && k < |(if isDefault then table[id].initial else table[id].current).functions|
    ensures var r := SetFunctionIn(table, id, k, u, isDefault);
      && r.Keys == table.Keys && (forall other :: other in table && other != id ==> r[other] == table[other])
      && r[id].name == table[id].name
      && (isDefault ==> r[id].current == table[id].current && WritesRow(table[id].initial, r[id].initial, k, u, true))
      && (!isDefault ==> r[id].initial == table[id].initial && WritesRow(table[id].current, r[id].current, k, u, false))
  {
  }

  ghost predicate WritesRow(v: View, v1: View, k: nat, u: FunctionUpdate, isDefault: bool) {
    && k < |v.functions| == |v1.functions| && v1 == v.(functions := v1.functions)
    && (forall j :: 0 <= j < |v.functions| && j != k ==> v1.functions[j] == v.functions[j])
    && var f, f1 := v.functions[k], v1.functions[k];
       match u
       case SetName(x) => f1 == f.(name := x)
       case SetStatus(on) => f1 == f.(status := on)
       case SetExeCounter(n) => f1 == f.(exeCounter := if isDefault then 0 else n)
       case SetInterestCounter(n) => f1 == f.(interestCounter := if isDefault then 0 else n)
       case SetCores(n) => f1 == f.(cores := n)
       case SetFuncRam(n) => f1 == f.(ram := n)
       case SetFuncRom(n) => f1 == f.(rom := n)
       case SetSize(n) => f1 == f.(size := n)
       case AddInputs(xs) => f1 == f.(inputs := f.inputs + xs)
  }

  class Storage {
    var table: Table

    constructor ()
      ensures table == map[]
    {
      table := map[];
    }

    /** An existing record is kept. */
    method AddNodeToTable(id: string, r: Record) returns (added: bool)
      modifies this
      ensures added == (id !in old(table))
      ensures table == if added then old(table)[id := r] else old(table)
    {
      added := id !in table;
      if added { table := table[id := r]; }
    }

    method SetNode(id: string, u: NodeUpdate, isDefault: bool) returns (found: bool)
      modifies this
      ensures found == (id in old(table)) && table == SetNodeIn(old(table), id, u, isDefault)
    {
      if id !in table { return false; }
      var r := table[id];
      if isDefault {
        r := r.(initial := UpdatedView(r.initial, u));
      } else {
        match u
        case SetCpu(n) => r := r.(current := r.current.(ram := n));
        case _ => r := r.(current := UpdatedView(r.current, u));
      }
      table := table[id := r];
      found := true;
    }

    method SetFunction(id: string, k: nat, u: FunctionUpdate, isDefault: bool) returns (found: bool)
      requires id in table ==> k < |ViewOf(table[id], isDefault).functions|
      modifies this
      ensures found == (id in old(table)) && table == SetFunctionIn(old(table), id, k, u, isDefault)
    {
      if id !in table { return false; }
      var v := ViewOf(table[id], isDefault);
      v := v.(functions := v.functions[k := UpdatedRow(v.functions[k], u, isDefault)]);
      table := table[id := WithView(table[id], isDefault, v)];
      found := true;
    }

    /** Nothing is returned for an unknown node, so callers must know the node. */
    method GetFuncIndex(id: string, name: string, isDefault: bool) returns (found: bool, k: nat)
      requires id in table
      ensures var rows := ViewOf(table[id], isDefault).functions;
        && found == (FindRow(rows, name) < |rows|)
        && k == (if found then FindRow(rows, name) else 0)
    {
      var rows := ViewOf(table[id], isDefault).functions;
      for i := 0 to |rows|
        invariant forall j :: 0 <= j < i ==> rows[j].name != name
      {
        if rows[i].name == name {
          assert FindRow(rows, name) == i;
          return true, i;
        }
      }
      found, k := false, 0;
    }
  }
}
