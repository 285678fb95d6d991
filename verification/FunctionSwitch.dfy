/** One orchestration round: the commands computed from the table, and what nodes do with them. */
module FunctionSwitch {
  import opened Names
  import opened ComputeNodes
  import opened Text
  import opened NodeInfoStorage

  // ---- The orchestrator's decisions ----

  function ToInt32(n: nat): int
    requires n < 0x1_0000_0000
  {
    if n < 0x8000_0000 then n else n - 0x1_0000_0000
  }

  /** The int to which a uint32 counter is added, modulo 2^32. */
  function AddCounter(sum: int, counter: nat): int {
    ToInt32((sum + counter) % 0x1_0000_0000)
  }

  function CounterSum(rows: seq<FunctionRow>): int {
    if rows == [] then 0 else AddCounter(CounterSum(rows[..|rows| - 1]), rows[|rows| - 1].exeCounter)
  }

  /** The factor 4/5 of the threshold is an integer division, so the threshold is zero. */
  predicate Busy(r: Record) { CounterSum(r.current.functions) > 0 }

  predicate Underused(r: Record, limit: int) {
    CounterSum(r.current.functions) == 0 || CounterSum(r.current.functions) < limit
  }

  predicate IdleOn(f: FunctionRow) { f.status && f.exeCounter == 0 }

  predicate HotOn(f: FunctionRow) { f.status && f.exeCounter > 8 }

  predicate MissedOff(f: FunctionRow, threshold: int) {
    !f.status && ToInt32(f.interestCounter % 0x1_0000_0000) > threshold
  }

  predicate WantedOff(f: FunctionRow, hot: seq<string>) { !f.status && f.name in hot }

  function Missed(threshold: int): FunctionRow -> bool { f => MissedOff(f, threshold) }

  function Wanted(hot: seq<string>): FunctionRow -> bool { f => WantedOff(f, hot) }

  /** The names of the rows that satisfy p, in order. */
  function Select(rows: seq<FunctionRow>, p: FunctionRow -> bool): seq<string> {
    if rows == [] then []
    else Select(rows[..|rows| - 1], p) + (if p(rows[|rows| - 1]) then [rows[|rows| - 1].name] else [])
  }

  function DisablePick(r: Record): seq<string> {
    if Busy(r) then Select(r.current.functions, IdleOn) else []
  }

  function HotPick(r: Record): seq<string> {
    if Busy(r) then Select(r.current.functions, HotOn) else []
  }

  function EnablePick(r: Record, hot: seq<string>, limit: int): seq<string> {
    Select(r.current.functions, Missed(5))
    + if Underused(r, limit) then Select(r.current.functions, Wanted(hot)) else []
  }

  function RetryPick(r: Record): seq<string> {
    Select(r.current.functions, Missed(10))
  }

  function Concat(xs: seq<string>): string {
    if xs == [] then "" else Concat(xs[..|xs| - 1]) + xs[|xs| - 1]
  }

  function Command(id: string, op: string, names: seq<string>): string {
    "/Orchestrator" + id + "/FunctionSwitch/" + op + Concat(names)
  }

  /** A command is sent only when it names a function. */
  function CommandFor(id: string, op: string, names: seq<string>): seq<string> {
    if names == [] then [] else [Command(id, op, names)]
  }

  function PassCommands(ids: seq<string>, op: string, pick: string -> seq<string>): seq<string> {
    if ids == [] then []
    else PassCommands(ids[..|ids| - 1], op, pick) + CommandFor(ids[|ids| - 1], op, pick(ids[|ids| - 1]))
  }

  function HotNames(table: Table, ids: seq<string>): seq<string>
    requires forall i :: 0 <= i < |ids| ==> ids[i] in table
  {
    if ids == [] then [] else HotNames(table, ids[..|ids| - 1]) + HotPick(table[ids[|ids| - 1]])
  }

  function Reversed<T>(s: seq<T>): seq<T> {
    if s == [] then [] else Reversed(s[1..]) + [s[0]]
  }

  /** The order of iteration over the table: every key once. */
  ghost predicate Enumerates(order: seq<string>, table: Table) {
    && (forall i :: 0 <= i < |order| ==> order[i] in table)
    && (forall id :: id in table ==> id in order)
    && (forall i, j :: 0 <= i < j < |order| ==> order[i] != order[j])
  }

  function First(table: Table): string -> seq<string> {
    id => if id in table then DisablePick(table[id]) else []
  }

  function Second(table: Table, hot: seq<string>, limit: string -> int): string -> seq<string> {
    id => if id in table then EnablePick(table[id], hot, limit(id)) else []
  }

  function Third(table: Table): string -> seq<string> {
    id => if id in table then RetryPick(table[id]) else []
  }

  /** Three passes over one snapshot: Disable forwards, then twice Enable backwards. */
  function Round(table: Table, order: seq<string>, limit: string -> int): seq<string>
    requires forall i :: 0 <= i < |order| ==> order[i] in table
  {
    PassCommands(order, "Disable", First(table))
    + PassCommands(Reversed(order), "Enable", Second(table, HotNames(table, order), limit))
    + PassCommands(Reversed(order), "Enable", Third(table))
  }

  class OrchestrationManagementApp {
    const storage: Storage
    var sent: seq<string>

    constructor (storage: Storage)
      ensures this.storage == storage && sent == []
    {
      this.storage, sent := storage, [];
    }

    method SumCounters(rows: seq<FunctionRow>) returns (sum: int)
      ensures sum == CounterSum(rows)
    {
      sum := 0;
      for i := 0 to |rows|
        invariant sum == CounterSum(rows[..i])
      {
        assert rows[..i + 1][..i] == rows[..i];
        sum := AddCounter(sum, rows[i].exeCounter);
      }
      assert rows[..|rows|] == rows;
    }

    /** The inner loop of the first pass over a busy node. */
    method PickIdleAndHot(rows: seq<FunctionRow>) returns (idle: seq<string>, hot: seq<string>)
      ensures idle == Select(rows, IdleOn) && hot == Select(rows, HotOn)
    {
      idle, hot := [], [];
      for i := 0 to |rows|
        invariant idle == Select(rows[..i], IdleOn) && hot == Select(rows[..i], HotOn)
      {
        assert rows[..i + 1][..i] == rows[..i];
        if rows[i].status && rows[i].exeCounter == 0 { idle := idle + [rows[i].name]; }
        if rows[i].status && rows[i].exeCounter > 8 { hot := hot + [rows[i].name]; }
      }
      assert rows[..|rows|] == rows;
    }

    method PickRows(rows: seq<FunctionRow>, p: FunctionRow -> bool) returns (names: seq<string>)
      ensures names == Select(rows, p)
    {
      names := [];
      for i := 0 to |rows|
        invariant names == Select(rows[..i], p)
      {
        assert rows[..i + 1][..i] == rows[..i];
        if p(rows[i]) { names := names + [rows[i].name]; }
      }
      assert rows[..|rows|] == rows;
    }

    method DisablePass(order: seq<string>) returns (hot: seq<string>)
      requires forall i :: 0 <= i < |order| ==> order[i] in storage.table
      modifies this
      ensures sent == old(sent) + PassCommands(order, "Disable", First(storage.table))
      ensures hot == HotNames(storage.table, order)
    {
      hide Select, CounterSum, Reversed, Concat, MissedOff, WantedOff;
      hot := [];
      for i := 0 to |order|
        invariant sent == old(sent) + PassCommands(order[..i], "Disable", First(storage.table))
        invariant hot == HotNames(storage.table, order[..i])
      {
        assert order[..i + 1][..i] == order[..i];
        var rows := storage.table[order[i]].current.functions;
        var sum := SumCounters(rows);
        if sum > 0 {
          var idle, more := PickIdleAndHot(rows);
          hot := hot + more;
          if idle != [] { sent := sent + [Command(order[i], "Disable", idle)]; }
        }
      }
      assert order[..|order|] == order;
    }

    /** The inner loops of the second pass. */
    method PickMissedAndWanted(r: Record, hot: seq<string>, limit: int) returns (names: seq<string>)
      ensures names == EnablePick(r, hot, limit)
    {
      hide Select, CounterSum;
      names := PickRows(r.current.functions, Missed(5));
      var sum := SumCounters(r.current.functions);
      if sum == 0 || sum < limit {
        var more := PickRows(r.current.functions, Wanted(hot));
        names := names + more;
      }
    }

    method PickMissed(r: Record) returns (names: seq<string>)
      ensures names == RetryPick(r)
    {
      names := PickRows(r.current.functions, Missed(10));
    }

    /** Sends nothing when no function was picked. */
    method SendCommand(id: string, op: string, names: seq<string>)
      modifies this
      ensures sent == old(sent) + CommandFor(id, op, names)
    {
      if names != [] { sent := sent + [Command(id, op, names)]; }
    }

    method EnablePass(order: seq<string>, hot: seq<string>, limit: string -> int)
      requires forall i :: 0 <= i < |order| ==> order[i] in storage.table
      modifies this
      ensures sent == old(sent) + PassCommands(Reversed(order), "Enable", Second(storage.table, hot, limit))
    {
      ghost var pick := Second(storage.table, hot, limit);
      hide EnablePick, PassCommands, Reversed, CommandFor, Second;
      PassNothing(order, "Enable", pick);
      for i := |order| downto 0
        invariant sent == old(sent) + PassCommands(Reversed(order[i..]), "Enable", pick)
      {
        PassStep(order, i, "Enable", pick);
        SecondAt(storage.table, hot, limit, order[i]);
        ghost var before := PassCommands(Reversed(order[i + 1..]), "Enable", pick);
        var names := PickMissedAndWanted(storage.table[order[i]], hot, limit(order[i]));
        SendCommand(order[i], "Enable", names);
        AppendAppends(old(sent), before, CommandFor(order[i], "Enable", names));
      }
      assert order[0..] == order;
    }

    method RetryPass(order: seq<string>)
      requires forall i :: 0 <= i < |order| ==> order[i] in storage.table
      modifies this
      ensures sent == old(sent) + PassCommands(Reversed(order), "Enable", Third(storage.table))
    {
      ghost var pick := Third(storage.table);
      hide RetryPick, PassCommands, Reversed, CommandFor, Third;
      PassNothing(order, "Enable", pick);
      for i := |order| downto 0
        invariant sent == old(sent) + PassCommands(Reversed(order[i..]), "Enable", pick)
      {
        PassStep(order, i, "Enable", pick);
        ThirdAt(storage.table, order[i]);
        ghost var before := PassCommands(Reversed(order[i + 1..]), "Enable", pick);
        var names := PickMissed(storage.table[order[i]]);
        SendCommand(order[i], "Enable", names);
        AppendAppends(old(sent), before, CommandFor(order[i], "Enable", names));
      }
      assert order[0..] == order;
    }

    method FunctionSwitchHandler(order: seq<string>, limit: string -> int)
      requires forall i :: 0 <= i < |order| ==> order[i] in storage.table
      modifies this
      ensures sent == old(sent) + Round(storage.table, order, limit)
    {
      hide PassCommands, HotNames, First, Second, Third, Reversed;
      var hot := DisablePass(order);
      EnablePass(order, hot, limit);
      RetryPass(order);
    }
  }

  lemma SecondAt(table: Table, hot: seq<string>, limit: string -> int, id: string)
    requires id in table
    ensures Second(table, hot, limit)(id) == EnablePick(table[id], hot, limit(id))
  {
  }

  lemma ThirdAt(table: Table, id: string)
    requires id in table
    ensures Third(table)(id) == RetryPick(table[id])
  {
  }

  lemma AppendAppends(a: seq<string>, b: seq<string>, c: seq<string>)
    ensures a + b + c == a + (b + c)
  {
  }

  lemma PassNothing(order: seq<string>, op: string, pick: string -> seq<string>)
    ensures PassCommands(Reversed(order[|order|..]), op, pick) == []
  {
  }

  /** One step of a pass that goes backwards over the table. */
  lemma PassStep(order: seq<string>, i: nat, op: string, pick: string -> seq<string>)
    requires i < |order|
    ensures PassCommands(Reversed(order[i..]), op, pick) ==
      PassCommands(Reversed(order[i + 1..]), op, pick) + CommandFor(order[i], op, pick(order[i]))
  {
    hide CommandFor;
    ReversedDrop(order, i);
    var later := Reversed(order[i + 1..]);
    assert (later + [order[i]])[..|later|] == later;
  }

  lemma ReversedDrop<T>(s: seq<T>, i: nat)
    requires i < |s|
    ensures Reversed(s[i..]) == Reversed(s[i + 1..]) + [s[i]]
    ensures (Reversed(s[i + 1..]) + [s[i]])[..|Reversed(s[i + 1..])|] == Reversed(s[i + 1..])
  {
    assert s[i..][1..] == s[i + 1..];
  }

  // ---- The node's side ----

  function SwitchOne(node: NodeState, op: Component, c: Component): NodeState {
    if op == Generic("Enable") then
      var n := node.Enable(c);
      if c in n.excluded then n.Readmit(c) else n
    else if op == Generic("Disable") then node.Disable(c).Exclude(c)
    else node
  }

  function SwitchAll(node: NodeState, op: Component, cs: seq<Component>): NodeState
    decreases |cs|
  {
    if cs == [] then node else SwitchAll(SwitchOne(node, op, cs[0]), op, cs[1..])
  }

  function HandleSwitch(node: NodeState, n: Name): NodeState {
    if |n| > 4 then SwitchAll(node, n[3], n[4..]) else node
  }

  /** The nodes of the network, by the id under which the orchestrator knows them. */
  type Network = map<string, NodeState>

  /** A command goes to the node named by its second component. */
  function Deliver(net: Network, command: string): Network {
    var n := ParseName(command);
    if |n| > 2 && n[2] == Generic("FunctionSwitch") && n[1].Generic? && ['/'] + n[1].uri in net then
      var id := ['/'] + n[1].uri;
      net[id := HandleSwitch(net[id], n)]
    else net
  }

  function DeliverAll(net: Network, commands: seq<string>): Network {
    if commands == [] then net
    else Deliver(DeliverAll(net, commands[..|commands| - 1]), commands[|commands| - 1])
  }

  /** The switch handler of the application on a node. */
  method NodeFunctionSwitch(node: ComputeNode, n: Name) returns (payload: string)
    requires |n| > 3
    modifies node
    ensures node.Model() == HandleSwitch(old(node.Model()), n)
    ensures |n| > 4 && n[3] in {Generic("Enable"), Generic("Disable")} ==>
      payload == if n[|n| - 1] in old(node.functions) then "operation success" else "operation failed"
  {
    var operation := n[3];
    var flag := false;
    for i := 4 to |n|
      invariant node.functions.Keys == old(node.functions.Keys)
      invariant i > 4 && operation in {Generic("Enable"), Generic("Disable")} ==> flag == (n[i - 1] in node.functions)
      invariant SwitchAll(node.Model(), operation, n[i..]) == SwitchAll(old(node.Model()), operation, n[4..])
    {
      assert n[i..][0] == n[i] && n[i..][1..] == n[i + 1..];
      if operation == Generic("Enable") {
        flag := node.EnableFunction(n[i]);
        var isExcluded := node.CheckExcludeList(n[i]);
        if isExcluded { node.RemoveFromExcludeList(n[i]); }
      }
      if operation == Generic("Disable") {
        flag := node.DisableFunction(n[i]);
        node.AddToExcludeList(n[i]);
      }
    }
    payload := if flag then "operation success" else "operation failed";
  }
}
