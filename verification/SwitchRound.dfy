/** What one orchestration round does to the network. */
module SwitchRound {
  import opened Names
  import opened ComputeNodes
  import opened Text
  import opened NodeInfoStorage
  import opened FunctionSwitch

  // ---- Commands survive the name encoding ----

  /** A URI of one component: node ids and function names are of this form. */
  predicate OneComponent(s: string) {
    s != "" && s[0] == '/' && Free(s[1..], "/")
  }

  ghost predicate OneComponentEach(names: seq<string>) {
    forall i :: 0 <= i < |names| ==> OneComponent(names[i])
  }

  function ComponentOf(s: string): Component
    requires s != ""
  {
    Generic(s[1..])
  }

  function Tails(names: seq<string>): seq<string> {
    if names == [] then [] else Tails(names[..|names| - 1]) + [Tail(names[|names| - 1])]
  }

  function Tail(s: string): string { if s == "" then "" else s[1..] }

  lemma {:induction false} ConcatIsPath(names: seq<string>)
    requires OneComponentEach(names)
    ensures Concat(names) == SlashText(Tails(names)) && AllFree(Tails(names), "/") && |Tails(names)| == |names|
    ensures forall i :: 0 <= i < |names| ==> Tails(names)[i] == Tail(names[i])
  {
    hide Free;
    if names != [] {
      var init, last := names[..|names| - 1], names[|names| - 1];
      ConcatIsPath(init);
      SlashAppend(Tails(init), [Tail(last)]);
      assert [Tail(last)][1..] == [];
      assert SlashText([Tail(last)]) == ['/'] + Tail(last) + SlashText([]);
      assert last == ['/'] + Tail(last);
    }
  }

  function Components(names: seq<string>): seq<Component> {
    seq(|names|, i requires 0 <= i < |names| => Generic(Tail(names[i])))
  }

  lemma FixedPieces()
    ensures AllFree(["Orchestrator", "FunctionSwitch", "Enable", "Disable"], "/")
  {
  }

  /** The node decodes from the command string the node, the operation and the functions that
      the orchestrator encoded. */
  lemma CommandDecodes(id: string, op: string, names: seq<string>)
    requires OneComponent(id) && OneComponentEach(names) && op in ["Enable", "Disable"]
    ensures var n := ParseName(Command(id, op, names));
      && |n| == 4 + |names| && n[1] == Generic(Tail(id)) && n[2] == Generic("FunctionSwitch") && n[3] == Generic(op)
      && n[4..] == Components(names)
  {
    hide Free, Split, Concat, SlashText;
    FixedPieces();
    var fixed := ["Orchestrator", "FunctionSwitch", "Enable", "Disable"];
    assert Free(fixed[0], "/") && Free(fixed[1], "/") && Free(fixed[2], "/") && Free(fixed[3], "/");
    var head := ["Orchestrator", Tail(id), "FunctionSwitch", op];
    var ps := head + Tails(names);
    ConcatIsPath(names);
    HeadPath(id, op);
    SlashAppend(head, Tails(names));
    PathParses(ps);
    GenericNameAt(ps);
    assert GenericName(ps)[4..] == Components(names);
  }

  lemma HeadPath(id: string, op: string)
    requires id != "" && id[0] == '/'
    ensures SlashText(["Orchestrator", Tail(id), "FunctionSwitch", op]) == "/Orchestrator" + id + "/FunctionSwitch/" + op
  {
    hide SlashText;
    SlashCons(op, []);
    assert [op] + [] == [op];
    SlashCons("FunctionSwitch", [op]);
    assert ["FunctionSwitch"] + [op] == ["FunctionSwitch", op];
    SlashCons(Tail(id), ["FunctionSwitch", op]);
    assert [Tail(id)] + ["FunctionSwitch", op] == [Tail(id), "FunctionSwitch", op];
    SlashCons("Orchestrator", [Tail(id), "FunctionSwitch", op]);
    assert ["Orchestrator"] + [Tail(id), "FunctionSwitch", op] == ["Orchestrator", Tail(id), "FunctionSwitch", op];
    assert ['/'] + Tail(id) == id;
    assert ['/'] + op + "" == ['/'] + op;
    assert ['/'] + "FunctionSwitch" + (['/'] + op) == "/FunctionSwitch/" + op;
    assert ['/'] + "Orchestrator" == "/Orchestrator";
    Associates("/Orchestrator", id, "/FunctionSwitch/", op);
  }

  lemma Associates(a: string, b: string, c: string, d: string)
    ensures a + (b + (c + d)) == a + b + c + d
  {
  }

  // ---- A pass of commands, delivered ----

  lemma {:induction false} DeliverAllAppend(net: Network, a: seq<string>, b: seq<string>)
    ensures DeliverAll(net, a + b) == DeliverAll(DeliverAll(net, a), b)
  {
    hide Deliver;
    if b == [] {
      assert a + b == a;
    } else {
      var init := b[..|b| - 1];
      DeliverAllAppend(net, a, init);
      assert (a + b)[..|a + b| - 1] == a + init;
    }
  }

  ghost predicate AllDistinct(ids: seq<string>) {
    forall i, j :: 0 <= i < j < |ids| ==> ids[i] != ids[j]
  }

  ghost predicate Encodable(ids: seq<string>, pick: string -> seq<string>) {
    forall i :: 0 <= i < |ids| ==> OneComponent(ids[i]) && OneComponentEach(pick(ids[i]))
  }

  /** Each node receives the command meant for it, and no other. */
  lemma {:induction false} PassDelivers(net: Network, ids: seq<string>, op: string, pick: string -> seq<string>)
    requires AllDistinct(ids) && Encodable(ids, pick) && op in ["Enable", "Disable"]
    ensures var r := DeliverAll(net, PassCommands(ids, op, pick));
      && r.Keys == net.Keys
      && forall id :: id in net ==>
           r[id] == if id in ids then SwitchAll(net[id], Generic(op), Components(pick(id))) else net[id]
  {
    hide SwitchAll, Command, Components, OneComponent, OneComponentEach, CommandFor, Deliver, AllDistinct, Encodable;
    if ids != [] {
      var init, last := ids[..|ids| - 1], ids[|ids| - 1];
      LastOfIds(ids, pick);
      PassDelivers(net, init, op, pick);
      var net1 := DeliverAll(net, PassCommands(init, op, pick));
      DeliverAllAppend(net, PassCommands(init, op, pick), CommandFor(last, op, pick(last)));
      CommandForDelivers(net1, last, op, pick(last));
    }
  }

  lemma LastOfIds(ids: seq<string>, pick: string -> seq<string>)
    requires AllDistinct(ids) && Encodable(ids, pick) && ids != []
    ensures var init, last := ids[..|ids| - 1], ids[|ids| - 1];
      && AllDistinct(init) && Encodable(init, pick) && last !in init
      && (forall id :: id in ids <==> id in init || id == last)
      && OneComponent(last) && OneComponentEach(pick(last))
  {
    hide OneComponent, OneComponentEach;
    var init, last := ids[..|ids| - 1], ids[|ids| - 1];
    assert forall i :: 0 <= i < |init| ==> init[i] == ids[i];
    assert ids == init + [last];
  }

  lemma CommandForDelivers(net: Network, id: string, op: string, names: seq<string>)
    requires OneComponent(id) && OneComponentEach(names) && op in ["Enable", "Disable"]
    ensures DeliverAll(net, CommandFor(id, op, names)) ==
      if id in net then net[id := SwitchAll(net[id], Generic(op), Components(names))] else net
  {
    hide Command, ParseName, OneComponentEach;
    if names == [] {
      assert Components(names) == [];
      assert id in net ==> net[id := net[id]] == net;
    } else {
      CommandDecodes(id, op, names);
      var c := Command(id, op, names);
      assert [c][..0] == [] && DeliverAll(net, []) == net;
      assert ['/'] + Tail(id) == id;
    }
  }

  lemma {:induction false} ReversedSame(s: seq<string>)
    ensures |Reversed(s)| == |s| && forall i :: 0 <= i < |s| ==> Reversed(s)[i] == s[|s| - 1 - i]
  {
    if s != [] { ReversedSame(s[1..]); }
  }

  lemma ReversedDistinct(s: seq<string>)
    requires AllDistinct(s)
    ensures AllDistinct(Reversed(s)) && forall x :: x in Reversed(s) <==> x in s
  {
    ReversedSame(s);
    forall x | x in s ensures x in Reversed(s) {
      var i :| 0 <= i < |s| && s[i] == x;
      assert Reversed(s)[|s| - 1 - i] == x;
    }
  }

  // ---- What one node does with a list of functions ----

  lemma {:induction false} RemoveFirstCounts<T>(s: seq<T>, x: T)
    ensures multiset(RemoveFirst(s, x)) == multiset(s) - multiset{x}
  {
    if s != [] {
      var rest := s[1..];
      assert s == [s[0]] + rest;
      assert multiset(s) == multiset{s[0]} + multiset(rest);
      RemoveFirstCounts(rest, x);
    }
  }

  lemma {:induction false} DisableAllEffect(node: NodeState, cs: seq<Component>)
    ensures var r := SwitchAll(node, Generic("Disable"), cs);
      && r.functions.Keys == node.functions.Keys
      && (forall c :: c in node.functions ==>
            r.functions[c] == node.functions[c].(enabled := node.functions[c].enabled && c !in cs))
      && r.excluded == node.excluded + cs && r == node.(functions := r.functions, excluded := r.excluded)
    decreases |cs|
  {
    if cs == [] {
      assert node.excluded + cs == node.excluded;
    } else {
      DisableAllEffect(SwitchOne(node, Generic("Disable"), cs[0]), cs[1..]);
      assert node.excluded + [cs[0]] + cs[1..] == node.excluded + cs;
    }
  }

  function Minus(a: nat, b: nat): nat { if a < b then 0 else a - b }

  lemma EnableOneEffect(node: NodeState, c: Component)
    ensures var r := SwitchOne(node, Generic("Enable"), c);
      && r.functions.Keys == node.functions.Keys
      && (forall x :: x in node.functions ==>
            r.functions[x] == if x == c then node.functions[x].(enabled := true, missCounter := 0) else node.functions[x])
      && multiset(r.excluded) == multiset(node.excluded) - multiset{c}
      && r == node.(functions := r.functions, excluded := r.excluded)
  {
    hide RemoveFirst;
    RemoveFirstCounts(node.excluded, c);
    if c !in node.excluded { assert c !in multiset(node.excluded); }
  }

  lemma {:induction false} EnableAllEffect(node: NodeState, cs: seq<Component>)
    ensures var r := SwitchAll(node, Generic("Enable"), cs);
      && r.functions.Keys == node.functions.Keys
      && (forall c :: c in node.functions ==>
            r.functions[c] == if c in cs then node.functions[c].(enabled := true, missCounter := 0) else node.functions[c])
      && (forall c :: multiset(r.excluded)[c] == Minus(multiset(node.excluded)[c], multiset(cs)[c]))
      && r == node.(functions := r.functions, excluded := r.excluded)
    decreases |cs|
  {
    hide SwitchOne;
    if cs != [] {
      EnableOneEffect(node, cs[0]);
      EnableAllEffect(SwitchOne(node, Generic("Enable"), cs[0]), cs[1..]);
      assert cs == [cs[0]] + cs[1..];
    }
  }

  // ---- How often a list of selected rows names a function ----

  ghost predicate SelectedBy(rows: seq<FunctionRow>, p: FunctionRow -> bool, name: string) {
    exists k :: 0 <= k < |rows| && rows[k].name == name && p(rows[k])
  }

  lemma {:induction false} SelectNames(rows: seq<FunctionRow>, p: FunctionRow -> bool, name: string)
    ensures name in Select(rows, p) <==> SelectedBy(rows, p, name)
  {
    if rows != [] {
      var init, last := rows[..|rows| - 1], rows[|rows| - 1];
      SelectNames(init, p, name);
      assert forall i :: 0 <= i < |init| ==> init[i] == rows[i];
      assert SelectedBy(rows, p, name) <==> SelectedBy(init, p, name) || (last.name == name && p(last)) by {
        if SelectedBy(init, p, name) {
          var k :| 0 <= k < |init| && init[k].name == name && p(init[k]);
          assert rows[k].name == name;
        }
      }
    }
  }

  /** With distinct names, a row is selected once or not at all. */
  lemma {:induction false} SelectCount(rows: seq<FunctionRow>, p: FunctionRow -> bool, k: nat)
    requires DistinctRows(rows) && k < |rows|
    ensures multiset(Select(rows, p))[rows[k].name] == if p(rows[k]) then 1 else 0
  {
    var init, last := rows[..|rows| - 1], rows[|rows| - 1];
    assert forall i :: 0 <= i < |init| ==> init[i] == rows[i];
    if k == |rows| - 1 {
      SelectNames(init, p, last.name);
      assert last.name !in Select(init, p);
    } else {
      SelectCount(init, p, k);
    }
  }

  lemma {:induction false} ComponentsCount(names: seq<string>, name: string)
    requires OneComponentEach(names) && OneComponent(name)
    ensures multiset(Components(names))[ComponentOf(name)] == multiset(names)[name]
    ensures ComponentOf(name) in Components(names) <==> name in names
    decreases |names|
  {
    hide Free;
    if names != [] {
      var init, last := names[..|names| - 1], names[|names| - 1];
      assert names == init + [last];
      assert Components(names) == Components(init) + [Generic(Tail(last))];
      ComponentsCount(init, name);
      assert last == ['/'] + Tail(last) && name == ['/'] + Tail(name);
    }
  }

  // ---- The round ----

  /** The table mirrors the nodes it knows: names, states and counters of their functions. */
  ghost predicate Snapshot(table: Table, net: Network) {
    forall id :: id in table ==>
      && OneComponent(id) && id in net && Mirrors(table[id].current.functions, net[id])
  }

  ghost predicate Mirrors(rows: seq<FunctionRow>, node: NodeState) {
    && DistinctRows(rows)
    && forall k :: 0 <= k < |rows| ==>
         && OneComponent(rows[k].name) && ComponentOf(rows[k].name) in node.functions
         && node.functions[ComponentOf(rows[k].name)].enabled == rows[k].status
         && node.functions[ComponentOf(rows[k].name)].execCounter == rows[k].exeCounter
         && node.functions[ComponentOf(rows[k].name)].missCounter == rows[k].interestCounter
  }

  /** Any other operation leaves the node alone. */
  lemma {:induction false} OtherOperationIsIgnored(node: NodeState, op: Component, cs: seq<Component>)
    requires op != Generic("Enable") && op != Generic("Disable")
    ensures SwitchAll(node, op, cs) == node
    decreases |cs|
  {
    if cs != [] { OtherOperationIsIgnored(node, op, cs[1..]); }
  }

  lemma SelectEncodes(rows: seq<FunctionRow>, p: FunctionRow -> bool)
    requires forall k :: 0 <= k < |rows| ==> OneComponent(rows[k].name)
    ensures OneComponentEach(Select(rows, p))
  {
    hide OneComponent;
    var names := Select(rows, p);
    forall i | 0 <= i < |names| ensures OneComponent(names[i]) {
      SelectNames(rows, p, names[i]);
    }
  }

  lemma PicksEncode(table: Table, net: Network, hot: seq<string>, limit: string -> int, order: seq<string>)
    requires Snapshot(table, net) && Enumerates(order, table)
    ensures Encodable(order, First(table)) && Encodable(Reversed(order), Second(table, hot, limit))
    ensures Encodable(Reversed(order), Third(table))
  {
    hide OneComponent, Select, CounterSum, Reversed;
    forall id | id in table
      ensures OneComponentEach(First(table)(id)) && OneComponentEach(Second(table, hot, limit)(id)) && OneComponentEach(Third(table)(id))
    {
      var rows := table[id].current.functions;
      SelectEncodes(rows, IdleOn);
      SelectEncodes(rows, Missed(5));
      SelectEncodes(rows, Wanted(hot));
      SelectEncodes(rows, Missed(10));
    }
    ReversedSame(order);
  }

  /** After the round a node has received its three lists, in the order of the passes. */
  lemma RoundDelivers(table: Table, net: Network, order: seq<string>, limit: string -> int, id: string)
    requires Snapshot(table, net) && Enumerates(order, table) && id in table
    ensures var hot := HotNames(table, order);
      var r := DeliverAll(net, Round(table, order, limit));
      && id in r
      && r[id] == SwitchAll(SwitchAll(SwitchAll(net[id],
           Generic("Disable"), Components(DisablePick(table[id]))),
           Generic("Enable"), Components(EnablePick(table[id], hot, limit(id)))),
           Generic("Enable"), Components(RetryPick(table[id])))
  {
    hide SwitchAll, Components, DisablePick, EnablePick, RetryPick, HotNames, OneComponent, Snapshot, PassCommands, Deliver, Reversed;
    var hot, back := HotNames(table, order), Reversed(order);
    PicksEncode(table, net, hot, limit, order);
    ReversedDistinct(order);
    var a := PassCommands(order, "Disable", First(table));
    var b := PassCommands(back, "Enable", Second(table, hot, limit));
    var c := PassCommands(back, "Enable", Third(table));
    DeliverAllAppend(net, a + b, c);
    DeliverAllAppend(net, a, b);
    PassDelivers(net, order, "Disable", First(table));
    PassDelivers(DeliverAll(net, a), back, "Enable", Second(table, hot, limit));
    PassDelivers(DeliverAll(net, a + b), back, "Enable", Third(table));
    assert id in net by { SnapshotKnows(table, net, id); }
  }

  lemma SnapshotKnows(table: Table, net: Network, id: string)
    requires Snapshot(table, net) && id in table
    ensures id in net && Mirrors(table[id].current.functions, net[id])
  {
  }

  /** A function is switched off: it is on, has not run, and its node is busy. */
  predicate TurnsOff(r: Record, f: FunctionRow) {
    Busy(r) && IdleOn(f)
  }

  /** A function is switched on by the second pass. */
  predicate TurnsOn(r: Record, f: FunctionRow, hot: seq<string>, limit: int) {
    MissedOff(f, 5) || (Underused(r, limit) && WantedOff(f, hot))
  }

  /** How often the two Enable commands name the function. */
  function TimesEnabled(r: Record, f: FunctionRow, hot: seq<string>, limit: int): nat {
    (if MissedOff(f, 5) then 1 else 0)
    + (if Underused(r, limit) && WantedOff(f, hot) then 1 else 0)
    + (if MissedOff(f, 10) then 1 else 0)
  }

  lemma OneComponentTail(s: string)
    requires OneComponent(s)
    ensures s != "" && ComponentOf(s) == Generic(Tail(s))
  {
  }

  lemma PickCounts(r: Record, hot: seq<string>, limit: int, k: nat)
    requires var rows := r.current.functions;
      k < |rows| && DistinctRows(rows) && forall j :: 0 <= j < |rows| ==> OneComponent(rows[j].name)
    ensures var f := r.current.functions[k];
      var c := Generic(Tail(f.name));
      && multiset(Components(DisablePick(r)))[c] == (if TurnsOff(r, f) then 1 else 0)
      && multiset(Components(EnablePick(r, hot, limit)))[c] + multiset(Components(RetryPick(r)))[c]
         == TimesEnabled(r, f, hot, limit)
      && (multiset(Components(EnablePick(r, hot, limit)))[c] > 0 <==> TurnsOn(r, f, hot, limit))
  {
    hide OneComponent, Select, CounterSum, Components;
    var rows := r.current.functions;
    var f := rows[k];
    OneComponentTail(f.name);
    var missed, wanted, again := Missed(5), Wanted(hot), Missed(10);
    SelectCount(rows, IdleOn, k);
    SelectEncodes(rows, IdleOn);
    SelectCount(rows, missed, k);
    SelectEncodes(rows, missed);
    SelectCount(rows, wanted, k);
    SelectEncodes(rows, wanted);
    SelectCount(rows, again, k);
    SelectEncodes(rows, again);
    ComponentsCount(DisablePick(r), f.name);
    ComponentsCount(EnablePick(r, hot, limit), f.name);
    ComponentsCount(RetryPick(r), f.name);
  }

  /** The effect of a round on one reported function, for every snapshot: its state, and the number
      of its entries on the exclude list. */
  lemma RoundEffect(table: Table, net: Network, order: seq<string>, limit: string -> int, id: string, k: nat)
    requires Snapshot(table, net) && Enumerates(order, table) && id in table
    requires k < |table[id].current.functions|
    ensures var rec, f := table[id], table[id].current.functions[k];
      var c := Generic(Tail(f.name));
      var hot := HotNames(table, order);
      var r := DeliverAll(net, Round(table, order, limit));
      && id in r && c in r[id].functions
      && r[id].functions[c].enabled == ((f.status && !TurnsOff(rec, f)) || TurnsOn(rec, f, hot, limit(id)))
      && r[id].functions[c].execCounter == f.exeCounter
      && r[id].functions[c].missCounter == (if TurnsOn(rec, f, hot, limit(id)) then 0 else f.interestCounter)
      && !(TurnsOff(rec, f) && TurnsOn(rec, f, hot, limit(id)))
      && multiset(r[id].excluded)[c] ==
           Minus(multiset(net[id].excluded)[c] + (if TurnsOff(rec, f) then 1 else 0),
                 TimesEnabled(rec, f, hot, limit(id)))
  {
    hide SwitchAll, Components, DisablePick, EnablePick, RetryPick, HotNames, Deliver, Round, CounterSum, Select;
    var rec, hot := table[id], HotNames(table, order);
    var f := rec.current.functions[k];
    var c := Generic(Tail(f.name));
    RoundDelivers(table, net, order, limit, id);
    SnapshotKnows(table, net, id);
    PickCounts(rec, hot, limit(id), k);
    var off, on, again := Components(DisablePick(rec)), Components(EnablePick(rec, hot, limit(id))), Components(RetryPick(rec));
    var n1 := SwitchAll(net[id], Generic("Disable"), off);
    var n2 := SwitchAll(n1, Generic("Enable"), on);
    DisableAllEffect(net[id], off);
    EnableAllEffect(n1, on);
    EnableAllEffect(n2, again);
    assert multiset(n1.excluded)[c] == multiset(net[id].excluded)[c] + multiset(off)[c];
    assert (c in off <==> multiset(off)[c] > 0) && (c in on <==> multiset(on)[c] > 0) && (c in again <==> multiset(again)[c] > 0);
  }

  /** What the operator gets from a round: an enabled function that has not run on a busy node ends
      disabled and excluded; one that has run stays enabled with its exclusions untouched; a
      disabled one is enabled exactly when the second pass selects it, so the third adds none; and
      a newly enabled one is no longer excluded exactly when it was excluded no more often than
      the two Enable commands name it. */
  lemma RoundInWords(table: Table, net: Network, order: seq<string>, limit: string -> int, id: string, k: nat)
    requires Snapshot(table, net) && Enumerates(order, table) && id in table
    requires k < |table[id].current.functions|
    ensures var rec, f := table[id], table[id].current.functions[k];
      var c := Generic(Tail(f.name));
      var hot := HotNames(table, order);
      var r := DeliverAll(net, Round(table, order, limit));
      && id in r && c in r[id].functions
      && (f.status && f.exeCounter == 0 && Busy(rec) ==> !r[id].functions[c].enabled && c in r[id].excluded)
      && (f.status && f.exeCounter > 0 ==>
            r[id].functions[c].enabled && multiset(r[id].excluded)[c] == multiset(net[id].excluded)[c])
      && (!f.status ==> (r[id].functions[c].enabled <==> TurnsOn(rec, f, hot, limit(id))))
      && (!f.status && r[id].functions[c].enabled ==>
            (c !in r[id].excluded <==> multiset(net[id].excluded)[c] <= TimesEnabled(rec, f, hot, limit(id))))
  {
    hide DeliverAll, Round, HotNames, CounterSum, Snapshot;
    RoundEffect(table, net, order, limit, id, k);
    var r := DeliverAll(net, Round(table, order, limit));
    var c := Generic(Tail(table[id].current.functions[k].name));
    assert c in r[id].excluded <==> multiset(r[id].excluded)[c] > 0;
  }

  /** Nodes outside the table receive nothing. */
  lemma RoundLeavesOthers(table: Table, net: Network, order: seq<string>, limit: string -> int, id: string)
    requires Snapshot(table, net) && Enumerates(order, table) && id in net && id !in table
    ensures var r := DeliverAll(net, Round(table, order, limit)); id in r && r[id] == net[id]
  {
    hide SwitchAll, Components, HotNames, OneComponent, PassCommands, Deliver, Reversed;
    var hot, back := HotNames(table, order), Reversed(order);
    PicksEncode(table, net, hot, limit, order);
    ReversedDistinct(order);
    var a := PassCommands(order, "Disable", First(table));
    var b := PassCommands(back, "Enable", Second(table, hot, limit));
    var c := PassCommands(back, "Enable", Third(table));
    DeliverAllAppend(net, a + b, c);
    DeliverAllAppend(net, a, b);
    PassDelivers(net, order, "Disable", First(table));
    PassDelivers(DeliverAll(net, a), back, "Enable", Second(table, hot, limit));
    PassDelivers(DeliverAll(net, a + b), back, "Enable", Third(table));
  }

  // ---- What busy and hot mean ----

  /** The order in which the passes send: each node's command, if it names a function, in turn. */
  lemma {:induction false} PassCommandsAdd(a: seq<string>, b: seq<string>, op: string, pick: string -> seq<string>)
    ensures PassCommands(a + b, op, pick) == PassCommands(a, op, pick) + PassCommands(b, op, pick)
  {
    hide CommandFor;
    if b == [] {
      assert a + b == a;
    } else {
      var init, last := b[..|b| - 1], b[|b| - 1];
      PassCommandsAdd(a, init, op, pick);
      assert (a + b)[..|a + b| - 1] == a + init;
      AppendAppends(PassCommands(a, op, pick), PassCommands(init, op, pick), CommandFor(last, op, pick(last)));
    }
  }

  function Executions(rows: seq<FunctionRow>): nat {
    if rows == [] then 0 else Executions(rows[..|rows| - 1]) + rows[|rows| - 1].exeCounter
  }

  lemma RemainderOfShift(y: int, z: int)
    ensures (y - z * 0x1_0000_0000) % 0x1_0000_0000 == y % 0x1_0000_0000
  {
  }

  lemma AddingWraps(n: nat, counter: nat)
    ensures AddCounter(ToInt32(n % 0x1_0000_0000), counter) == ToInt32((n + counter) % 0x1_0000_0000)
  {
    var q, m := n / 0x1_0000_0000, n % 0x1_0000_0000;
    RemainderOfShift(n + counter, if m < 0x8000_0000 then q else q + 1);
  }

  /** The sum is the number of executions as an int of 32 bits. */
  lemma {:induction false} SumWraps(rows: seq<FunctionRow>)
    ensures CounterSum(rows) == ToInt32(Executions(rows) % 0x1_0000_0000)
  {
    hide ToInt32, AddCounter;
    if rows == [] {
      NothingWraps();
    } else {
      SumWraps(rows[..|rows| - 1]);
      AddingWraps(Executions(rows[..|rows| - 1]), rows[|rows| - 1].exeCounter);
    }
  }

  lemma NothingWraps()
    ensures ToInt32(0 % 0x1_0000_0000) == 0
  {
  }

  lemma {:induction false} ExecutionsPositive(rows: seq<FunctionRow>)
    ensures Executions(rows) > 0 <==> exists k :: 0 <= k < |rows| && rows[k].exeCounter > 0
  {
    if rows != [] {
      var init := rows[..|rows| - 1];
      ExecutionsPositive(init);
      assert forall k :: 0 <= k < |init| ==> init[k] == rows[k];
      assert rows[|rows| - 1].exeCounter > 0 || Executions(rows) == Executions(init);
    }
  }

  /** A node is busy exactly when the wrapped number of its executions is positive as an int. Below
      2^31 executions, that is when one of its functions has run at all. */
  lemma BusyExactly(r: Record)
    ensures var n := Executions(r.current.functions);
      && (Busy(r) <==> 0 < n % 0x1_0000_0000 < 0x8000_0000)
      && (n < 0x8000_0000 ==>
            (Busy(r) <==> exists k :: 0 <= k < |r.current.functions| && r.current.functions[k].exeCounter > 0))
  {
    SumWraps(r.current.functions);
    ExecutionsPositive(r.current.functions);
  }

  /** Hot functions are those that some busy node has on and has run more than eight times. */
  lemma {:induction false} HotExactly(table: Table, ids: seq<string>, name: string)
    requires forall i :: 0 <= i < |ids| ==> ids[i] in table
    ensures name in HotNames(table, ids) <==>
      exists i :: 0 <= i < |ids| && Busy(table[ids[i]]) && SelectedBy(table[ids[i]].current.functions, HotOn, name)
  {
    hide CounterSum, SelectedBy, Select;
    if ids != [] {
      var init, last := ids[..|ids| - 1], ids[|ids| - 1];
      HotExactly(table, init, name);
      SelectNames(table[last].current.functions, HotOn, name);
      assert forall i :: 0 <= i < |init| ==> init[i] == ids[i];
    }
  }

  // ---- The order of the commands ----

  /** The operation that a node reads from the command. */
  ghost predicate Orders(command: string, op: string) {
    var n := ParseName(command); |n| > 4 && n[3] == Generic(op)
  }

  lemma {:induction false} PassOrders(ids: seq<string>, op: string, pick: string -> seq<string>)
    requires Encodable(ids, pick) && op in ["Enable", "Disable"]
    ensures forall k :: 0 <= k < |PassCommands(ids, op, pick)| ==> Orders(PassCommands(ids, op, pick)[k], op)
  {
    hide OneComponent, Command;
    if ids != [] {
      var init, last := ids[..|ids| - 1], ids[|ids| - 1];
      assert forall i :: 0 <= i < |init| ==> init[i] == ids[i];
      PassOrders(init, op, pick);
      if pick(last) != [] { CommandDecodes(last, op, pick(last)); }
    }
  }

  /** All Disable commands of a round are sent before all Enable commands. */
  lemma DisableFirst(table: Table, net: Network, order: seq<string>, limit: string -> int, i: nat, j: nat)
    requires Snapshot(table, net) && Enumerates(order, table) && i < j < |Round(table, order, limit)|
    ensures Orders(Round(table, order, limit)[i], "Disable") || Orders(Round(table, order, limit)[i], "Enable")
    ensures Orders(Round(table, order, limit)[j], "Disable") ==> Orders(Round(table, order, limit)[i], "Disable")
  {
    hide PassCommands, First, Second, Third, HotNames, Orders, Reversed;
    var hot, back := HotNames(table, order), Reversed(order);
    PicksEncode(table, net, hot, limit, order);
    PassOrders(order, "Disable", First(table));
    PassOrders(back, "Enable", Second(table, hot, limit));
    PassOrders(back, "Enable", Third(table));
    OrdersOnce(Round(table, order, limit)[j]);
  }

  lemma OrdersOnce(command: string)
    ensures !(Orders(command, "Disable") && Orders(command, "Enable"))
  {
    assert "Disable"[0] != "Enable"[0];
  }

  // ---- The round in the fields of the rows ----

  /** The executions of the node, as a 32-bit int. */
  ghost function WrappedSum(rows: seq<FunctionRow>): int {
    var n := Executions(rows) % 0x1_0000_0000;
    if n < 0x8000_0000 then n else n - 0x1_0000_0000
  }

  /** Some node of the table with a positive sum has the function on and has run it more than 8 times. */
  ghost predicate HotSomewhere(table: Table, name: string) {
    exists id, k :: id in table && HotAt(table[id].current.functions, k, name)
  }

  ghost predicate HotAt(rows: seq<FunctionRow>, k: int, name: string) {
    0 <= k < |rows| && rows[k].name == name && rows[k].status && rows[k].exeCounter > 8 && WrappedSum(rows) > 0
  }

  /** More missed interests than this, as a 32-bit int. */
  ghost predicate MissedMore(f: FunctionRow, threshold: nat) {
    threshold < f.interestCounter % 0x1_0000_0000 < 0x8000_0000
  }

  /** The second pass selects a disabled function: it was missed more than five times, or its node has
      few executions and it is hot elsewhere. */
  ghost predicate Selected(table: Table, rows: seq<FunctionRow>, f: FunctionRow, limit: int) {
    MissedMore(f, 5) || ((WrappedSum(rows) == 0 || WrappedSum(rows) < limit) && HotSomewhere(table, f.name))
  }

  /** How often the second and the third pass together name a disabled function. */
  ghost function TimesSelected(table: Table, rows: seq<FunctionRow>, f: FunctionRow, limit: int): nat {
    (if MissedMore(f, 5) then 1 else 0)
    + (if (WrappedSum(rows) == 0 || WrappedSum(rows) < limit) && HotSomewhere(table, f.name) then 1 else 0)
    + (if MissedMore(f, 10) then 1 else 0)
  }

  lemma HotIsHot(table: Table, order: seq<string>, name: string)
    requires Enumerates(order, table)
    ensures name in HotNames(table, order) <==> HotSomewhere(table, name)
  {
    hide CounterSum, Select, Executions, WrappedSum;
    HotExactly(table, order, name);
    if name in HotNames(table, order) {
      var i :| 0 <= i < |order| && Busy(table[order[i]]) && SelectedBy(table[order[i]].current.functions, HotOn, name);
      var rows := table[order[i]].current.functions;
      var k :| 0 <= k < |rows| && rows[k].name == name && HotOn(rows[k]);
      SumIsWrapped(rows);
      assert HotAt(rows, k, name);
    }
    if HotSomewhere(table, name) {
      var id, k :| id in table && HotAt(table[id].current.functions, k, name);
      var i :| 0 <= i < |order| && order[i] == id;
      SumIsWrapped(table[id].current.functions);
      assert SelectedBy(table[order[i]].current.functions, HotOn, name);
    }
  }

  lemma SumIsWrapped(rows: seq<FunctionRow>)
    ensures CounterSum(rows) == WrappedSum(rows)
  {
    SumWraps(rows);
  }

  lemma TestsInFields(table: Table, order: seq<string>, r: Record, f: FunctionRow, limit: int)
    requires Enumerates(order, table)
    ensures var rows, hot := r.current.functions, HotNames(table, order);
      && (TurnsOff(r, f) <==> f.status && f.exeCounter == 0 && WrappedSum(rows) > 0)
      && (TurnsOn(r, f, hot, limit) <==> !f.status && Selected(table, rows, f, limit))
      && (!f.status ==> TimesEnabled(r, f, hot, limit) == TimesSelected(table, rows, f, limit))
      && (f.status ==> TimesEnabled(r, f, hot, limit) == 0)
  {
    hide CounterSum, HotNames, Executions, WrappedSum, HotSomewhere;
    SumIsWrapped(r.current.functions);
    HotIsHot(table, order, f.name);
    MissedInFields(f, 5);
    MissedInFields(f, 10);
  }

  lemma MissedInFields(f: FunctionRow, threshold: nat)
    ensures MissedOff(f, threshold) <==> !f.status && MissedMore(f, threshold)
  {
  }

  /** A round, for every snapshot and reported function, in the fields of the rows alone: whether the
      function is on afterwards, how often it is excluded, and its counters. */
  lemma RoundInFields(table: Table, net: Network, order: seq<string>, limit: string -> int, id: string, k: nat)
    requires Snapshot(table, net) && Enumerates(order, table) && id in table
    requires k < |table[id].current.functions|
    ensures var rows := table[id].current.functions;
      var f, c := rows[k], Generic(rows[k].name[1..]);
      var r := DeliverAll(net, Round(table, order, limit));
      var off := f.status && f.exeCounter == 0 && WrappedSum(rows) > 0;
      var on := !f.status && Selected(table, rows, f, limit(id));
      var before := multiset(net[id].excluded)[c];
      && f.name != "" && id in r && c in r[id].functions
      && (r[id].functions[c].enabled <==> if f.status then !off else on)
      && r[id].functions[c].execCounter == f.exeCounter
      && r[id].functions[c].missCounter == (if on then 0 else f.interestCounter)
      && (f.status ==> multiset(r[id].excluded)[c] == before + (if off then 1 else 0))
      && (!f.status ==>
            var times := TimesSelected(table, rows, f, limit(id));
            multiset(r[id].excluded)[c] == if times <= before then before - times else 0)
  {
    hide DeliverAll, Round, HotNames, CounterSum, Snapshot, WrappedSum, TimesSelected, TurnsOn, TurnsOff, TimesEnabled, Selected;
    RoundEffect(table, net, order, limit, id, k);
    TestsInFields(table, order, table[id], table[id].current.functions[k], limit(id));
    NamesOfSnapshot(table, net, id, k);
  }

  lemma NamesOfSnapshot(table: Table, net: Network, id: string, k: nat)
    requires Snapshot(table, net) && id in table && k < |table[id].current.functions|
    ensures var name := table[id].current.functions[k].name; name != "" && Tail(name) == name[1..]
  {
    SnapshotKnows(table, net, id);
  }
}
