/** The compute application of one node: what every event does to its state. Packets handed to
    the forwarder go to an outbox; the executions scheduled in the simulator are `running`. */
module NfnProducer {
  import opened Names
  import opened ComputeNodes
  import opened ResolutionEngine

  /** An interest under treatment. Two entries count as equal when their interest names are. */
  datatype Entry = Entry(interest: Name, func: Component, pending: map<Name, bool>)

  datatype Execution = Execution(data: Name, func: Component)

  datatype Packet =
    | FetchInterest(name: Name)
    | ForwardedInterest(name: Name)
    | DataPacket(name: Name)
    | NackPacket(name: Name)

  /** What has happened so far; no branch of the application depends on it. */
  datatype History = History(
    received: multiset<Name>, queued: seq<Entry>, dequeued: seq<Entry>, started: multiset<Name>)

  datatype State = State(
    active: bool, node: NodeState, table: seq<Entry>, sending: set<Name>, waiting: seq<Entry>,
    running: seq<Execution>, outbox: seq<Packet>, history: History)
  {
    function Send(p: Packet): State {
      this.(outbox := outbox + [p])
    }
  }

  predicate Known(functions: map<Component, Function>, e: Entry) {
    e.func in functions && FunctionName(e.interest) == Some(e.func)
  }

  /** What every operation relies on: entries name installed functions, and the fill counter of
      the node is the length of this application's waiting list. */
  ghost predicate Valid(s: State) {
    && (forall i :: 0 <= i < |s.table| ==> Known(s.node.functions, s.table[i]))
    && (forall i :: 0 <= i < |s.waiting| ==> Known(s.node.functions, s.waiting[i]))
    && (forall i :: 0 <= i < |s.running| ==> s.running[i].func in s.node.functions)
    && s.node.queueFill == |s.waiting| <= s.node.queueSize
  }

  function IndexOf(table: seq<Entry>, name: Name): (i: nat)
    ensures i <= |table|
    ensures i < |table| ==> table[i].interest == name
    ensures forall j :: 0 <= j < i ==> table[j].interest != name
  {
    if table == [] || table[0].interest == name then 0 else 1 + IndexOf(table[1..], name)
  }

  function DeleteEntry(table: seq<Entry>, name: Name): seq<Entry> {
    var i := IndexOf(table, name);
    if i < |table| then table[..i] + table[i + 1..] else table
  }

  function Execute(s: State, e: Entry): State
    requires e.func in s.node.functions
  {
    s.(node := s.node.Book(s.node.functions[e.func]).CountExecution(e.func),
       running := s.running + [Execution(e.interest, e.func)],
       table := DeleteEntry(s.table, e.interest),
       history := s.history.(started := s.history.started + multiset{e.interest}))
  }

  /** One interest per name until Data for the name arrives. */
  function Request(s: State, n: Name): State {
    if n in s.sending then s else s.(sending := s.sending + {n}).Send(FetchInterest(n))
  }

  function RequestAll(s: State, names: seq<Name>): State
    decreases |names|
  {
    if names == [] then s else RequestAll(Request(s, names[0]), names[1..])
  }

  function Await(e: Entry, names: seq<Name>): Entry
    decreases |names|
  {
    if names == [] then e else Await(e.(pending := e.pending[names[0] := false]), names[1..])
  }

  function Enqueue(s: State, e: Entry): State {
    s.(node := s.node.Enqueued(), waiting := s.waiting + [e],
       history := s.history.(queued := s.history.queued + [e]))
  }

  /** A request that is ready to run: it starts, or waits while the queue has room, or is sent on. */
  function Admit(s: State, e: Entry): State
    requires e.func in s.node.functions
  {
    if s.node.Fits(s.node.functions[e.func]) then Execute(s, e)
    else if s.node.queueFill != s.node.queueSize then Enqueue(s, e)
    else s.(node := s.node.CountBusy()).Send(ForwardedInterest(e.interest))
  }

  /** The decision after the exclude list has overruled the engine. */
  function Outcome(node: NodeState, e: Entry, cs: set<Name>): Decision
    requires Resolvable(e.interest)
  {
    if e.func in node.excluded then FORWARD else Decide(node, e.interest, cs).0
  }

  function Resolve(s: State, e: Entry, cs: set<Name>): State
    requires Known(s.node.functions, e)
  {
    var wanted := Decide(s.node, e.interest, cs).1;
    var s1 := s.(node := AfterDecide(s.node, e.interest, cs));
    match Outcome(s.node, e, cs)
    case NACK => s1.Send(NackPacket(e.interest))
    case FETCH => var s2 := RequestAll(s1, wanted); s2.(table := [Await(e, wanted)] + s2.table)
    case FORWARD => s1.Send(ForwardedInterest(e.interest))
    case EXECUTE => Admit(s1, e)
  }

  /** The function a code-drag response enables: the second component of the data name. */
  function Dragged(d: Name): Component {
    if |d| > 1 then d[1] else Generic("")
  }

  predicate AllArrived(pending: map<Name, bool>) {
    forall n :: n in pending ==> pending[n]
  }

  /** d is a code drag for a function that is not installed. */
  predicate Aborts(s: State, d: Name) {
    MentionsFunction(d) && Dragged(d) !in s.node.functions
  }

  /** The node once the function that d carries, if any, has been enabled. */
  function Switched(node: NodeState, d: Name): NodeState {
    if MentionsFunction(d) then node.Enable(Dragged(d)) else node
  }

  /** The entry at position i has received d, on a node switched by d. */
  function Marked(s: State, i: nat, d: Name): State
    requires i < |s.table|
  {
    s.(node := Switched(s.node, d),
       table := s.table[i := s.table[i].(pending := s.table[i].pending[d := true])])
  }

  /** What the arrival of d does to the table entry at position i. */
  function Visit(s: State, i: nat, d: Name, cs: set<Name>): State
    requires i < |s.table| && Known(s.node.functions, s.table[i])
  {
    var e := s.table[i];
    if d !in e.pending then s
    else if Aborts(s, d) then s.(table := DeleteEntry(s.table, e.interest))
    else if e.pending[d] then s.(node := Switched(s.node, d))
    else
      var m := Marked(s, i, d);
      if AllArrived(m.table[i].pending) then Resolve(m, m.table[i], cs) else m
  }

  /** The positions i-1, ..., 0 of the table as it then stands. */
  function Sweep(s: State, i: nat, d: Name, cs: set<Name>): (r: State)
    requires Valid(s) && i <= |s.table|
    ensures Valid(r)
    decreases i
  {
    if i == 0 then s
    else
      VisitKeepsValid(s, i - 1, d, cs);
      Sweep(Visit(s, i - 1, d, cs), i - 1, d, cs)
  }

  lemma SweepStep(s: State, i: nat, d: Name, cs: set<Name>)
    requires Valid(s) && i <= |s.table|
    ensures i == 0 ==> Sweep(s, i, d, cs) == s
    ensures i > 0 ==>
      var s1 := Visit(s, i - 1, d, cs);
      Valid(s1) && i - 1 <= |s1.table| && Sweep(s, i, d, cs) == Sweep(s1, i - 1, d, cs)
  {
    hide Valid, Visit;
    if i > 0 { VisitKeepsValid(s, i - 1, d, cs); }
  }

  /** The state in which OnData begins its sweep. */
  function Delivered(s: State, d: Name): State {
    s.(sending := s.sending - {d}, history := s.history.(received := s.history.received + multiset{d}))
  }

  function ReceiveData(s: State, d: Name, cs: set<Name>): State
    requires Valid(s)
  {
    if s.active then Sweep(Delivered(s, d), |s.table|, d, cs) else s
  }

  /** The application remembers the component after the last `Function` component. */
  function LastFunctionName(n: Name, i: nat, last: Component): Component
    requires i <= |n|
    decreases |n| - i
  {
    if i == |n| then last
    else LastFunctionName(n, i + 1,
      if n[i] != FUNCTION then last else if i + 1 < |n| then n[i + 1] else Generic(""))
  }

  function EntryFor(n: Name): Entry {
    Entry(n, LastFunctionName(n, 0, Generic("")), map[])
  }

  /** One `Function` component, at position i, followed by the name of an installed function. */
  predicate NamesFunctionAt(functions: map<Component, Function>, n: Name, i: nat) {
    && i + 1 < |n| && n[i] == FUNCTION && n[i + 1] in functions
    && forall j :: 0 <= j < |n| && n[j] == FUNCTION ==> j == i
  }

  /** The application and the engine dereference the function they find without testing it. */
  ghost predicate Acceptable(functions: map<Component, Function>, n: Name) {
    n != [] && n[0] == LAMBDA && exists i: nat :: NamesFunctionAt(functions, n, i)
  }

  /** The engine takes the first function named, the application the last: with one they agree. */
  lemma FirstIsLast(functions: map<Component, Function>, n: Name)
    requires Acceptable(functions, n)
    ensures Known(functions, EntryFor(n))
  {
    var i: nat :| NamesFunctionAt(functions, n, i);
    FirstFrom(functions, n, i, 0);
    LastFrom(functions, n, i, 0, Generic(""));
  }

  lemma {:induction false} FirstFrom(functions: map<Component, Function>, n: Name, i: nat, j: nat)
    requires NamesFunctionAt(functions, n, i) && j <= i
    ensures FunctionNameFrom(n, j) == Some(n[i + 1])
    decreases i - j
  {
    if j < i { FirstFrom(functions, n, i, j + 1); }
  }

  lemma {:induction false} LastFrom(
    functions: map<Component, Function>, n: Name, i: nat, j: nat, last: Component)
    requires NamesFunctionAt(functions, n, i) && j <= |n| && (i < j ==> last == n[i + 1])
    ensures LastFunctionName(n, j, last) == n[i + 1]
    decreases |n| - j
  {
    if j < |n| {
      LastFrom(functions, n, i, j + 1,
        if n[j] != FUNCTION then last else if j + 1 < |n| then n[j + 1] else Generic(""));
    }
  }

  function ReceiveInterest(s: State, n: Name, cs: set<Name>): State
    requires Valid(s) && Acceptable(s.node.functions, n)
  {
    FirstIsLast(s.node.functions, n);
    if !s.active then s else Resolve(s, EntryFor(n), cs)
  }

  /** The k-th scheduled execution gives its resources back and its result is sent. */
  function Released(s: State, k: nat): State
    requires Valid(s) && k < |s.running|
  {
    s.(running := s.running[..k] + s.running[k + 1..],
       node := s.node.Release(s.node.functions[s.running[k].func])).Send(DataPacket(s.running[k].data))
  }

  /** The head of the waiting list leaves it and starts. */
  function StartHead(s: State): State
    requires s.waiting != [] && s.waiting[0].func in s.node.functions
  {
    Execute(s.(node := s.node.Dequeued(), waiting := s.waiting[1..],
               history := s.history.(dequeued := s.history.dequeued + [s.waiting[0]])), s.waiting[0])
  }

  /** The k-th scheduled execution ends: at most one waiting entry starts. */
  function Complete(s: State, k: nat): State
    requires Valid(s) && k < |s.running|
  {
    var s1 := Released(s, k);
    if s1.node.queueFill != 0 && s1.node.Fits(s1.node.functions[s1.waiting[0].func]) then StartHead(s1) else s1
  }

  // ---- The operations keep Valid ----

  /** Neither the queue size nor the installed functions and their demands differ. */
  ghost predicate SameHardware(n: NodeState, n': NodeState) {
    && n.queueSize == n'.queueSize
    && n.functions.Keys == n'.functions.Keys
    && forall c :: c in n.functions ==>
         && n.functions[c].ram == n'.functions[c].ram
         && n.functions[c].cpu == n'.functions[c].cpu
         && n.functions[c].paramNumber == n'.functions[c].paramNumber
  }

  lemma {:induction false} RequestAllEffect(s: State, names: seq<Name>)
    ensures var r := RequestAll(s, names);
      && r == s.(sending := r.sending, outbox := r.outbox)
      && (forall n :: n in r.sending <==> n in s.sending || n in names)
    decreases |names|
  {
    if names != [] { RequestAllEffect(Request(s, names[0]), names[1..]); }
  }

  lemma {:induction false} AwaitEffect(e: Entry, names: seq<Name>)
    ensures var r := Await(e, names);
      && r == e.(pending := r.pending)
      && (forall n :: n in r.pending <==> n in e.pending || n in names)
      && (forall n :: n in r.pending ==> r.pending[n] == (n !in names && e.pending[n]))
    decreases |names|
  {
    if names != [] { AwaitEffect(e.(pending := e.pending[names[0] := false]), names[1..]); }
  }

  lemma ExecuteKeepsValid(s: State, e: Entry)
    requires Valid(s) && Known(s.node.functions, e)
    ensures var r := Execute(s, e);
      && Valid(r) && |r.table| >= |s.table| - 1
      && SameHardware(s.node, r.node)
  {
  }

  lemma DecideKeepsValid(s: State, e: Entry, cs: set<Name>)
    requires Valid(s) && Known(s.node.functions, e)
    ensures var s1 := s.(node := AfterDecide(s.node, e.interest, cs));
      Valid(s1) && SameHardware(s.node, s1.node)
  {
  }

  lemma AdmitKeepsValid(s: State, e: Entry)
    requires Valid(s) && Known(s.node.functions, e)
    ensures var r := Admit(s, e);
      Valid(r) && |r.table| >= |s.table| - 1 && SameHardware(s.node, r.node)
  {
    ExecuteKeepsValid(s, e);
  }

  lemma FetchKeepsValid(s: State, e: Entry, names: seq<Name>)
    requires Valid(s) && Known(s.node.functions, e)
    ensures var s2 := RequestAll(s, names);
      var r := s2.(table := [Await(e, names)] + s2.table);
      Valid(r) && |r.table| == |s.table| + 1 && r.node == s.node
  {
    RequestAllEffect(s, names);
    AwaitEffect(e, names);
  }

  lemma ResolveKeepsValid(s: State, e: Entry, cs: set<Name>)
    requires Valid(s) && Known(s.node.functions, e)
    ensures var r := Resolve(s, e, cs);
      && Valid(r) && |r.table| >= |s.table| - 1
      && SameHardware(s.node, r.node)
  {
    var s1 := s.(node := AfterDecide(s.node, e.interest, cs));
    DecideKeepsValid(s, e, cs);
    match Outcome(s.node, e, cs)
    case NACK =>
    case FORWARD =>
    case FETCH => FetchKeepsValid(s1, e, Decide(s.node, e.interest, cs).1);
    case EXECUTE => AdmitKeepsValid(s1, e);
  }

  lemma MarkKeepsValid(s: State, i: nat, d: Name)
    requires Valid(s) && i < |s.table|
    ensures Valid(Marked(s, i, d)) && SameHardware(s.node, Marked(s, i, d).node)
  {
  }

  lemma VisitKeepsValid(s: State, i: nat, d: Name, cs: set<Name>)
    requires Valid(s) && i < |s.table|
    ensures var r := Visit(s, i, d, cs);
      && Valid(r) && |r.table| >= i
      && SameHardware(s.node, r.node)
  {
    var e := s.table[i];
    if d in e.pending && !Aborts(s, d) && !e.pending[d] {
      MarkKeepsValid(s, i, d);
      var m := Marked(s, i, d);
      if AllArrived(m.table[i].pending) { ResolveKeepsValid(m, m.table[i], cs); }
    }
  }

  // ---- The application object ----

  class NfnProducerApp {
    const node: ComputeNode
    var active: bool
    var pendingContentTable: seq<Entry>
    var sendingInterestList: set<Name>
    var waitingList: seq<Entry>
    var running: seq<Execution>
    var outbox: seq<Packet>
    ghost var history: History

    ghost function Model(): State
      reads this, node
    {
      State(active, node.Model(), pendingContentTable, sendingInterestList, waitingList, running,
            outbox, history)
    }

    constructor (node: ComputeNode)
      ensures this.node == node
      ensures Model() == State(true, node.Model(), [], {}, [], [], [],
                               History(multiset{}, [], [], multiset{}))
    {
      this.node, active := node, true;
      pendingContentTable, sendingInterestList, waitingList := [], {}, [];
      running, outbox, history := [], [], History(multiset{}, [], [], multiset{});
    }

    method CheckResource(f: Component) returns (ok: bool)
      requires f in node.functions
      ensures ok == node.Model().Fits(node.functions[f])
    {
      var func := node.functions[f];
      ok := !(node.ram < func.ram || node.cores < func.cpu);
    }

    method BookResource(f: Component)
      requires f in node.functions
      modifies node
      ensures node.Model() == old(node.Model().Book(node.functions[f]))
    {
      node.ram := Sub32(node.ram, node.functions[f].ram);
      node.cores := Sub32(node.cores, node.functions[f].cpu);
    }

    method ReleaseResource(f: Component)
      requires f in node.functions
      modifies node
      ensures node.Model() == old(node.Model().Release(node.functions[f]))
    {
      node.ram := Add32(node.ram, node.functions[f].ram);
      node.cores := Add32(node.cores, node.functions[f].cpu);
    }

    method DeletePendingContentTableEntry(e: Entry)
      modifies this`pendingContentTable
      ensures pendingContentTable == DeleteEntry(old(pendingContentTable), e.interest)
    {
      var i := 0;
      while i < |pendingContentTable| && pendingContentTable[i].interest != e.interest
        invariant i <= |pendingContentTable| && pendingContentTable == old(pendingContentTable)
        invariant forall j :: 0 <= j < i ==> pendingContentTable[j].interest != e.interest
      {
        i := i + 1;
      }
      assert IndexOf(pendingContentTable, e.interest) == i;
      if i < |pendingContentTable| {
        pendingContentTable := pendingContentTable[..i] + pendingContentTable[i + 1..];
      }
    }

    method DoExecution(e: Entry)
      requires e.func in node.functions
      modifies this, node
      ensures Model() == Execute(old(Model()), e)
    {
      BookResource(e.func);
      node.functions := node.functions[e.func :=
        node.functions[e.func].(execCounter := Add32(node.functions[e.func].execCounter, 1))];
      running := running + [Execution(e.interest, e.func)];
      history := history.(started := history.started + multiset{e.interest});
      DeletePendingContentTableEntry(e);
    }

    method ForwardInterest(e: Entry)
      modifies this`outbox
      ensures outbox == old(outbox) + [ForwardedInterest(e.interest)]
    {
      outbox := outbox + [ForwardedInterest(e.interest)];
    }

    method ResolveAndHandleDecisions(e: Entry, cs: set<Name>)
      requires Known(node.functions, e)
      modifies this, node
      ensures Model() == Resolve(old(Model()), e, cs)
    {
      var decision, wanted := ResolutionEngine.GetFetchDecisions(e.interest, node, cs);
      var isExcluded := node.CheckExcludeList(e.func);
      if isExcluded { decision := FORWARD; }
      match decision
      case NACK =>
        outbox := outbox + [NackPacket(e.interest)];
      case FETCH =>
        var waits := e;
        ghost var s1 := Model();
        for i := 0 to |wanted|
          invariant RequestAll(Model(), wanted[i..]) == RequestAll(s1, wanted)
          invariant Await(waits, wanted[i..]) == Await(e, wanted)
          invariant node.Model() == s1.node && pendingContentTable == s1.table
        {
          var name := wanted[i];
          assert wanted[i..][0] == name && wanted[i..][1..] == wanted[i + 1..];
          waits := waits.(pending := waits.pending[name := false]);
          if name !in sendingInterestList {
            sendingInterestList := sendingInterestList + {name};
            outbox := outbox + [FetchInterest(name)];
          }
        }
        pendingContentTable := [waits] + pendingContentTable;
      case FORWARD =>
        ForwardInterest(e);
      case EXECUTE =>
        var fits := CheckResource(e.func);
        if fits {
          DoExecution(e);
        } else if node.queueFill != node.queueSize {
          var _ := node.IncrementQueueFill();
          waitingList := waitingList + [e];
          history := history.(queued := history.queued + [e]);
        } else {
          node.busyCounter := Add32(node.busyCounter, 1);
          ForwardInterest(e);
        }
    }

    method OnInterest(n: Name, cs: set<Name>)
      requires Valid(Model()) && Acceptable(node.functions, n)
      modifies this, node
      ensures Model() == ReceiveInterest(old(Model()), n, cs)
    {
      if !active { return; }
      var func := Generic("");
      for i := 0 to |n|
        invariant LastFunctionName(n, i, func) == EntryFor(n).func
      {
        if n[i] == FUNCTION {
          func := if i + 1 < |n| then n[i + 1] else Generic("");
        }
      }
      FirstIsLast(node.functions, n);
      ResolveAndHandleDecisions(Entry(n, func, map[]), cs);
    }

    /** One pass through the loop body of OnData. */
    method DeliverTo(i: nat, d: Name, cs: set<Name>)
      requires Valid(Model()) && i < |pendingContentTable|
      modifies this, node
      ensures Model() == Visit(old(Model()), i, d, cs)
    {
      var e := pendingContentTable[i];
      if d !in e.pending { return; }
      if exists j :: 0 <= j < |d| && d[j].Generic? && "Function" <= d[j].uri {
        assert MentionsFunction(d);
        var enabled := node.EnableFunction(Dragged(d));
        if !enabled {
          DeletePendingContentTableEntry(e);
          return;
        }
      }
      if e.pending[d] { return; }
      e := e.(pending := e.pending[d := true]);
      pendingContentTable := pendingContentTable[i := e];
      var executable := forall n :: n in e.pending ==> e.pending[n];
      if executable { ResolveAndHandleDecisions(e, cs); }
    }

    method OnData(d: Name, cs: set<Name>)
      requires Valid(Model())
      modifies this, node
      ensures Model() == ReceiveData(old(Model()), d, cs)
    {
      hide Sweep, Visit;
      if !active { return; }
      sendingInterestList := sendingInterestList - {d};
      history := history.(received := history.received + multiset{d});
      ghost var s0, s := Model(), Model();
      var i: nat := |pendingContentTable|;
      while i > 0
        invariant s == Model() && Valid(s) && i <= |s.table|
        invariant Sweep(s, i, d, cs) == Sweep(s0, |s0.table|, d, cs)
      {
        SweepStep(s, i, d, cs);
        i := i - 1;
        DeliverTo(i, d, cs);
        s := Visit(s, i, d, cs);
      }
      SweepStep(s, 0, d, cs);
    }

    method ScheduledExecutionEnd(k: nat)
      requires Valid(Model()) && k < |running|
      modifies this, node
      ensures Model() == Complete(old(Model()), k)
    {
      var x := running[k];
      running := running[..k] + running[k + 1..];
      ReleaseResource(x.func);
      outbox := outbox + [DataPacket(x.data)];
      if node.queueFill != 0 {
        var e := waitingList[0];
        var fits := CheckResource(e.func);
        if fits {
          var _ := node.DecrementQueueFill();
          waitingList := waitingList[1..];
          history := history.(dequeued := history.dequeued + [e]);
          DoExecution(e);
        }
      }
    }
  }
}
