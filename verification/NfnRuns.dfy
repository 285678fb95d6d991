/** All runs of the compute application: resources and requests are conserved, the queue is
    first-in first-out, no queued work is stranded, and completions drain the node. */
module NfnRuns {
  import opened Names
  import opened ComputeNodes
  import opened ResolutionEngine
  import opened NfnProducer

  datatype Event =
    | InterestArrives(name: Name, cs: set<Name>)
    | DataArrives(data: Name, cs: set<Name>)
    | ExecutionEnds(k: nat)
    | SwitchOn(func: Component)
    | SwitchOff(func: Component)
    | Stop

  ghost predicate CanHappen(s: State, ev: Event) {
    match ev
    case InterestArrives(n, _) => Acceptable(s.node.functions, n)
    case ExecutionEnds(k) => k < |s.running|
    case _ => true
  }

  /** The orchestrator's Enable and Disable commands act on the node behind the application. */
  ghost function Step(s: State, ev: Event): State
    requires Valid(s) && CanHappen(s, ev)
  {
    match ev
    case InterestArrives(n, cs) => ReceiveInterest(s, n, cs)
    case DataArrives(d, cs) => ReceiveData(s, d, cs)
    case ExecutionEnds(k) => Complete(s, k)
    case SwitchOn(c) => s.(node := s.node.Enable(c).Readmit(c))
    case SwitchOff(c) => s.(node := s.node.Disable(c).Exclude(c))
    case Stop => s.(active := false)
  }

  lemma StepKeepsValid(s: State, ev: Event)
    requires Valid(s) && CanHappen(s, ev)
    ensures Valid(Step(s, ev)) && SameHardware(s.node, Step(s, ev).node)
  {
    match ev
    case InterestArrives(n, cs) =>
      FirstIsLast(s.node.functions, n);
      ResolveKeepsValid(s, EntryFor(n), cs);
    case DataArrives(d, cs) =>
      if s.active { SweepKeepsHardware(Delivered(s, d), |s.table|, d, cs); }
    case ExecutionEnds(k) =>
      CompleteKeepsValid(s, k);
    case SwitchOn(c) =>
    case SwitchOff(c) =>
    case Stop =>
  }

  lemma CompleteKeepsValid(s: State, k: nat)
    requires Valid(s) && k < |s.running|
    ensures Valid(Complete(s, k)) && SameHardware(s.node, Complete(s, k).node)
  {
    var s1 := Released(s, k);
    assert Valid(s1);
    if s1.waiting != [] {
      var e := s1.waiting[0];
      var s2 := s1.(node := s1.node.Dequeued(), waiting := s1.waiting[1..],
                    history := s1.history.(dequeued := s1.history.dequeued + [e]));
      assert Valid(s2);
      if s1.node.Fits(s1.node.functions[e.func]) { ExecuteKeepsValid(s2, e); }
    }
  }

  lemma {:induction false} SweepKeepsHardware(s: State, i: nat, d: Name, cs: set<Name>)
    requires Valid(s) && i <= |s.table|
    ensures SameHardware(s.node, Sweep(s, i, d, cs).node)
    decreases i
  {
    if i > 0 {
      VisitKeepsValid(s, i - 1, d, cs);
      SweepKeepsHardware(Visit(s, i - 1, d, cs), i - 1, d, cs);
    }
  }

  ghost predicate Possible(s: State, evs: seq<Event>)
    requires Valid(s)
    decreases |evs|
  {
    evs == [] ||
    (CanHappen(s, evs[0]) && (StepKeepsValid(s, evs[0]); Possible(Step(s, evs[0]), evs[1..])))
  }

  ghost function Run(s: State, evs: seq<Event>): State
    requires Valid(s) && Possible(s, evs)
    decreases |evs|
  {
    if evs == [] then s
    else
      StepKeepsValid(s, evs[0]);
      Run(Step(s, evs[0]), evs[1..])
  }

  lemma {:induction false} RunThenStep(s: State, evs: seq<Event>, ev: Event)
    requires Valid(s) && Possible(s, evs) && CanHappen(Run(s, evs), ev) && Valid(Run(s, evs))
    ensures Possible(s, evs + [ev]) && Run(s, evs + [ev]) == Step(Run(s, evs), ev)
    decreases |evs|
  {
    StepKeepsValid(Run(s, evs), ev);
    if evs == [] {
      assert evs + [ev] == [ev] && [ev][1..] == [];
    } else {
      StepKeepsValid(s, evs[0]);
      assert (evs + [ev])[1..] == evs[1..] + [ev];
      RunThenStep(Step(s, evs[0]), evs[1..], ev);
    }
  }

  // ---- Sums over the executions in flight ----

  ghost function Total(xs: seq<Execution>, w: Execution -> nat): nat {
    if xs == [] then 0 else w(xs[0]) + Total(xs[1..], w)
  }

  lemma {:induction false} TotalAppend(xs: seq<Execution>, x: Execution, w: Execution -> nat)
    ensures Total(xs + [x], w) == Total(xs, w) + w(x)
  {
    if xs != [] {
      TotalAppend(xs[1..], x, w);
      assert (xs + [x])[1..] == xs[1..] + [x];
    } else {
      assert xs + [x] == [x];
    }
  }

  lemma {:induction false} TotalRemove(xs: seq<Execution>, k: nat, w: Execution -> nat)
    requires k < |xs|
    ensures Total(xs, w) == Total(xs[..k] + xs[k + 1..], w) + w(xs[k])
  {
    if k > 0 {
      TotalRemove(xs[1..], k - 1, w);
      assert (xs[..k] + xs[k + 1..])[1..] == xs[1..][..k - 1] + xs[1..][k..];
    } else {
      assert xs[..k] + xs[k + 1..] == xs[1..];
    }
  }

  lemma {:induction false} TotalSame(xs: seq<Execution>, w: Execution -> nat, w': Execution -> nat)
    requires forall i :: 0 <= i < |xs| ==> w(xs[i]) == w'(xs[i])
    ensures Total(xs, w) == Total(xs, w')
  {
    if xs != [] { TotalSame(xs[1..], w, w'); }
  }

  ghost function RamOf(m: map<Component, Function>): Execution -> nat {
    (x: Execution) => if x.func in m then m[x.func].ram else 0
  }

  ghost function CoresOf(m: map<Component, Function>): Execution -> nat {
    (x: Execution) => if x.func in m then m[x.func].cpu else 0
  }

  ghost function IsFor(n: Name): Execution -> nat {
    (x: Execution) => if x.data == n then 1 else 0
  }

  // ---- The invariant ----

  datatype Capacity = Capacity(ram: nat, cores: nat)

  ghost predicate AllFit(m: map<Component, Function>, cap: Capacity) {
    forall c :: c in m ==> m[c].ram <= cap.ram && m[c].cpu <= cap.cores
  }

  ghost predicate NotStranded(s: State) {
    s.waiting != [] ==> s.running != []
  }

  /** Free plus booked resources are the capacity. */
  ghost predicate Conserves(s: State, cap: Capacity) {
    && s.node.ram + Total(s.running, RamOf(s.node.functions)) == cap.ram < U32
    && s.node.cores + Total(s.running, CoresOf(s.node.functions)) == cap.cores < U32
  }

  /** Every started execution is either still in flight or answered by one Data packet. */
  ghost predicate AnswersOnce(s: State) {
    forall n :: s.history.started[n] ==
                multiset(s.outbox)[DataPacket(n)] + Total(s.running, IsFor(n))
  }

  /** Fetch interests for a name run ahead of the Data for it by at most one, and only while the
      name is on the list of names asked for; for each name on the list one has been sent. */
  ghost predicate FetchesOnce(s: State) {
    forall n ::
      && multiset(s.outbox)[FetchInterest(n)] <= s.history.received[n] + (if n in s.sending then 1 else 0)
      && (n in s.sending ==> multiset(s.outbox)[FetchInterest(n)] > 0)
  }

  ghost predicate Inv(s: State, cap: Capacity) {
    && Valid(s)
    && Conserves(s, cap)
    && s.history.queued == s.history.dequeued + s.waiting
    && AnswersOnce(s)
    && FetchesOnce(s)
    && (AllFit(s.node.functions, cap) ==> NotStranded(s))
  }

  ghost predicate Initial(s: State, cap: Capacity) {
    && s.active && s.table == [] && s.sending == {} && s.waiting == [] && s.running == [] && s.outbox == []
    && s.history == History(multiset{}, [], [], multiset{})
    && s.node.ram == cap.ram && s.node.cores == cap.cores && s.node.queueFill == 0 && s.node.excluded == []
    && FUNCTION !in s.node.functions
  }

  /** Switching functions and counting leave everything the invariant speaks of alone. */
  lemma NodeChangeKeepsInv(s: State, s': State, cap: Capacity)
    requires Inv(s, cap) && Valid(s')
    requires SameHardware(s.node, s'.node)
    requires s'.node.ram == s.node.ram && s'.node.cores == s.node.cores
    requires s'.waiting == s.waiting && s'.running == s.running && s'.history == s.history
    requires s'.sending == s.sending
    requires forall n :: multiset(s'.outbox)[FetchInterest(n)] == multiset(s.outbox)[FetchInterest(n)]
                      && multiset(s'.outbox)[DataPacket(n)] == multiset(s.outbox)[DataPacket(n)]
    ensures Inv(s', cap)
  {
    TotalSame(s.running, RamOf(s.node.functions), RamOf(s'.node.functions));
    TotalSame(s.running, CoresOf(s.node.functions), CoresOf(s'.node.functions));
  }

  lemma ExecuteKeepsInv(s: State, e: Entry, cap: Capacity)
    requires Valid(s) && Conserves(s, cap) && AnswersOnce(s) && FetchesOnce(s)
    requires s.history.queued == s.history.dequeued + s.waiting
    requires Known(s.node.functions, e) && s.node.Fits(s.node.functions[e.func])
    ensures Inv(Execute(s, e), cap)
    ensures Execute(s, e).node.ram == s.node.ram - s.node.functions[e.func].ram
    ensures Execute(s, e).node.cores == s.node.cores - s.node.functions[e.func].cpu
  {
    var r := Execute(s, e);
    var x := Execution(e.interest, e.func);
    ExecuteKeepsValid(s, e);
    TotalAppend(s.running, x, RamOf(s.node.functions));
    TotalAppend(s.running, x, CoresOf(s.node.functions));
    TotalSame(r.running, RamOf(s.node.functions), RamOf(r.node.functions));
    TotalSame(r.running, CoresOf(s.node.functions), CoresOf(r.node.functions));
    forall n ensures r.history.started[n] == multiset(r.outbox)[DataPacket(n)] + Total(r.running, IsFor(n)) {
      TotalAppend(s.running, x, IsFor(n));
    }
  }

  lemma {:induction false} RequestAllKeepsInv(s: State, names: seq<Name>, cap: Capacity)
    requires Inv(s, cap)
    ensures Inv(RequestAll(s, names), cap)
    decreases |names|
  {
    if names != [] {
      var s1 := Request(s, names[0]);
      assert Inv(s1, cap);
      RequestAllKeepsInv(s1, names[1..], cap);
    }
  }

  lemma ResolveKeepsInv(s: State, e: Entry, cs: set<Name>, cap: Capacity)
    requires Inv(s, cap) && Known(s.node.functions, e)
    ensures Inv(Resolve(s, e, cs), cap)
  {
    var s1 := s.(node := AfterDecide(s.node, e.interest, cs));
    ResolveKeepsValid(s, e, cs);
    NodeChangeKeepsInv(s, s1, cap);
    match Outcome(s.node, e, cs)
    case NACK => NodeChangeKeepsInv(s1, s1.Send(NackPacket(e.interest)), cap);
    case FORWARD => NodeChangeKeepsInv(s1, s1.Send(ForwardedInterest(e.interest)), cap);
    case FETCH => FetchKeepsInv(s, s1, e, cs, cap);
    case EXECUTE => AdmitKeepsInv(s1, e, cap);
  }

  lemma FetchKeepsInv(s: State, s1: State, e: Entry, cs: set<Name>, cap: Capacity)
    requires Valid(s) && Inv(s1, cap) && Known(s.node.functions, e) && Outcome(s.node, e, cs) == FETCH
    requires s1 == s.(node := AfterDecide(s.node, e.interest, cs)) && Valid(Resolve(s, e, cs))
    ensures Inv(Resolve(s, e, cs), cap)
  {
    var wanted := Decide(s.node, e.interest, cs).1;
    RequestAllKeepsInv(s1, wanted, cap);
    NodeChangeKeepsInv(RequestAll(s1, wanted), Resolve(s, e, cs), cap);
  }

  lemma AdmitKeepsInv(s: State, e: Entry, cap: Capacity)
    requires Inv(s, cap) && Known(s.node.functions, e)
    ensures Inv(Admit(s, e), cap)
  {
    if s.node.Fits(s.node.functions[e.func]) {
      ExecuteKeepsInv(s, e, cap);
    } else if s.node.queueFill != s.node.queueSize {
      EnqueueKeepsInv(s, e, cap);
    } else {
      NodeChangeKeepsInv(s, Admit(s, e), cap);
    }
  }

  /** Only a function that does not fit what is free now is queued: with nothing in flight
      everything that fits the capacity fits. */
  lemma EnqueueKeepsInv(s: State, e: Entry, cap: Capacity)
    requires Inv(s, cap) && Known(s.node.functions, e)
    requires !s.node.Fits(s.node.functions[e.func]) && s.node.queueFill != s.node.queueSize
    ensures Inv(Enqueue(s, e), cap)
  {
    var r := Enqueue(s, e);
    assert r.history.queued == r.history.dequeued + r.waiting;
    if AllFit(s.node.functions, cap) && s.running == [] {
      assert s.node.Fits(s.node.functions[e.func]);
    }
  }

  lemma VisitKeepsInv(s: State, i: nat, d: Name, cs: set<Name>, cap: Capacity)
    requires Inv(s, cap) && i < |s.table|
    ensures Inv(Visit(s, i, d, cs), cap)
  {
    var e := s.table[i];
    VisitKeepsValid(s, i, d, cs);
    if d in e.pending && !Aborts(s, d) && !e.pending[d] {
      var m := Marked(s, i, d);
      MarkKeepsValid(s, i, d);
      NodeChangeKeepsInv(s, m, cap);
      if AllArrived(m.table[i].pending) { ResolveKeepsInv(m, m.table[i], cs, cap); }
    } else {
      NodeChangeKeepsInv(s, Visit(s, i, d, cs), cap);
    }
  }

  ghost predicate Sweeping(s: State, i: nat, cap: Capacity) {
    Inv(s, cap) && i <= |s.table|
  }

  lemma VisitKeepsSweeping(s: State, i: nat, d: Name, cs: set<Name>, cap: Capacity)
    requires i > 0 && Sweeping(s, i, cap)
    ensures Sweeping(Visit(s, i - 1, d, cs), i - 1, cap)
  {
    hide Visit, Known;
    VisitKeepsValid(s, i - 1, d, cs);
    VisitKeepsInv(s, i - 1, d, cs, cap);
  }

  lemma {:induction false} SweepKeepsInv(s: State, i: nat, d: Name, cs: set<Name>, cap: Capacity)
    requires Sweeping(s, i, cap)
    ensures Sweeping(Sweep(s, i, d, cs), 0, cap)
    decreases i
  {
    if i > 0 {
      VisitKeepsSweeping(s, i, d, cs, cap);
      SweepKeepsInv(Visit(s, i - 1, d, cs), i - 1, d, cs, cap);
    }
  }

  lemma ReleasedConserves(s: State, k: nat, cap: Capacity)
    requires Inv(s, cap) && k < |s.running|
    ensures var s1 := Released(s, k);
      && Valid(s1) && Conserves(s1, cap) && AnswersOnce(s1) && FetchesOnce(s1)
      && s1.node.functions == s.node.functions
  {
    var s1 := Released(s, k);
    TotalRemove(s.running, k, RamOf(s.node.functions));
    TotalRemove(s.running, k, CoresOf(s.node.functions));
    forall n ensures s1.history.started[n] == multiset(s1.outbox)[DataPacket(n)] + Total(s1.running, IsFor(n)) {
      TotalRemove(s.running, k, IsFor(n));
    }
  }

  lemma StartHeadKeepsInv(s: State, cap: Capacity)
    requires Valid(s) && Conserves(s, cap) && AnswersOnce(s) && FetchesOnce(s)
    requires s.history.queued == s.history.dequeued + s.waiting && s.waiting != []
    requires s.node.Fits(s.node.functions[s.waiting[0].func])
    ensures Inv(StartHead(s), cap)
  {
    var e := s.waiting[0];
    var s2 := s.(node := s.node.Dequeued(), waiting := s.waiting[1..],
                 history := s.history.(dequeued := s.history.dequeued + [e]));
    assert s2.history.queued == s2.history.dequeued + s2.waiting;
    ExecuteKeepsInv(s2, e, cap);
  }

  lemma CompleteKeepsInv(s: State, k: nat, cap: Capacity)
    requires Inv(s, cap) && k < |s.running|
    ensures Inv(Complete(s, k), cap)
  {
    var s1 := Released(s, k);
    ReleasedConserves(s, k, cap);
    if s1.waiting != [] && s1.node.Fits(s1.node.functions[s1.waiting[0].func]) {
      StartHeadKeepsInv(s1, cap);
      assert Complete(s, k) == StartHead(s1);
    } else {
      assert Complete(s, k) == s1;
    }
  }

  lemma StepKeepsInv(s: State, ev: Event, cap: Capacity)
    requires Inv(s, cap) && CanHappen(s, ev)
    ensures Inv(Step(s, ev), cap)
  {
    StepKeepsValid(s, ev);
    match ev
    case InterestArrives(n, cs) =>
      FirstIsLast(s.node.functions, n);
      ResolveKeepsInv(s, EntryFor(n), cs, cap);
    case DataArrives(d, cs) =>
      if s.active {
        assert Inv(Delivered(s, d), cap);
        SweepKeepsInv(Delivered(s, d), |s.table|, d, cs, cap);
      }
    case ExecutionEnds(k) => CompleteKeepsInv(s, k, cap);
    case _ => NodeChangeKeepsInv(s, Step(s, ev), cap);
  }

  lemma {:induction false} RunKeepsInv(s: State, evs: seq<Event>, cap: Capacity)
    requires Inv(s, cap) && Possible(s, evs)
    ensures Inv(Run(s, evs), cap)
    decreases |evs|
  {
    if evs != [] {
      StepKeepsInv(s, evs[0], cap);
      RunKeepsInv(Step(s, evs[0]), evs[1..], cap);
    }
  }

  // ---- Main results over all runs ----

  /** From power-on, over every run: resources are conserved, the queue is first-in first-out,
      every start is answered once, fetches are not repeated, and nothing is stranded. */
  lemma EveryRunKeepsInv(s: State, evs: seq<Event>, cap: Capacity)
    requires Valid(s) && Initial(s, cap) && cap.ram < U32 && cap.cores < U32 && Possible(s, evs)
    ensures Inv(Run(s, evs), cap)
    ensures SameHardware(s.node, Run(s, evs).node)
  {
    assert Inv(s, cap);
    RunKeepsInv(s, evs, cap);
    RunKeepsHardware(s, evs);
  }

  lemma {:induction false} RunKeepsHardware(s: State, evs: seq<Event>)
    requires Valid(s) && Possible(s, evs)
    ensures SameHardware(s.node, Run(s, evs).node)
    decreases |evs|
  {
    if evs != [] {
      StepKeepsValid(s, evs[0]);
      RunKeepsHardware(Step(s, evs[0]), evs[1..]);
    }
  }

  /** Work is never stranded, in any run, exactly when nothing can be queued at all or every
      installed function fits the capacity of the node. */
  lemma StrandedExactlyIfTooBig(s: State, cap: Capacity)
    requires Valid(s) && Initial(s, cap) && cap.ram < U32 && cap.cores < U32
    ensures (forall evs :: Possible(s, evs) ==> NotStranded(Run(s, evs)))
            <==> s.node.queueSize == 0 || AllFit(s.node.functions, cap)
  {
    if s.node.queueSize == 0 || AllFit(s.node.functions, cap) {
      forall evs | Possible(s, evs) ensures NotStranded(Run(s, evs)) {
        EveryRunKeepsInv(s, evs, cap);
      }
    } else {
      var c :| c in s.node.functions && !(s.node.functions[c].ram <= cap.ram && s.node.functions[c].cpu <= cap.cores);
      var evs := TooBigStrands(s, c, cap);
      assert Possible(s, evs) && !NotStranded(Run(s, evs));
    }
  }

  lemma RequestIsAcceptable(functions: map<Component, Function>, f: Component, args: seq<Component>)
    requires f in functions && f != FUNCTION && forall a :: a in args ==> Plain(a)
    ensures Acceptable(functions, RequestName(f, args))
    ensures EntryFor(RequestName(f, args)) == Entry(RequestName(f, args), f, map[])
  {
    var n := RequestName(f, args);
    assert forall j :: 0 <= j < |args| ==> args[j] in args && n[4 + j] == args[j];
    assert forall j :: 4 <= j < |n| ==> n[j] == args[j - 4];
    assert NamesFunctionAt(functions, n, 1);
    FirstIsLast(functions, n);
    FirstFrom(functions, n, 1, 0);
  }

  /** A function larger than the node: enabling it and asking for it once, with every argument
      cached, leaves the request waiting with nothing in flight. */
  lemma TooBigStrands(s: State, c: Component, cap: Capacity) returns (evs: seq<Event>)
    requires Valid(s) && Initial(s, cap) && s.node.queueSize > 0 && c in s.node.functions
    requires !(s.node.functions[c].ram <= cap.ram && s.node.functions[c].cpu <= cap.cores)
    ensures Possible(s, evs) && !NotStranded(Run(s, evs))
  {
    var p := s.node.functions[c].paramNumber;
    var n := RequestName(c, seq(p, _ => Generic("x")));
    var cs := {[DATA, Generic("x")]};
    var s1 := Step(s, SwitchOn(c));
    assert n + [] == n;
    RequestArguments(c, seq(p, _ => Generic("x")), []);
    RequestIsAcceptable(s1.node.functions, c, seq(p, _ => Generic("x")));
    DecisionIsSound(s1.node, n, cs);
    var s2 := Step(s1, InterestArrives(n, cs));
    assert s2 == Enqueue(s1, EntryFor(n));
    StepKeepsValid(s, SwitchOn(c));
    StepKeepsValid(s1, InterestArrives(n, cs));
    var ev2 := [InterestArrives(n, cs)];
    assert Possible(s2, ev2[1..]) && Run(s2, ev2[1..]) == s2;
    assert Possible(s1, ev2) && Run(s1, ev2) == s2;
    evs := [SwitchOn(c)] + ev2;
    assert evs[1..] == ev2;
  }

  /** The executions that start when these entries do. */
  ghost function Executions(es: seq<Entry>): seq<Execution> {
    seq(|es|, i requires 0 <= i < |es| => Execution(es[i].interest, es[i].func))
  }

  ghost function Interests(es: seq<Entry>): multiset<Name> {
    multiset(seq(|es|, i requires 0 <= i < |es| => es[i].interest))
  }

  lemma InterestsAdd(a: seq<Entry>, b: seq<Entry>)
    ensures Interests(a + b) == Interests(a) + Interests(b) && Executions(a + b) == Executions(a) + Executions(b)
  {
    var f := (es: seq<Entry>) => seq(|es|, i requires 0 <= i < |es| => es[i].interest);
    assert f(a + b) == f(a) + f(b);
    assert Executions(a + b) == Executions(a) + Executions(b);
  }

  /** r is s after n completions: n fewer items in flight or waiting, and the queue has lost its
      front part, in order; these entries and no others have started. */
  ghost predicate DrainedBy(s: State, r: State, n: nat) {
    && |r.running| + |r.waiting| + n == |s.running| + |s.waiting|
    && |r.waiting| <= |s.waiting|
    && var k := |s.waiting| - |r.waiting|;
       && r.waiting == s.waiting[k..] && r.history.dequeued == s.history.dequeued + s.waiting[..k]
       && r.history.started == s.history.started + Interests(s.waiting[..k])
  }

  lemma DrainedByAdds(s: State, s1: State, r: State, m: nat, n: nat)
    requires DrainedBy(s, s1, m) && DrainedBy(s1, r, n)
    ensures DrainedBy(s, r, m + n)
  {
    hide Interests, Executions;
    var k1, k2 := |s.waiting| - |s1.waiting|, |s1.waiting| - |r.waiting|;
    InterestsAdd(s.waiting[..k1], s1.waiting[..k2]);
    assert s.waiting[..k1 + k2] == s.waiting[..k1] + s1.waiting[..k2];
    assert s.waiting[k1 + k2..] == s1.waiting[k2..];
  }

  lemma CompletionDrainsOne(s: State, ev: Event)
    requires Valid(s) && CanHappen(s, ev) && ev.ExecutionEnds?
    ensures DrainedBy(s, Step(s, ev), 1)
  {
    CompleteInFields(s, ev.k);
    var r := Complete(s, ev.k);
    if r.waiting == s.waiting {
      assert s.waiting[..0] == [];
      NothingStarts();
    } else {
      assert s.waiting[..1] == [s.waiting[0]];
      OneStarts(s.waiting[0]);
    }
  }

  lemma NothingStarts()
    ensures Interests([]) == multiset{} && Executions([]) == []
  {
  }

  lemma OneStarts(e: Entry)
    ensures Interests([e]) == multiset{e.interest} && Executions([e]) == [Execution(e.interest, e.func)]
  {
    assert seq(|[e]|, i requires 0 <= i < |[e]| => [e][i].interest) == [e.interest];
  }

  /** A completion in terms of the fields: the k-th execution leaves, its Data is sent and its
      resources are free; then the head of the waiting list, if there is one and it fits, leaves the
      list, starts, and takes its resources; no other entry does. */
  lemma CompleteInFields(s: State, k: nat)
    requires Valid(s) && k < |s.running|
    ensures var r, x := Complete(s, k), s.running[k];
      var done := s.node.functions[x.func];
      var freeRam, freeCores := (s.node.ram + done.ram) % 0x1_0000_0000, (s.node.cores + done.cpu) % 0x1_0000_0000;
      var rest := s.running[..k] + s.running[k + 1..];
      && r.outbox == s.outbox + [DataPacket(x.data)] && r.sending == s.sending && r.active == s.active
      && if s.waiting != [] && s.node.functions[s.waiting[0].func].ram <= freeRam
            && s.node.functions[s.waiting[0].func].cpu <= freeCores then
           var w := s.waiting[0];
           && r.waiting == s.waiting[1..] && r.running == rest + [Execution(w.interest, w.func)]
           && r.history == s.history.(dequeued := s.history.dequeued + [w], started := s.history.started + multiset{w.interest})
           && r.table == DeleteEntry(s.table, w.interest)
           && var f := s.node.functions[w.func];
              r.node == s.node.(ram := freeRam - f.ram, cores := freeCores - f.cpu, queueFill := s.node.queueFill - 1,
                functions := s.node.functions[w.func := f.(execCounter := (f.execCounter + 1) % 0x1_0000_0000)])
         else
           && r.waiting == s.waiting && r.running == rest && r.history == s.history && r.table == s.table
           && r.node == s.node.(ram := freeRam, cores := freeCores)
  {
  }

  /** The executions that these completions start, in order: what each of them appends. */
  ghost function StartedBy(s: State, evs: seq<Event>): seq<Execution>
    requires Valid(s) && Possible(s, evs)
    decreases |evs|
  {
    if evs == [] then []
    else
      StepKeepsValid(s, evs[0]);
      var r := Step(s, evs[0]);
      (if |r.running| < |s.running| || r.running == [] then [] else [r.running[|r.running| - 1]]) + StartedBy(r, evs[1..])
  }

  /** Completions start exactly the entries that leave the waiting list, in their order. */
  lemma {:induction false} CompletionsStartTheQueue(s: State, evs: seq<Event>)
    requires Valid(s) && Possible(s, evs) && OnlyCompletions(evs)
    ensures var r := Run(s, evs);
      |r.waiting| <= |s.waiting| && StartedBy(s, evs) == Executions(s.waiting[..|s.waiting| - |r.waiting|])
    decreases |evs|
  {
    hide Complete, Step, CanHappen, Executions, Interests;
    if evs == [] {
      assert s.waiting[..0] == [];
      NothingStarts();
    } else {
      var ev, rest := evs[0], evs[1..];
      StepKeepsValid(s, ev);
      var s1 := Step(s, ev);
      CompletionStartsHead(s, ev);
      CompletionsStartTheQueue(s1, rest);
      var r := Run(s1, rest);
      var k := |s1.waiting| - |r.waiting|;
      if s1.waiting != s.waiting {
        InterestsAdd([s.waiting[0]], s1.waiting[..k]);
        OneStarts(s.waiting[0]);
        assert s.waiting[..k + 1] == [s.waiting[0]] + s1.waiting[..k];
      }
    }
  }

  lemma CompletionStartsHead(s: State, ev: Event)
    requires Valid(s) && CanHappen(s, ev) && ev.ExecutionEnds?
    ensures var r := Step(s, ev);
      if r.waiting == s.waiting then |r.running| < |s.running|
      else
        && s.waiting != [] && r.waiting == s.waiting[1..] && |r.running| == |s.running| > 0
        && r.running[|r.running| - 1] == Execution(s.waiting[0].interest, s.waiting[0].func)
  {
    CompleteInFields(s, ev.k);
  }

  ghost predicate OnlyCompletions(evs: seq<Event>) {
    forall i :: 0 <= i < |evs| ==> evs[i].ExecutionEnds?
  }

  lemma DrainedByNothing(s: State)
    ensures DrainedBy(s, s, 0)
  {
  }

  lemma {:induction false} CompletionsDrainAll(s: State, evs: seq<Event>)
    requires Valid(s) && Possible(s, evs) && OnlyCompletions(evs)
    ensures DrainedBy(s, Run(s, evs), |evs|)
    decreases |evs|
  {
    if evs == [] {
      DrainedByNothing(s);
    } else {
      var ev, rest := evs[0], evs[1..];
      StepKeepsValid(s, ev);
      CompletionDrainsOne(s, ev);
      CompletionsDrainAll(Step(s, ev), rest);
      DrainedByAdds(s, Step(s, ev), Run(Step(s, ev), rest), 1, |rest|);
    }
  }

  /** With no further arrivals, every sequence of completions takes one item off
      `running + waiting` each time and can go on until both are empty; the waiting entries start
      in the order they were queued, and in the end all resources are free. */
  lemma NodeDrains(s: State, evs: seq<Event>, cap: Capacity)
    requires Inv(s, cap) && AllFit(s.node.functions, cap) && Possible(s, evs)
    requires OnlyCompletions(evs)
    ensures var r := Run(s, evs);
      && DrainedBy(s, r, |evs|)
      && (|evs| < |s.running| + |s.waiting| ==> r.running != [])
      && (|evs| == |s.running| + |s.waiting| ==>
            r.running == [] && r.waiting == [] && r.node.ram == cap.ram && r.node.cores == cap.cores)
  {
    CompletionsDrainAll(s, evs);
    RunKeepsInv(s, evs, cap);
    RunKeepsHardware(s, evs);
  }
}
