/** Wake-ups: each name that some entry waits for stays on the list of names asked for, in every
    run exactly when no function can fetch twice. */
module NfnWakeUps {
  import opened Names
  import opened ComputeNodes
  import opened ResolutionEngine
  import opened NfnProducer
  import opened NfnRuns
  import opened NfnSweep

  /** Every name an entry waits for has been asked for and has not arrived. */
  ghost predicate Awaited(s: State, exempt: set<Name>) {
    forall k, n :: 0 <= k < |s.table| && n !in exempt && Pending(s.table[k], n) ==> n in s.sending
  }

  /** The part of the sweep's invariant that speaks of table and asked-for names. */
  ghost predicate OnTrack(s: State, from: nat, d: Name, cs: set<Name>, node: NodeState) {
    && Tame(s.table, node, d, cs) && Awaited(s, {d})
    && (d in s.sending || Cleared(s.table, from, d))
  }

  lemma MarkKeepsOnTrack(s: State, i: nat, d: Name, cs: set<Name>, node: NodeState)
    requires i < |s.table| && Pending(s.table[i], d) && OnTrack(s, i + 1, d, cs, node)
    ensures OnTrack(Marked(s, i, d), i, d, cs, node)
  {
  }

  lemma DeleteKeepsOnTrack(s: State, i: nat, d: Name, cs: set<Name>, node: NodeState)
    requires i < |s.table| && OnTrack(s, i + 1, d, cs, node)
    ensures OnTrack(s.(table := DeleteEntry(s.table, s.table[i].interest)), i, d, cs, node)
  {
    DeleteKeepsSuffix(s.table, i, s.table[i].interest);
  }

  lemma FetchKeepsOnTrack(m: State, i: nat, d: Name, cs: set<Name>, node: NodeState, r: State)
    requires Valid(m) && i < |m.table| && OnTrack(m, i, d, cs, node) && SameSwitches(m.node, node)
    requires Refetches(m.node, m.table[i], cs) && r == Resolve(m, m.table[i], cs)
    requires Rewakes(node, m.table[i], d, cs)
    ensures OnTrack(r, i, d, cs, node)
  {
    var e := m.table[i];
    var wanted := Decide(m.node, e.interest, cs).1;
    ResolveEffect(m, e, cs);
    AwaitEffect(e, wanted);
    SwitchesDecide(m.node, node, e, Await(e, wanted), cs);
  }

  lemma VisitKeepsAwaited(s: State, i: nat, d: Name, cs: set<Name>, node: NodeState)
    requires Valid(s) && i < |s.table| && SameSwitches(Switched(s.node, d), node)
    requires OnTrack(s, i + 1, d, cs, node)
    ensures OnTrack(Visit(s, i, d, cs), i, d, cs, node)
  {
    var e := s.table[i];
    VisitCases(s, i, d, cs);
    if d in e.pending && Aborts(s, d) {
      DeleteKeepsOnTrack(s, i, d, cs, node);
    } else if Pending(e, d) {
      MarkKeepsOnTrack(s, i, d, cs, node);
      if IsLast(e, d) {
        var m := Marked(s, i, d);
        assert Valid(m);
        ResolveEffect(m, m.table[i], cs);
        SwitchesDecide(m.node, node, m.table[i], e, cs);
        if Refetches(m.node, m.table[i], cs) {
          FetchKeepsOnTrack(m, i, d, cs, node, Visit(s, i, d, cs));
        } else {
          assert OnTrack(m, i + 1, d, cs, node);
          DeleteKeepsOnTrack(m, i, d, cs, node);
        }
      }
    }
  }

  ghost predicate Tracking(s: State, i: nat, d: Name, cs: set<Name>, node: NodeState) {
    Valid(s) && i <= |s.table| && SameSwitches(Switched(s.node, d), node) && OnTrack(s, i, d, cs, node)
  }

  lemma VisitKeepsTracking(s: State, i: nat, d: Name, cs: set<Name>, node: NodeState)
    requires i > 0 && Tracking(s, i, d, cs, node)
    ensures Tracking(Visit(s, i - 1, d, cs), i - 1, d, cs, node)
  {
    hide Visit, Known;
    VisitKeepsValid(s, i - 1, d, cs);
    VisitKeepsSwitches(s, i - 1, d, cs, node);
    VisitKeepsAwaited(s, i - 1, d, cs, node);
  }

  lemma {:induction false} SweepKeepsTracking(s: State, i: nat, d: Name, cs: set<Name>, node: NodeState)
    requires Tracking(s, i, d, cs, node)
    ensures Tracking(Sweep(s, i, d, cs), 0, d, cs, node)
    decreases i
  {
    if i > 0 {
      VisitKeepsTracking(s, i, d, cs, node);
      SweepKeepsTracking(Visit(s, i - 1, d, cs), i - 1, d, cs, node);
    }
  }

  lemma DataKeepsAwaited(s: State, d: Name, cs: set<Name>)
    requires Valid(s) && s.active && Awaited(s, {d}) && Tame(s.table, Switched(s.node, d), d, cs)
    ensures Awaited(ReceiveData(s, d, cs), {})
  {
    SweepKeepsTracking(Delivered(s, d), |s.table|, d, cs, Switched(s.node, d));
  }

  /** Data arrivals at which every entry answering FETCH asks for the arrived name again. */
  ghost predicate Considerate(s: State, ev: Event) {
    ev.DataArrives? && s.active ==> Tame(s.table, Switched(s.node, ev.data), ev.data, ev.cs)
  }

  ghost predicate ConsiderateRun(s: State, evs: seq<Event>)
    requires Valid(s) && Possible(s, evs)
    decreases |evs|
  {
    evs == [] ||
    (Considerate(s, evs[0]) && (StepKeepsValid(s, evs[0]); ConsiderateRun(Step(s, evs[0]), evs[1..])))
  }

  lemma InterestKeepsAwaited(s: State, n: Name, cs: set<Name>)
    requires Valid(s) && Acceptable(s.node.functions, n) && Awaited(s, {})
    ensures Awaited(ReceiveInterest(s, n, cs), {})
  {
    FirstIsLast(s.node.functions, n);
    var e := EntryFor(n);
    ResolveEffect(s, e, cs);
    AwaitEffect(e, Decide(s.node, n, cs).1);
  }

  lemma StepKeepsAwaited(s: State, ev: Event)
    requires Valid(s) && CanHappen(s, ev) && Awaited(s, {}) && Considerate(s, ev)
    ensures Awaited(Step(s, ev), {})
  {
    match ev
    case InterestArrives(n, cs) =>
      InterestKeepsAwaited(s, n, cs);
    case DataArrives(d, cs) =>
      if s.active { DataKeepsAwaited(s, d, cs); }
    case ExecutionEnds(k) =>
      CompletionKeepsAwaited(s, k);
    case _ =>
  }

  lemma CompletionKeepsAwaited(s: State, k: nat)
    requires Valid(s) && k < |s.running| && Awaited(s, {})
    ensures Awaited(Complete(s, k), {})
  {
    hide Known;
    if s.waiting != [] {
      var i := IndexOf(s.table, s.waiting[0].interest);
      if i < |s.table| { DeleteKeepsSuffix(s.table, i, s.waiting[0].interest); }
    }
  }

  /** Over every run whose data arrivals are considerate, each name some entry waits for is on the
      list of names asked for, so its arrival will be noticed. */
  lemma {:induction false} NoLostWakeUp(s: State, evs: seq<Event>)
    requires Valid(s) && Possible(s, evs) && Awaited(s, {}) && ConsiderateRun(s, evs)
    ensures Awaited(Run(s, evs), {})
    decreases |evs|
  {
    if evs != [] {
      StepKeepsValid(s, evs[0]);
      StepKeepsAwaited(s, evs[0]);
      NoLostWakeUp(Step(s, evs[0]), evs[1..]);
    }
  }

  // ---- When a nested FETCH forgets an entry ----

  /** A visit to a calm position asks for nothing and leaves the positions below calm. */
  lemma VisitKeepsCalmBelow(s: State, i: nat, d: Name, cs: set<Name>, node: NodeState)
    requires Valid(s) && i < |s.table| && SameSwitches(Switched(s.node, d), node)
    requires CalmBelow(s.table, i + 1, node, d, cs)
    ensures var r := Visit(s, i, d, cs);
      CalmBelow(r.table, i, node, d, cs) && r.sending == s.sending
  {
    hide IsLast, Refetches, Switched, SameSwitches, Aborts;
    var e := s.table[i];
    VisitCases(s, i, d, cs);
    LastIsPending(e, d);
    if d in e.pending && Aborts(s, d) {
      DeleteKeepsCalmBelow(s.table, i, node, d, cs);
    } else if Pending(e, d) {
      MarkedIsCalm(s, i, d, cs, node);
      var m := Marked(s, i, d);
      DeleteKeepsCalmBelow(m.table, i, node, d, cs);
      if IsLast(e, d) {
        assert Known(m.node.functions, m.table[i]);
        ResolveEffect(m, m.table[i], cs);
        MarkedDecides(s, i, d, cs, node);
      }
    }
  }

  lemma LastIsPending(e: Entry, d: Name)
    ensures IsLast(e, d) ==> Pending(e, d)
  {
  }

  lemma DeleteKeepsCalmBelow(table: seq<Entry>, i: nat, node: NodeState, d: Name, cs: set<Name>)
    requires i < |table| && CalmBelow(table, i + 1, node, d, cs)
    ensures CalmBelow(DeleteEntry(table, table[i].interest), i, node, d, cs)
  {
    hide IsLast, Refetches;
    DeleteKeepsSuffix(table, i, table[i].interest);
  }

  lemma MarkedIsCalm(s: State, i: nat, d: Name, cs: set<Name>, node: NodeState)
    requires Valid(s) && i < |s.table| && CalmBelow(s.table, i + 1, node, d, cs)
    ensures CalmBelow(Marked(s, i, d).table, i + 1, node, d, cs) && Known(Marked(s, i, d).node.functions, s.table[i])
  {
    hide Refetches;
  }

  lemma MarkedDecides(s: State, i: nat, d: Name, cs: set<Name>, node: NodeState)
    requires Valid(s) && i < |s.table| && SameSwitches(Switched(s.node, d), node)
    ensures var m := Marked(s, i, d); Refetches(m.node, m.table[i], cs) == Refetches(node, s.table[i], cs)
  {
    SwitchesDecide(Marked(s, i, d).node, node, Marked(s, i, d).table[i], s.table[i], cs);
  }

  ghost predicate Quiet(s: State, i: nat, d: Name, cs: set<Name>, node: NodeState, sending: set<Name>) {
    && Valid(s) && i <= |s.table| && SameSwitches(Switched(s.node, d), node)
    && CalmBelow(s.table, i, node, d, cs) && s.sending == sending
  }

  lemma {:induction false} QuietSweepAsksNothing(s: State, i: nat, d: Name, cs: set<Name>, node: NodeState, sending: set<Name>)
    requires Quiet(s, i, d, cs, node, sending)
    ensures Sweep(s, i, d, cs).sending == sending
    decreases i
  {
    hide Visit, Known;
    if i > 0 {
      VisitKeepsValid(s, i - 1, d, cs);
      VisitKeepsSwitches(s, i - 1, d, cs, node);
      VisitKeepsCalmBelow(s, i - 1, d, cs, node);
      QuietSweepAsksNothing(Visit(s, i - 1, d, cs), i - 1, d, cs, node, sending);
    }
  }

  /** The visit that answers FETCH without asking for d: an entry in front that does not wait for d. */
  lemma ForgetfulVisit(s: State, i: nat, d: Name, cs: set<Name>)
    requires Valid(s) && 0 < i < |s.table| && IsLast(s.table[i], d) && !Aborts(s, d) && d !in s.sending
    requires !Rewakes(Switched(s.node, d), s.table[i], d, cs)
    requires CalmBelow(s.table, i - 1, Switched(s.node, d), d, cs)
    ensures var r := Visit(s, i, d, cs);
      Quiet(r, i, d, cs, Switched(s.node, d), r.sending) && d !in r.sending
  {
    var m := Marked(s, i, d);
    var wanted := Decide(m.node, m.table[i].interest, cs).1;
    VisitCases(s, i, d, cs);
    ResolveEffect(m, m.table[i], cs);
    AwaitEffect(m.table[i], wanted);
    VisitKeepsValid(s, i, d, cs);
    VisitKeepsSwitches(s, i, d, cs, Switched(s.node, d));
    var r := Visit(s, i, d, cs);
    assert r.table[0] == Await(m.table[i], wanted);
    assert forall k :: 1 <= k < i ==> r.table[k] == s.table[k - 1];
  }

  /** An entry that answers FETCH without asking for d again strands the entry below it. */
  lemma FetchForgets(s: State, i: nat, d: Name, cs: set<Name>)
    requires Valid(s) && 0 < i < |s.table| && IsLast(s.table[i], d) && !Aborts(s, d) && d !in s.sending
    requires Pending(s.table[i - 1], d) && !Rewakes(Switched(s.node, d), s.table[i], d, cs)
    requires CalmBelow(s.table, i - 1, Switched(s.node, d), d, cs)
    ensures !Awaited(Sweep(s, i + 1, d, cs), {})
  {
    hide Visit, IsLast, CalmBelow, Switched, SameSwitches, Aborts;
    FetchSkipsNext(s, i, d, cs);
    ForgetfulVisit(s, i, d, cs);
    SweepStep(s, i + 1, d, cs);
    var s1 := Visit(s, i, d, cs);
    QuietSweepAsksNothing(s1, i, d, cs, Switched(s.node, d), s1.sending);
    var r := Sweep(s, i + 1, d, cs);
    var k :| 0 <= k < |r.table| && r.table[k] == s.table[i - 1];
    assert Pending(r.table[k], d) && d !in r.sending;
  }

  /** The condition is exact at every position: with all entries behind it cleared, the ones below
      it calm and the next one waiting for d, an entry that d completes keeps every wake-up exactly
      when it does not answer FETCH or asks for d again. */
  lemma LosesWakeUpExactly(s: State, i: nat, d: Name, cs: set<Name>)
    requires Valid(s) && 0 < i < |s.table| && IsLast(s.table[i], d) && !Aborts(s, d) && d !in s.sending
    requires Pending(s.table[i - 1], d) && Cleared(s.table, i + 1, d) && Awaited(s, {d})
    requires CalmBelow(s.table, i, Switched(s.node, d), d, cs)
    ensures Rewakes(Switched(s.node, d), s.table[i], d, cs) <==> Awaited(Sweep(s, i + 1, d, cs), {})
  {
    hide Visit, Known, IsLast, Refetches, Switched, Aborts;
    var node := Switched(s.node, d);
    if Rewakes(node, s.table[i], d, cs) {
      ClearedIsNotLast(s.table, i + 1, d);
      assert Tame(s.table, node, d, cs);
      SweepKeepsTracking(s, i + 1, d, cs, node);
    } else {
      FetchForgets(s, i, d, cs);
    }
  }

  // ---- Functions that fetch at most once ----

  /** No argument, or one argument and on: such a function is never fetched for twice. */
  predicate FetchesAtMostOnce(f: Function) {
    f.paramNumber == 0 || (f.paramNumber == 1 && f.enabled)
  }

  ghost predicate SimpleNode(node: NodeState) {
    forall c :: c in node.functions ==>
      node.functions[c].paramNumber == 0
      || (node.functions[c].paramNumber == 1 && (node.functions[c].enabled || c in node.excluded))
  }

  /** Nothing is ever pending but the only argument. */
  predicate WaitsForItsArgument(e: Entry) {
    forall n :: n in e.pending ==> |DataNames(e.interest)| == 1 && n == [DATA, DataNames(e.interest)[0]]
  }

  ghost predicate Simple(s: State) {
    SimpleNode(s.node) && forall k :: 0 <= k < |s.table| ==> WaitsForItsArgument(s.table[k])
  }

  lemma SimpleFetch(node: NodeState, e: Entry, cs: set<Name>)
    requires SimpleNode(node) && Known(node.functions, e) && Refetches(node, e, cs)
    ensures |DataNames(e.interest)| == 1
    ensures Decide(node, e.interest, cs).1 == [[DATA, DataNames(e.interest)[0]]]
  {
    DecisionIsSound(node, e.interest, cs);
    var args := DataNames(e.interest);
    if args != [] {
      assert args == [args[0]];
      MissingOfOne(args[0], cs);
    }
  }

  lemma MissingOfOne(a: Component, cs: set<Name>)
    ensures Missing([a], cs) == if [DATA, a] in cs then [] else [[DATA, a]]
  {
    assert [a][1..] == [];
  }

  lemma SameSwitchesSimple(n: NodeState, n': NodeState)
    requires SimpleNode(n) && SameSwitches(n, n')
    ensures SimpleNode(n')
  {
  }

  lemma DeleteKeepsArguments(table: seq<Entry>, name: Name)
    requires forall k :: 0 <= k < |table| ==> WaitsForItsArgument(table[k])
    ensures var r := DeleteEntry(table, name); forall k :: 0 <= k < |r| ==> WaitsForItsArgument(r[k])
  {
    hide WaitsForItsArgument;
  }

  lemma ResolveKeepsSimple(s: State, e: Entry, cs: set<Name>)
    requires Simple(s) && Known(s.node.functions, e) && WaitsForItsArgument(e)
    ensures Simple(Resolve(s, e, cs))
  {
    hide Resolve, SimpleNode, SameSwitches;
    var wanted := Decide(s.node, e.interest, cs).1;
    ResolveEffect(s, e, cs);
    SameSwitchesSimple(s.node, Resolve(s, e, cs).node);
    DeleteKeepsArguments(s.table, e.interest);
    if Refetches(s.node, e, cs) {
      SimpleFetch(s.node, e, cs);
      AwaitEffect(e, wanted);
    }
  }

  lemma SwitchedIsSimple(node: NodeState, d: Name)
    requires SimpleNode(node)
    ensures SimpleNode(Switched(node, d))
  {
  }

  lemma VisitKeepsSimple(s: State, i: nat, d: Name, cs: set<Name>)
    requires Valid(s) && i < |s.table| && Simple(s)
    ensures Simple(Visit(s, i, d, cs))
  {
    hide SimpleNode;
    var e := s.table[i];
    VisitCases(s, i, d, cs);
    SwitchedIsSimple(s.node, d);
    DeleteKeepsArguments(s.table, e.interest);
    if IsLast(e, d) && !Aborts(s, d) {
      var m := Marked(s, i, d);
      ResolveKeepsSimple(m, m.table[i], cs);
    }
  }

  lemma {:induction false} SweepKeepsSimple(s: State, i: nat, d: Name, cs: set<Name>)
    requires Valid(s) && i <= |s.table| && Simple(s)
    ensures Simple(Sweep(s, i, d, cs))
    decreases i
  {
    hide Visit, Known, Simple;
    if i > 0 {
      VisitKeepsValid(s, i - 1, d, cs);
      VisitKeepsSimple(s, i - 1, d, cs);
      SweepKeepsSimple(Visit(s, i - 1, d, cs), i - 1, d, cs);
    }
  }

  lemma CompleteKeepsSimple(s: State, k: nat)
    requires Valid(s) && k < |s.running| && Simple(s)
    ensures Simple(Complete(s, k))
  {
    hide SimpleNode, WaitsForItsArgument;
    SameSwitchesSimple(s.node, Complete(s, k).node);
    if s.waiting != [] { DeleteKeepsArguments(s.table, s.waiting[0].interest); }
  }

  lemma RemoveFirstKeepsOthers(s: seq<Component>, x: Component)
    ensures forall c :: c in s && c != x ==> c in RemoveFirst(s, x)
  {
  }

  lemma StepKeepsSimple(s: State, ev: Event)
    requires Valid(s) && CanHappen(s, ev) && Simple(s)
    ensures Simple(Step(s, ev))
  {
    match ev
    case InterestArrives(n, cs) =>
      FirstIsLast(s.node.functions, n);
      ResolveKeepsSimple(s, EntryFor(n), cs);
    case DataArrives(d, cs) =>
      if s.active { SweepKeepsSimple(Delivered(s, d), |s.table|, d, cs); }
    case ExecutionEnds(k) => CompleteKeepsSimple(s, k);
    case SwitchOn(c) => RemoveFirstKeepsOthers(s.node.excluded, c);
    case SwitchOff(c) =>
    case Stop =>
  }

  /** A simple node that answers FETCH again asks for the arrived name again. */
  lemma SimpleIsConsiderate(s: State, ev: Event)
    requires Valid(s) && Simple(s)
    ensures Considerate(s, ev)
  {
    hide SimpleNode;
    if ev.DataArrives? {
      var d, node := ev.data, Switched(s.node, ev.data);
      SwitchedIsSimple(s.node, d);
      forall k | 0 <= k < |s.table| && IsLast(s.table[k], d) && Refetches(node, s.table[k], ev.cs)
        ensures d in Decide(node, s.table[k].interest, ev.cs).1
      {
        SimpleFetch(node, s.table[k], ev.cs);
      }
    }
  }

  lemma {:induction false} SimpleRunsAreConsiderate(s: State, evs: seq<Event>)
    requires Valid(s) && Possible(s, evs) && Simple(s)
    ensures ConsiderateRun(s, evs)
    decreases |evs|
  {
    hide Considerate, Simple, CanHappen, Step;
    if evs != [] {
      StepKeepsValid(s, evs[0]);
      StepKeepsSimple(s, evs[0]);
      SimpleIsConsiderate(s, evs[0]);
      SimpleRunsAreConsiderate(Step(s, evs[0]), evs[1..]);
    }
  }

  // ---- Functions that fetch twice ----

  const A := Generic("a")
  const B := Generic("b")
  const C := Generic("c")

  /** Some argument is missing while the function is on, or cached while it is off. */
  predicate CallsForFetch(node: NodeState, f: Component, args: seq<Component>, cs: set<Name>)
    requires f in node.functions
  {
    && f != FUNCTION && f !in node.excluded && |args| == node.functions[f].paramNumber
    && (forall a :: a in args ==> Plain(a))
    && if node.functions[f].enabled then exists a :: a in args && [DATA, a] !in cs
       else exists a :: a in args && [DATA, a] in cs
  }

  predicate Asked(on: bool, f: Component, args: seq<Component>, cs: set<Name>, m: Name) {
    (!on && m == [FUNCTION, f]) || (|m| == 2 && m[0] == DATA && m[1] in args && m !in cs)
  }

  lemma RequestDecides(node: NodeState, f: Component, args: seq<Component>, cs: set<Name>)
    requires f in node.functions && CallsForFetch(node, f, args, cs)
    ensures var n := RequestName(f, args);
      && Acceptable(node.functions, n) && EntryFor(n) == Entry(n, f, map[])
      && |n| >= 2 && FunctionName(n) == Some(f)
      && Decide(node, n, cs).0 == FETCH
      && forall m :: m in Decide(node, n, cs).1 <==> Asked(node.functions[f].enabled, f, args, cs, m)
  {
    var n := RequestName(f, args);
    assert n + [] == n;
    RequestArguments(f, args, []);
    RequestIsAcceptable(node.functions, f, args);
    DecisionIsSound(node, n, cs);
  }

  /** A request that calls for fetching becomes an entry in front that waits for all it asked for. */
  lemma FreshFetch(s: State, f: Component, args: seq<Component>, cs: set<Name>)
    requires Valid(s) && s.active && f in s.node.functions && CallsForFetch(s.node, f, args, cs)
    ensures var n := RequestName(f, args);
      && Acceptable(s.node.functions, n)
      && var r := ReceiveInterest(s, n, cs);
         && r.active && r.node == s.node && r.table != [] && r.table[1..] == s.table
         && r.table[0].interest == n && r.table[0].func == f
         && (forall m :: m in r.table[0].pending <==> Asked(s.node.functions[f].enabled, f, args, cs, m))
         && (forall m :: m in r.table[0].pending ==> !r.table[0].pending[m])
  {
    hide Asked;
    var n := RequestName(f, args);
    RequestDecides(s.node, f, args, cs);
    var wanted := Decide(s.node, n, cs).1;
    RequestAllEffect(s, wanted);
    AwaitEffect(EntryFor(n), wanted);
    var r := ReceiveInterest(s, n, cs);
    assert r.table == [Await(EntryFor(n), wanted)] + s.table;
  }

  /** One more event of a run, and what it needs to be extended again. */
  lemma RunGrows(s: State, evs: seq<Event>, ev: Event)
    requires Valid(s) && Possible(s, evs) && Valid(Run(s, evs)) && CanHappen(Run(s, evs), ev)
    ensures Possible(s, evs + [ev]) && Run(s, evs + [ev]) == Step(Run(s, evs), ev)
    ensures Valid(Run(s, evs + [ev]))
  {
    hide Step, CanHappen;
    RunThenStep(s, evs, ev);
    StepKeepsValid(Run(s, evs), ev);
  }

  /** b arrives: the request for a and b still waits for a, the one for a and c for both. */
  lemma SecondArgument(s: State, d: Name, cs: set<Name>)
    requires Valid(s) && s.active && |s.table| == 2 && !MentionsFunction(d)
    requires Pending(s.table[1], d) && !IsLast(s.table[1], d) && d !in s.table[0].pending
    ensures ReceiveData(s, d, cs) ==
      Delivered(s, d).(table := [s.table[0], s.table[1].(pending := s.table[1].pending[d := true])])
  {
    var s0 := Delivered(s, d);
    VisitCases(s0, 1, d, cs);
    VisitKeepsValid(s0, 1, d, cs);
    var s1 := Visit(s0, 1, d, cs);
    VisitCases(s1, 0, d, cs);
    assert Sweep(s0, 2, d, cs) == Sweep(s1, 1, d, cs);
    assert Sweep(s1, 1, d, cs) == Visit(s1, 0, d, cs);
  }

  /** The arrival of d at two entries, of which the one it completes forgets the other. */
  lemma ArrivalForgets(s: State, d: Name, cs: set<Name>)
    requires Valid(s) && s.active && |s.table| == 2 && !Aborts(s, d)
    requires IsLast(s.table[1], d) && Pending(s.table[0], d)
    requires !Rewakes(Switched(s.node, d), s.table[1], d, cs)
    ensures !Awaited(ReceiveData(s, d, cs), {})
  {
    FetchForgets(Delivered(s, d), 1, d, cs);
  }

  function First(p: nat, x: Component): seq<Component>
    requires p >= 2
  {
    [A] + seq(p - 1, _ => x)
  }

  lemma FirstHolds(p: nat, x: Component)
    requires p >= 2
    ensures |First(p, x)| == p && forall a :: a in First(p, x) <==> a == A || a == x
  {
    assert First(p, x)[0] == A && First(p, x)[1] == x;
  }

  /** c is on, and each of these entries waits for a and one other argument. */
  ghost predicate BothWait(s: State, c: Component, p: nat) {
    && s.active && c in s.node.functions && c != FUNCTION && c !in s.node.excluded && p >= 2
    && s.node.functions[c].enabled && s.node.functions[c].paramNumber == p
    && |s.table| == 2 && s.table[1].func == c && s.table[1].interest == RequestName(c, First(p, B))
    && (forall m :: m in s.table[1].pending <==> m in {[DATA, A], [DATA, B]})
    && (forall m :: m in s.table[0].pending <==> m in {[DATA, A], [DATA, C]})
    && (forall m :: m in s.table[1].pending ==> !s.table[1].pending[m])
    && (forall m :: m in s.table[0].pending ==> !s.table[0].pending[m])
  }

  lemma AskedByFirst(c: Component, p: nat, x: Component, m: Name)
    requires p >= 2
    ensures Asked(true, c, First(p, x), {}, m) <==> m in {[DATA, A], [DATA, x]}
  {
    FirstHolds(p, x);
    assert |m| == 2 ==> m == [m[0], m[1]];
  }

  lemma FirstFetches(s: State, c: Component, p: nat, x: Component)
    requires Valid(s) && s.active && c in s.node.functions && c != FUNCTION && c !in s.node.excluded && p >= 2
    requires s.node.functions[c].enabled && s.node.functions[c].paramNumber == p && Plain(x)
    ensures var n := RequestName(c, First(p, x));
      && Acceptable(s.node.functions, n)
      && var r := ReceiveInterest(s, n, {});
         && r.active && r.node == s.node && r.table != [] && r.table[1..] == s.table
         && r.table[0].interest == n && r.table[0].func == c
         && (forall m :: m in r.table[0].pending <==> m in {[DATA, A], [DATA, x]})
         && (forall m :: m in r.table[0].pending ==> !r.table[0].pending[m])
  {
    hide Asked, RequestName, ReceiveInterest, First, Acceptable;
    FirstHolds(p, x);
    AIsPlain();
    assert A in First(p, x) && [DATA, A] !in {};
    FreshFetch(s, c, First(p, x), {});
    forall m ensures Asked(true, c, First(p, x), {}, m) <==> m in {[DATA, A], [DATA, x]} { AskedByFirst(c, p, x, m); }
  }

  lemma AIsPlain()
    ensures Plain(A) && Plain(B) && Plain(C)
  {
    assert "Data"[0] != 'a' && "Function"[0] != 'a' && "lambda"[0] != 'a' && "%FE"[0] != 'a';
  }

  /** A function of two or more arguments: on, asked for twice, waiting twice. */
  lemma TwoWaiting(s: State, c: Component, cap: Capacity) returns (evs: seq<Event>)
    requires Valid(s) && Initial(s, cap) && c in s.node.functions && s.node.functions[c].paramNumber >= 2
    ensures Possible(s, evs) && Valid(Run(s, evs)) && BothWait(Run(s, evs), c, s.node.functions[c].paramNumber)
  {
    hide FetchesAtMostOnce, RequestName, First, ReceiveInterest, Plain, Acceptable;
    var p := s.node.functions[c].paramNumber;
    AIsPlain();
    RunGrows(s, [], SwitchOn(c));
    evs := [] + [SwitchOn(c)];
    var s1 := Run(s, evs);
    FirstFetches(s1, c, p, B);
    var ev1 := InterestArrives(RequestName(c, First(p, B)), {});
    RunGrows(s, evs, ev1);
    evs := evs + [ev1];
    var s2 := Run(s, evs);
    FirstFetches(s2, c, p, C);
    var ev2 := InterestArrives(RequestName(c, First(p, C)), {});
    RunGrows(s, evs, ev2);
    evs := evs + [ev2];
    var s3 := Run(s, evs);
    assert s3.table[1..][0] == s3.table[1] && s2.table[1..] == [];
  }

  lemma NoFunctionIn(x: Component)
    requires x in {A, B, C}
    ensures !MentionsFunction([DATA, x])
  {
    assert "Function"[0] != "Data"[0] && "Function"[0] !in "abc";
  }

  /** b arrives, then leaves the store, then a arrives: the request for a and b asks for b again,
      and the other one is forgotten. */
  lemma ManyArgumentsLose(s: State, c: Component, cap: Capacity) returns (evs: seq<Event>)
    requires Valid(s) && Initial(s, cap) && c in s.node.functions && s.node.functions[c].paramNumber >= 2
    ensures Possible(s, evs) && !Awaited(Run(s, evs), {})
  {
    hide Awaited, ReceiveData, RequestName, First, Refetches, Acceptable;
    var da, db, p := [DATA, A], [DATA, B], s.node.functions[c].paramNumber;
    evs := TwoWaiting(s, c, cap);
    var r := Run(s, evs);
    NoFunctionIn(B);
    assert !r.table[1].pending[db := true][da];
    SecondArgument(r, db, {db});
    RunGrows(s, evs, DataArrives(db, {db}));
    evs := evs + [DataArrives(db, {db})];
    var r1 := Run(s, evs);
    NoFunctionIn(A);
    ForgetsTheOther(r1, c, p);
    ArrivalForgets(r1, da, {da});
    RunGrows(s, evs, DataArrives(da, {da}));
    evs := evs + [DataArrives(da, {da})];
  }

  lemma ForgetsTheOther(s: State, c: Component, p: nat)
    requires c in s.node.functions && c != FUNCTION && c !in s.node.excluded && p >= 2
    requires s.node.functions[c].enabled && s.node.functions[c].paramNumber == p
    requires |s.table| == 2 && s.table[1].func == c && s.table[1].interest == RequestName(c, First(p, B))
    ensures !Rewakes(Switched(s.node, [DATA, A]), s.table[1], [DATA, A], {[DATA, A]})
  {
    FirstHolds(p, B);
    AIsPlain();
    NoFunctionIn(A);
    assert B in First(p, B) && [DATA, B] !in {[DATA, A]};
    RequestDecides(s.node, c, First(p, B), {[DATA, A]});
  }

  /** A function of one argument that is off: two requests wait for its code, and when it arrives
      the argument has left the store. */
  lemma CodeDragLoses(s: State, c: Component, cap: Capacity) returns (evs: seq<Event>)
    requires Valid(s) && Initial(s, cap) && c in s.node.functions
    requires s.node.functions[c].paramNumber == 1 && !s.node.functions[c].enabled
    ensures Possible(s, evs) && !Awaited(Run(s, evs), {})
  {
    hide Awaited, ReceiveData, RequestName, ReceiveInterest, Plain, Acceptable;
    var d, cs := [FUNCTION, c], {[DATA, A]};
    var ev := InterestArrives(RequestName(c, [A]), cs);
    AIsPlain();
    assert A in [A];
    FreshFetch(s, c, [A], cs);
    RunGrows(s, [], ev);
    evs := [] + [ev];
    var s1 := Run(s, evs);
    FreshFetch(s1, c, [A], cs);
    RunGrows(s, evs, ev);
    evs := evs + [ev];
    var s2 := Run(s, evs);
    assert s2.table[1..][0] == s2.table[1] && s1.table[1..] == [];
    forall m ensures Asked(false, c, [A], cs, m) <==> m == d { assert |m| == 2 ==> m == [m[0], m[1]]; }
    ForgetsTheArgument(s2, c);
    ArrivalForgets(s2, d, {});
    RunGrows(s, evs, DataArrives(d, {}));
    evs := evs + [DataArrives(d, {})];
  }

  lemma ForgetsTheArgument(s: State, c: Component)
    requires c in s.node.functions && c != FUNCTION && c !in s.node.excluded && s.node.functions[c].paramNumber == 1
    requires |s.table| == 2 && s.table[1].func == c && s.table[1].interest == RequestName(c, [A])
    ensures !Aborts(s, [FUNCTION, c])
    ensures !Rewakes(Switched(s.node, [FUNCTION, c]), s.table[1], [FUNCTION, c], {})
  {
    assert [FUNCTION, c][0].uri == "Function" && MentionsFunction([FUNCTION, c]);
    AIsPlain();
    assert A in [A] && [DATA, A] !in {};
    RequestDecides(Switched(s.node, [FUNCTION, c]), c, [A], {});
  }

  // ---- The condition over all runs ----

  /** From power-on, no run loses a wake-up exactly when every installed function takes no argument,
      or takes one and is on. */
  lemma NoWakeUpLostExactly(s: State, cap: Capacity)
    requires Valid(s) && Initial(s, cap)
    ensures (forall evs :: Possible(s, evs) ==> Awaited(Run(s, evs), {}))
            <==> forall c :: c in s.node.functions ==> FetchesAtMostOnce(s.node.functions[c])
  {
    hide Awaited, Initial, Possible, Run;
    if c :| c in s.node.functions && !FetchesAtMostOnce(s.node.functions[c]) {
      var evs;
      if s.node.functions[c].paramNumber == 1 { evs := CodeDragLoses(s, c, cap); }
      else { evs := ManyArgumentsLose(s, c, cap); }
    } else {
      StartsSimple(s, cap);
      forall evs | Possible(s, evs) ensures Awaited(Run(s, evs), {}) {
        SimpleRunsAreConsiderate(s, evs);
        NoLostWakeUp(s, evs);
      }
    }
  }

  lemma StartsSimple(s: State, cap: Capacity)
    requires Initial(s, cap)
    requires forall c :: c in s.node.functions ==> FetchesAtMostOnce(s.node.functions[c])
    ensures Simple(s) && Awaited(s, {})
  {
  }

  // ---- A small node that loses one ----

  const F := Generic("f")

  ghost const SmallNode: NodeState :=
    NodeState(8, 8, 4, 0, 0, map[F := Function(1, 1, 2, true, 0, 0)], [])

  ghost const SmallStart: State :=
    State(true, SmallNode, [], {}, [], [], [], History(multiset{}, [], [], multiset{}))

  /** Big enough for its function, and yet some run loses a wake-up. */
  lemma WakeUpCanBeLost() returns (evs: seq<Event>)
    ensures Valid(SmallStart) && Initial(SmallStart, Capacity(8, 8)) && Possible(SmallStart, evs)
    ensures AllFit(SmallNode.functions, Capacity(8, 8))
    ensures !Awaited(Run(SmallStart, evs), {})
  {
    evs := ManyArgumentsLose(SmallStart, F, Capacity(8, 8));
  }
}
