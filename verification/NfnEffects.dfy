/** What each operation of the compute application does, in terms of the fields alone: which packet
    leaves, which counter moves, and what stays. */
module NfnEffects {
  import opened Names
  import opened ComputeNodes
  import opened ResolutionEngine
  import opened NfnProducer
  import opened NfnRuns
  import opened NfnSweep

  // ---- The pending-content table ----

  /** Deleting takes out the first entry of that name, if there is one, and nothing else. */
  lemma DeleteInFields(table: seq<Entry>, name: Name)
    ensures var r := DeleteEntry(table, name);
      && ((forall i :: 0 <= i < |table| ==> table[i].interest != name) ==> r == table)
      && forall j :: 0 <= j < |table| && table[j].interest == name && (forall i :: 0 <= i < j ==> table[i].interest != name)
           ==> r == table[..j] + table[j + 1..]
  {
  }

  // ---- The outcomes of a resolution ----

  lemma {:induction false} NamedIsLong(n: Name, i: nat)
    requires i <= |n| && FunctionNameFrom(n, i).Some?
    ensures |n| >= 2
    decreases |n| - i
  {
    if !(n[i] == FUNCTION && i < |n| - 1) { NamedIsLong(n, i + 1); }
  }

  /** The request may run here and now: not excluded, right arity, on, all arguments cached. */
  predicate IsReady(node: NodeState, e: Entry, cs: set<Name>)
    requires e.func in node.functions
  {
    && e.func !in node.excluded && |DataNames(e.interest)| == node.functions[e.func].paramNumber
    && node.functions[e.func].enabled && forall a :: a in DataNames(e.interest) ==> [DATA, a] in cs
  }

  /** The request is for others: its function is excluded, or off with no argument cached. */
  predicate IsRemote(node: NodeState, e: Entry, cs: set<Name>)
    requires e.func in node.functions
  {
    || e.func in node.excluded
    || (|DataNames(e.interest)| == node.functions[e.func].paramNumber && !node.functions[e.func].enabled
        && forall a :: a in DataNames(e.interest) ==> [DATA, a] !in cs)
  }

  /** Right arity, and something is missing while something else is there. */
  predicate IsPartial(node: NodeState, e: Entry, cs: set<Name>)
    requires e.func in node.functions
  {
    && |DataNames(e.interest)| == node.functions[e.func].paramNumber
    && !IsReady(node, e, cs) && !IsRemote(node, e, cs)
  }

  lemma Outcomes(node: NodeState, e: Entry, cs: set<Name>)
    requires Known(node.functions, e)
    ensures |e.interest| >= 2
    ensures Outcome(node, e, cs) == EXECUTE <==> IsReady(node, e, cs)
    ensures Outcome(node, e, cs) == FORWARD <==> IsRemote(node, e, cs)
    ensures Outcome(node, e, cs) == FETCH <==> IsPartial(node, e, cs)
    ensures Outcome(node, e, cs) == NACK <==>
      e.func !in node.excluded && |DataNames(e.interest)| != node.functions[e.func].paramNumber
  {
    NamedIsLong(e.interest, 0);
    DecisionIsSound(node, e.interest, cs);
  }

  /** When the node counts a missed execution: right arity, off, and excluded or no argument cached. */
  predicate IsMissed(node: NodeState, e: Entry, cs: set<Name>)
    requires e.func in node.functions
  {
    && |DataNames(e.interest)| == node.functions[e.func].paramNumber && !node.functions[e.func].enabled
    && (e.func in node.excluded || forall a :: a in DataNames(e.interest) ==> [DATA, a] !in cs)
  }

  lemma Misses(node: NodeState, e: Entry, cs: set<Name>)
    requires Known(node.functions, e)
    ensures var f := node.functions[e.func];
      AfterDecide(node, e.interest, cs) ==
        if IsMissed(node, e, cs) then
          node.(functions := node.functions[e.func := f.(missCounter := (f.missCounter + 1) % 0x1_0000_0000)])
        else node
  {
    Outcomes(node, e, cs);
    DecisionIsSound(node, e.interest, cs);
  }

  /** A wrong number of arguments: one NACK, nothing else. */
  lemma NackInFields(s: State, e: Entry, cs: set<Name>)
    requires Known(s.node.functions, e) && e.func !in s.node.excluded
    requires |DataNames(e.interest)| != s.node.functions[e.func].paramNumber
    ensures Resolve(s, e, cs) == s.(outbox := s.outbox + [NackPacket(e.interest)])
  {
    Outcomes(s.node, e, cs);
    Misses(s.node, e, cs);
  }

  /** For others: the interest is sent on, a miss is counted if the function is off, nothing else. */
  lemma ForwardInFields(s: State, e: Entry, cs: set<Name>)
    requires Known(s.node.functions, e) && IsRemote(s.node, e, cs)
    ensures var f := s.node.functions[e.func];
      Resolve(s, e, cs) == s.(outbox := s.outbox + [ForwardedInterest(e.interest)],
        node := if IsMissed(s.node, e, cs) then
                  s.node.(functions := s.node.functions[e.func := f.(missCounter := (f.missCounter + 1) % 0x1_0000_0000)])
                else s.node)
  {
    Outcomes(s.node, e, cs);
    Misses(s.node, e, cs);
  }

  /** Ready, and the node has the resources: it is in flight, counted, and out of the table. */
  lemma StartInFields(s: State, e: Entry, cs: set<Name>)
    requires Known(s.node.functions, e) && IsReady(s.node, e, cs)
    requires s.node.functions[e.func].ram <= s.node.ram && s.node.functions[e.func].cpu <= s.node.cores
    ensures var f := s.node.functions[e.func];
      Resolve(s, e, cs) == s.(
        running := s.running + [Execution(e.interest, e.func)], table := DeleteEntry(s.table, e.interest),
        history := s.history.(started := s.history.started + multiset{e.interest}),
        node := s.node.(ram := s.node.ram - f.ram, cores := s.node.cores - f.cpu,
          functions := s.node.functions[e.func := f.(execCounter := (f.execCounter + 1) % 0x1_0000_0000)]))
  {
    Outcomes(s.node, e, cs);
    Misses(s.node, e, cs);
  }

  /** Ready, without the resources, and room in the queue: it waits at the end, nothing else. */
  lemma QueueInFields(s: State, e: Entry, cs: set<Name>)
    requires Known(s.node.functions, e) && IsReady(s.node, e, cs) && s.node.queueFill < s.node.queueSize
    requires s.node.functions[e.func].ram > s.node.ram || s.node.functions[e.func].cpu > s.node.cores
    ensures Resolve(s, e, cs) == s.(
      waiting := s.waiting + [e], history := s.history.(queued := s.history.queued + [e]),
      node := s.node.(queueFill := s.node.queueFill + 1))
  {
    Outcomes(s.node, e, cs);
    Misses(s.node, e, cs);
  }

  /** Ready, without the resources, and the queue full: counted as busy and sent on, nothing else. */
  lemma BusyInFields(s: State, e: Entry, cs: set<Name>)
    requires Known(s.node.functions, e) && IsReady(s.node, e, cs) && s.node.queueFill == s.node.queueSize
    requires s.node.functions[e.func].ram > s.node.ram || s.node.functions[e.func].cpu > s.node.cores
    ensures Resolve(s, e, cs) == s.(
      outbox := s.outbox + [ForwardedInterest(e.interest)],
      node := s.node.(busyCounter := (s.node.busyCounter + 1) % 0x1_0000_0000))
  {
    Outcomes(s.node, e, cs);
    Misses(s.node, e, cs);
  }

  /** What a partial request lacks: the function if it is off, and the arguments not cached. */
  predicate IsWanted(node: NodeState, e: Entry, cs: set<Name>, n: Name)
    requires e.func in node.functions
  {
    || (!node.functions[e.func].enabled && n == [FUNCTION, e.func])
    || (|n| == 2 && n[0] == DATA && n[1] in DataNames(e.interest) && n !in cs)
  }

  ghost function FetchesSent(s: State, n: Name): nat { multiset(s.outbox)[FetchInterest(n)] }

  lemma {:induction false} RequestAllSends(s: State, names: seq<Name>)
    ensures var r := RequestAll(s, names);
      && |s.outbox| <= |r.outbox| && r.outbox[..|s.outbox|] == s.outbox
      && (forall i :: |s.outbox| <= i < |r.outbox| ==> r.outbox[i].FetchInterest?)
    ensures var r := RequestAll(s, names);
      forall n :: FetchesSent(r, n) == FetchesSent(s, n) + (if n in names && n !in s.sending then 1 else 0)
    decreases |names|
  {
    if names != [] {
      var s1 := Request(s, names[0]);
      RequestAllSends(s1, names[1..]);
      var r := RequestAll(s, names);
      assert r.outbox[..|s.outbox|] == r.outbox[..|s1.outbox|][..|s.outbox|];
      forall i | |s.outbox| <= i < |s1.outbox| ensures r.outbox[i].FetchInterest? {
        assert r.outbox[i] == r.outbox[..|s1.outbox|][i];
      }
      forall n ensures n in names <==> n == names[0] || n in names[1..] {}
    }
  }

  /** Partial: for each name that is wanted and not asked for yet, exactly one fetch interest is sent,
      and nothing else; the request waits in front of the table for all that is wanted. */
  lemma FetchInFields(s: State, e: Entry, cs: set<Name>)
    requires Known(s.node.functions, e) && IsPartial(s.node, e, cs)
    ensures var r := Resolve(s, e, cs);
      && |s.outbox| <= |r.outbox| && r.outbox[..|s.outbox|] == s.outbox
      && (forall i :: |s.outbox| <= i < |r.outbox| ==> r.outbox[i].FetchInterest?)
      && (forall n :: n in r.sending <==> n in s.sending || IsWanted(s.node, e, cs, n))
      && r == s.(outbox := r.outbox, sending := r.sending, table := r.table)
      && r.table != [] && r.table[1..] == s.table && r.table[0].interest == e.interest && r.table[0].func == e.func
      && (forall n :: n in r.table[0].pending <==> n in e.pending || IsWanted(s.node, e, cs, n))
      && (forall n :: n in r.table[0].pending ==> r.table[0].pending[n] == (!IsWanted(s.node, e, cs, n) && e.pending[n]))
    ensures var r := Resolve(s, e, cs);
      forall n :: FetchesSent(r, n) == FetchesSent(s, n) + (if IsWanted(s.node, e, cs, n) && n !in s.sending then 1 else 0)
  {
    Outcomes(s.node, e, cs);
    Misses(s.node, e, cs);
    DecisionIsSound(s.node, e.interest, cs);
    var wanted := Decide(s.node, e.interest, cs).1;
    WantedAre(s.node, e, cs);
    RequestAllEffect(s, wanted);
    RequestAllSends(s, wanted);
    AwaitEffect(e, wanted);
    var r := Resolve(s, e, cs);
    assert r.table == [Await(e, wanted)] + s.table;
    assert r.outbox == RequestAll(s, wanted).outbox;
  }

  lemma WantedAre(node: NodeState, e: Entry, cs: set<Name>)
    requires Known(node.functions, e) && IsPartial(node, e, cs)
    ensures forall n :: n in Decide(node, e.interest, cs).1 <==> IsWanted(node, e, cs, n)
  {
    Outcomes(node, e, cs);
    DecisionIsSound(node, e.interest, cs);
  }

  /** In every run from power-on: a fetch interest has been sent for each name asked for, and never
      more often than Data for it has arrived, plus once while it is asked for. */
  lemma AskedMeansSent(s: State, evs: seq<Event>, cap: Capacity, n: Name)
    requires Valid(s) && Initial(s, cap) && cap.ram < U32 && cap.cores < U32 && Possible(s, evs)
    ensures var r := Run(s, evs);
      && (n in r.sending ==> FetchesSent(r, n) > 0)
      && FetchesSent(r, n) <= r.history.received[n] + (if n in r.sending then 1 else 0)
  {
    hide Run, Possible, Initial, Valid;
    EveryRunKeepsInv(s, evs, cap);
  }

  // ---- What one arrival does to one entry ----

  /** d carries code: a component of its name begins with `Function`. */
  ghost predicate CarriesCode(d: Name) {
    exists i :: 0 <= i < |d| && d[i].Generic? && |d[i].uri| >= 8 && d[i].uri[..8] == "Function"
  }

  lemma CodeIsFunction(d: Name)
    ensures CarriesCode(d) <==> MentionsFunction(d)
  {
  }

  /** Code switches on the function that the second component names, if it is installed. */
  lemma SwitchedInFields(node: NodeState, d: Name)
    ensures Switched(node, d) ==
      if CarriesCode(d) && |d| > 1 && d[1] in node.functions then
        node.(functions := node.functions[d[1] := node.functions[d[1]].(enabled := true, missCounter := 0)])
      else if CarriesCode(d) && |d| <= 1 && Generic("") in node.functions then
        node.(functions := node.functions[Generic("") := node.functions[Generic("")].(enabled := true, missCounter := 0)])
      else node
  {
    CodeIsFunction(d);
  }

  /** The visit to an entry: untouched if it does not ask for d; dropped if d carries code that is not
      installed; else marked, and resolved, as marked, if nothing else is pending. */
  lemma VisitInFields(s: State, i: nat, d: Name, cs: set<Name>)
    requires Valid(s) && i < |s.table|
    ensures var r, e := Visit(s, i, d, cs), s.table[i];
      var e1 := e.(pending := e.pending[d := true]);
      var s1 := s.(node := Switched(s.node, d), table := s.table[i := e1]);
      var missing := CarriesCode(d) && (if |d| > 1 then d[1] else Generic("")) !in s.node.functions;
      && (d !in e.pending ==> r == s)
      && (d in e.pending && missing ==> r == s.(table := DeleteEntry(s.table, e.interest)))
      && (d in e.pending && !missing && e.pending[d] ==> r == s.(node := Switched(s.node, d)))
      && (d in e.pending && !missing && !e.pending[d] && (exists n :: n in e.pending && n != d && !e.pending[n]) ==> r == s1)
      && (d in e.pending && !missing && !e.pending[d] && (forall n :: n in e.pending && n != d ==> e.pending[n]) ==>
            Known(s1.node.functions, e1) && r == Resolve(s1, e1, cs))
  {
    CodeIsFunction(d);
    VisitCases(s, i, d, cs);
    var e := s.table[i];
    if n :| n in e.pending && n != d && !e.pending[n] { assert !e.pending[d := true][n]; }
  }

  // ---- Arrivals that complete nothing ----

  /** The entry with d marked as arrived, if it waits for d. */
  function WithArrived(e: Entry, d: Name): Entry {
    if d in e.pending && !e.pending[d] then e.(pending := e.pending[d := true]) else e
  }

  /** The positions below i are still as they were, those from i on have received d. */
  ghost predicate MarkedFrom(s: State, r: State, i: nat, d: Name) {
    && i <= |s.table| == |r.table|
    && (forall k :: 0 <= k < i ==> r.table[k] == s.table[k])
    && (forall k :: i <= k < |s.table| ==> r.table[k] == WithArrived(s.table[k], d))
    && r == s.(node := r.node, table := r.table)
    && (r.node == s.node || r.node == Switched(s.node, d))
  }

  lemma EnableTwice(node: NodeState, d: Name)
    ensures Switched(Switched(node, d), d) == Switched(node, d)
  {
    var n := Switched(node, d);
    if MentionsFunction(d) && Dragged(d) in node.functions {
      assert n.functions[Dragged(d) := n.functions[Dragged(d)]] == n.functions;
    }
  }

  lemma {:induction false} SweepMarks(s0: State, s: State, i: nat, d: Name, cs: set<Name>)
    requires Valid(s0) && Valid(s) && i <= |s.table| && !Aborts(s0, d) && MarkedFrom(s0, s, i, d)
    requires forall k :: 0 <= k < |s0.table| ==> !IsLast(s0.table[k], d)
    ensures MarkedFrom(s0, Sweep(s, i, d, cs), 0, d)
    decreases i
  {
    hide Known;
    if i > 0 {
      VisitMarks(s0, s, i, d, cs);
      VisitKeepsValid(s, i - 1, d, cs);
      SweepMarks(s0, Visit(s, i - 1, d, cs), i - 1, d, cs);
    }
  }

  lemma VisitMarks(s0: State, s: State, i: nat, d: Name, cs: set<Name>)
    requires Valid(s) && 0 < i <= |s.table| && !Aborts(s0, d) && MarkedFrom(s0, s, i, d)
    requires !IsLast(s0.table[i - 1], d)
    ensures MarkedFrom(s0, Visit(s, i - 1, d, cs), i - 1, d)
  {
    assert s.table[i - 1] == s0.table[i - 1];
    EnableTwice(s0.node, d);
    VisitCases(s, i - 1, d, cs);
  }

  /** An arrival that completes no entry: the name leaves the list of names asked for, every entry
      that waits for it has it marked, and nothing is sent, started, queued or removed. */
  lemma ArrivalMarks(s: State, d: Name, cs: set<Name>)
    requires Valid(s) && s.active && !Aborts(s, d)
    requires forall k :: 0 <= k < |s.table| ==> !IsLast(s.table[k], d)
    ensures var r := ReceiveData(s, d, cs);
      && |r.table| == |s.table| && (forall k :: 0 <= k < |s.table| ==> r.table[k] == WithArrived(s.table[k], d))
      && r == s.(node := r.node, table := r.table, sending := s.sending - {d},
                 history := s.history.(received := s.history.received + multiset{d}))
  {
    SweepMarks(Delivered(s, d), Delivered(s, d), |s.table|, d, cs);
  }

  // ---- Code for functions that are not installed ----

  /** The entries that do not ask for d. */
  function WithoutRequest(table: seq<Entry>, d: Name): seq<Entry> {
    if table == [] then []
    else
      var last := table[|table| - 1];
      WithoutRequest(table[..|table| - 1], d) + if d in last.pending then [] else [last]
  }

  lemma VisitDrops(s: State, i: nat, d: Name, cs: set<Name>)
    requires Valid(s) && i < |s.table| && Aborts(s, d) && Distinct(s.table)
    ensures Visit(s, i, d, cs) ==
      if d in s.table[i].pending then s.(table := s.table[..i] + s.table[i + 1..]) else s
    ensures Distinct(Visit(s, i, d, cs).table) && Aborts(Visit(s, i, d, cs), d)
  {
    VisitCases(s, i, d, cs);
    DeleteKeepsDistinct(s.table, i);
  }

  lemma WithoutRequestAppend(table: seq<Entry>, e: Entry, d: Name)
    ensures WithoutRequest(table + [e], d) == WithoutRequest(table, d) + if d in e.pending then [] else [e]
  {
    assert (table + [e])[..|table|] == table;
  }

  lemma {:induction false} SweepDrops(s: State, i: nat, d: Name, cs: set<Name>)
    requires Valid(s) && i <= |s.table| && Aborts(s, d) && Distinct(s.table)
    ensures Sweep(s, i, d, cs) == s.(table := WithoutRequest(s.table[..i], d) + s.table[i..])
    decreases i
  {
    hide Known, Visit, Distinct, Aborts, WithoutRequest, Sweep;
    SweepStep(s, i, d, cs);
    if i == 0 {
      NothingWithout(d);
      assert s.table[..0] == [] && [] + s.table[0..] == s.table;
    } else {
      var e, front, back := s.table[i - 1], s.table[..i - 1], s.table[i..];
      var s1 := Visit(s, i - 1, d, cs);
      VisitDrops(s, i - 1, d, cs);
      SweepDrops(s1, i - 1, d, cs);
      WithoutRequestAppend(front, e, d);
      assert s.table[..i] == front + [e];
      var kept := WithoutRequest(front, d);
      if d in e.pending {
        assert s1.table[..i - 1] == front && s1.table[i - 1..] == back && kept + [] == kept;
      } else {
        assert s1.table[i - 1..] == [e] + back && kept + ([e] + back) == kept + [e] + back;
      }
    }
  }

  lemma NothingWithout(d: Name)
    ensures WithoutRequest([], d) == []
  {
  }

  /** Code arrives for a function that is not installed: the entries that ask for it are dropped, and
      nothing is enabled, sent, started or queued. */
  lemma AbortDrops(s: State, d: Name, cs: set<Name>)
    requires Valid(s) && s.active && Aborts(s, d) && Distinct(s.table)
    ensures ReceiveData(s, d, cs) == s.(table := WithoutRequest(s.table, d), sending := s.sending - {d},
                                        history := s.history.(received := s.history.received + multiset{d}))
  {
    SweepDrops(Delivered(s, d), |s.table|, d, cs);
    assert s.table[..|s.table|] == s.table && s.table[|s.table|..] == [];
  }

  /** An active application resolves the request for the function it names, with nothing pending. */
  lemma InterestInFields(s: State, n: Name, i: nat, cs: set<Name>)
    requires Valid(s) && n != [] && n[0] == LAMBDA && NamesFunctionAt(s.node.functions, n, i)
    ensures Acceptable(s.node.functions, n) && Known(s.node.functions, Entry(n, n[i + 1], map[]))
    ensures ReceiveInterest(s, n, cs) == if s.active then Resolve(s, Entry(n, n[i + 1], map[]), cs) else s
  {
    FirstIsLast(s.node.functions, n);
    LastFrom(s.node.functions, n, i, 0, Generic(""));
  }

  // ---- The orchestrator's switches ----

  ghost predicate IsFirst(xs: seq<Component>, c: Component, i: nat) {
    i < |xs| && xs[i] == c && forall k :: 0 <= k < i ==> xs[k] != c
  }

  /** Switching a function on: it is on with no misses, one of its exclusions is taken away, and
      nothing else changes. */
  lemma SwitchOnInFields(s: State, c: Component)
    requires Valid(s)
    ensures var r := Step(s, SwitchOn(c));
      && r == s.(node := s.node.(functions := r.node.functions, excluded := r.node.excluded))
      && r.node.functions == (if c in s.node.functions then
           s.node.functions[c := s.node.functions[c].(enabled := true, missCounter := 0)] else s.node.functions)
      && (c !in s.node.excluded ==> r.node.excluded == s.node.excluded)
      && forall i: nat :: IsFirst(s.node.excluded, c, i) ==> r.node.excluded == s.node.excluded[..i] + s.node.excluded[i + 1..]
  {
    if c !in s.node.excluded { RemoveFirstAbsent(s.node.excluded, c); }
    forall i: nat | IsFirst(s.node.excluded, c, i)
      ensures RemoveFirst(s.node.excluded, c) == s.node.excluded[..i] + s.node.excluded[i + 1..]
    {
      RemoveFirstAt(s.node.excluded, c, i);
    }
  }

  /** Switching a function off: it is off, with its counters, and excluded once more. */
  lemma SwitchOffInFields(s: State, c: Component)
    requires Valid(s)
    ensures Step(s, SwitchOff(c)) == s.(node := s.node.(excluded := s.node.excluded + [c],
      functions := if c in s.node.functions then
        s.node.functions[c := s.node.functions[c].(enabled := false)] else s.node.functions))
  {
  }

  // ---- A stopped application ----

  ghost predicate NoExecutionEnds(evs: seq<Event>) {
    forall i :: 0 <= i < |evs| ==> !evs[i].ExecutionEnds?
  }

  /** After a stop, arrivals change nothing but the switches that the orchestrator turns: no packet
      leaves, and table, lists and executions stay. */
  lemma {:induction false} StoppedIsSilent(s: State, evs: seq<Event>)
    requires Valid(s) && !s.active && Possible(s, evs) && NoExecutionEnds(evs)
    ensures var r := Run(s, evs);
      && r == s.(node := r.node) && r.node.busyCounter == s.node.busyCounter
      && r.node.ram == s.node.ram && r.node.cores == s.node.cores && r.node.queueFill == s.node.queueFill
    decreases |evs|
  {
    if evs != [] {
      StepKeepsValid(s, evs[0]);
      StoppedIsSilent(Step(s, evs[0]), evs[1..]);
    }
  }

  // ---- Every dequeued entry is started as often as it was dequeued ----

  /** Nothing leaves the queue, and nothing that was started is forgotten. */
  ghost predicate Onwards(s: State, r: State) {
    r.history.dequeued == s.history.dequeued && s.history.started <= r.history.started
  }

  lemma ResolveOnwards(s: State, e: Entry, cs: set<Name>)
    requires Known(s.node.functions, e)
    ensures Onwards(s, Resolve(s, e, cs))
  {
    RequestAllEffect(s.(node := AfterDecide(s.node, e.interest, cs)), Decide(s.node, e.interest, cs).1);
  }

  lemma VisitOnwards(s: State, i: nat, d: Name, cs: set<Name>)
    requires Valid(s) && i < |s.table|
    ensures Onwards(s, Visit(s, i, d, cs))
  {
    VisitCases(s, i, d, cs);
    if IsLast(s.table[i], d) && !Aborts(s, d) {
      MarkKeepsValid(s, i, d);
      ResolveOnwards(Marked(s, i, d), Marked(s, i, d).table[i], cs);
    }
  }

  lemma {:induction false} SweepOnwards(s: State, i: nat, d: Name, cs: set<Name>)
    requires Valid(s) && i <= |s.table|
    ensures Onwards(s, Sweep(s, i, d, cs))
    decreases i
  {
    hide Visit, Known;
    if i > 0 {
      VisitKeepsValid(s, i - 1, d, cs);
      VisitOnwards(s, i - 1, d, cs);
      SweepOnwards(Visit(s, i - 1, d, cs), i - 1, d, cs);
    }
  }

  lemma StepOnwards(s: State, ev: Event)
    requires Valid(s) && CanHappen(s, ev) && !ev.ExecutionEnds?
    ensures Onwards(s, Step(s, ev))
  {
    match ev
    case InterestArrives(n, cs) =>
      FirstIsLast(s.node.functions, n);
      ResolveOnwards(s, EntryFor(n), cs);
    case DataArrives(d, cs) =>
      if s.active { SweepOnwards(Delivered(s, d), |s.table|, d, cs); }
    case _ =>
  }

  /** The starts that arrivals bring about, without waiting. */
  ghost function DirectStarts(s: State, evs: seq<Event>): multiset<Name>
    requires Valid(s) && Possible(s, evs)
    decreases |evs|
  {
    if evs == [] then multiset{}
    else
      StepKeepsValid(s, evs[0]);
      var r := Step(s, evs[0]);
      (if evs[0].ExecutionEnds? then multiset{} else r.history.started - s.history.started) + DirectStarts(r, evs[1..])
  }

  lemma {:induction false} StartsAreAccounted(s: State, evs: seq<Event>, direct: multiset<Name>)
    requires Valid(s) && Possible(s, evs) && s.history.started == Interests(s.history.dequeued) + direct
    ensures var r := Run(s, evs);
      r.history.started == Interests(r.history.dequeued) + (direct + DirectStarts(s, evs))
    decreases |evs|
  {
    hide Interests, Step, CanHappen;
    if evs == [] {
      assert direct + DirectStarts(s, evs) == direct;
    } else {
      StepKeepsValid(s, evs[0]);
      var r := Step(s, evs[0]);
      var now := if evs[0].ExecutionEnds? then multiset{} else r.history.started - s.history.started;
      StepIsAccounted(s, evs[0], direct);
      StartsAreAccounted(r, evs[1..], direct + now);
      assert direct + now + DirectStarts(r, evs[1..]) == direct + DirectStarts(s, evs);
    }
  }

  lemma StepIsAccounted(s: State, ev: Event, direct: multiset<Name>)
    requires Valid(s) && CanHappen(s, ev) && s.history.started == Interests(s.history.dequeued) + direct
    ensures var r := Step(s, ev);
      r.history.started == Interests(r.history.dequeued)
        + (direct + if ev.ExecutionEnds? then multiset{} else r.history.started - s.history.started)
  {
    hide Interests, Complete;
    var r := Step(s, ev);
    if ev.ExecutionEnds? {
      CompleteInFields(s, ev.k);
      if r.history != s.history {
        InterestsAdd(s.history.dequeued, [s.waiting[0]]);
        OneStarts(s.waiting[0]);
      }
    } else {
      StepOnwards(s, ev);
    }
  }

  /** Over every run from power-on: what was started is what arrivals started directly and, each as
      often as it left the queue, the dequeued entries. */
  lemma DequeuedAreStarted(s: State, evs: seq<Event>, cap: Capacity)
    requires Valid(s) && Initial(s, cap) && Possible(s, evs)
    ensures var r := Run(s, evs); r.history.started == Interests(r.history.dequeued) + DirectStarts(s, evs)
  {
    NothingStarts();
    StartsAreAccounted(s, evs, multiset{});
    assert multiset{} + DirectStarts(s, evs) == DirectStarts(s, evs);
  }

  // ---- The execution counters ----

  ghost function IsOf(c: Component): Execution -> nat {
    (x: Execution) => if x.func == c then 1 else 0
  }

  /** How many Data packets answer requests for the function c. */
  ghost function Answers(packets: seq<Packet>, c: Component): nat {
    if packets == [] then 0
    else
      var p := packets[|packets| - 1];
      Answers(packets[..|packets| - 1], c) + (if p.DataPacket? && FunctionName(p.name) == Some(c) then 1 else 0)
  }

  lemma {:induction false} AnswersAdd(a: seq<Packet>, b: seq<Packet>, c: Component)
    requires forall i :: 0 <= i < |b| ==> !b[i].DataPacket?
    ensures Answers(a + b, c) == Answers(a, c)
  {
    if b == [] {
      assert a + b == a;
    } else {
      AnswersAdd(a, b[..|b| - 1], c);
      assert (a + b)[..|a + b| - 1] == a + b[..|b| - 1];
    }
  }

  lemma OneAnswer(a: seq<Packet>, n: Name, c: Component)
    ensures Answers(a + [DataPacket(n)], c) == Answers(a, c) + (if FunctionName(n) == Some(c) then 1 else 0)
  {
    assert (a + [DataPacket(n)])[..|a|] == a;
  }

  /** The counter of each function is what it was at the start, plus its executions in flight, plus
      the requests for it that have been answered, modulo 2^32. */
  ghost predicate Accounts(s: State, base: map<Component, nat>) {
    && (forall k :: 0 <= k < |s.running| ==> FunctionName(s.running[k].data) == Some(s.running[k].func))
    && forall c :: c in s.node.functions ==> c in base && s.node.functions[c].execCounter == Expected(s, base[c], c)
  }

  ghost function Expected(s: State, base: nat, c: Component): nat {
    (base + Total(s.running, IsOf(c)) + Answers(s.outbox, c)) % 0x1_0000_0000
  }

  ghost predicate SameCounters(n: NodeState, n': NodeState) {
    n'.functions.Keys == n.functions.Keys && forall c :: c in n.functions ==> n'.functions[c].execCounter == n.functions[c].execCounter
  }

  /** Without a start or an answer nothing changes in the accounts. */
  lemma OtherwiseAccounts(s: State, r: State, base: map<Component, nat>)
    requires Accounts(s, base) && r.running == s.running && SameCounters(s.node, r.node)
    requires |s.outbox| <= |r.outbox| && r.outbox[..|s.outbox|] == s.outbox
    requires forall i :: |s.outbox| <= i < |r.outbox| ==> !r.outbox[i].DataPacket?
    ensures Accounts(r, base)
  {
    hide Total, Answers, FunctionName, IsOf;
    assert r.outbox == s.outbox + r.outbox[|s.outbox|..];
    forall c ensures Answers(r.outbox, c) == Answers(s.outbox, c) { AnswersAdd(s.outbox, r.outbox[|s.outbox|..], c); }
  }

  lemma StartAccounts(s: State, r: State, x: Execution, base: map<Component, nat>)
    requires Accounts(s, base) && x.func in s.node.functions && FunctionName(x.data) == Some(x.func)
    requires r.running == s.running + [x] && r.outbox == s.outbox
    requires r.node.functions == s.node.functions[x.func :=
      s.node.functions[x.func].(execCounter := (s.node.functions[x.func].execCounter + 1) % 0x1_0000_0000)]
    ensures Accounts(r, base)
  {
    hide Total, Answers, FunctionName;
    forall c ensures Total(r.running, IsOf(c)) == Total(s.running, IsOf(c)) + (if c == x.func then 1 else 0) {
      TotalAppend(s.running, x, IsOf(c));
    }
  }

  lemma AnswerAccounts(s: State, r: State, k: nat, base: map<Component, nat>)
    requires Accounts(s, base) && k < |s.running| && r.running == s.running[..k] + s.running[k + 1..]
    requires r.outbox == s.outbox + [DataPacket(s.running[k].data)] && r.node.functions == s.node.functions
    ensures Accounts(r, base)
  {
    hide Total, Answers, FunctionName;
    forall c ensures Expected(r, 0, c) == Expected(s, 0, c) && Total(r.running, IsOf(c)) + Answers(r.outbox, c) == Total(s.running, IsOf(c)) + Answers(s.outbox, c) {
      TotalRemove(s.running, k, IsOf(c));
      OneAnswer(s.outbox, s.running[k].data, c);
    }
  }

  lemma ResolveAccounts(s: State, e: Entry, cs: set<Name>, base: map<Component, nat>)
    requires Valid(s) && Known(s.node.functions, e) && Accounts(s, base)
    ensures Accounts(Resolve(s, e, cs), base)
  {
    hide Resolve, Accounts, DataNames, IsReady, IsRemote, IsMissed, IsWanted, IsPartial;
    var r, f := Resolve(s, e, cs), s.node.functions[e.func];
    Outcomes(s.node, e, cs);
    match Outcome(s.node, e, cs)
    case NACK =>
      NackInFields(s, e, cs);
      OtherwiseAccounts(s, r, base);
    case FORWARD =>
      ForwardInFields(s, e, cs);
      OtherwiseAccounts(s, r, base);
    case FETCH =>
      FetchInFields(s, e, cs);
      OtherwiseAccounts(s, r, base);
    case EXECUTE =>
      if f.ram <= s.node.ram && f.cpu <= s.node.cores {
        StartInFields(s, e, cs);
        StartAccounts(s, r, Execution(e.interest, e.func), base);
      } else if s.node.queueFill < s.node.queueSize {
        QueueInFields(s, e, cs);
        OtherwiseAccounts(s, r, base);
      } else {
        BusyInFields(s, e, cs);
        OtherwiseAccounts(s, r, base);
      }
  }

  lemma VisitAccounts(s: State, i: nat, d: Name, cs: set<Name>, base: map<Component, nat>)
    requires Valid(s) && i < |s.table| && Accounts(s, base)
    ensures Accounts(Visit(s, i, d, cs), base)
  {
    hide Accounts, Resolve;
    VisitCases(s, i, d, cs);
    var r := Visit(s, i, d, cs);
    if IsLast(s.table[i], d) && !Aborts(s, d) {
      var m := Marked(s, i, d);
      MarkKeepsValid(s, i, d);
      OtherwiseAccounts(s, m, base);
      ResolveAccounts(m, m.table[i], cs, base);
    } else {
      OtherwiseAccounts(s, r, base);
    }
  }

  lemma {:induction false} SweepAccounts(s: State, i: nat, d: Name, cs: set<Name>, base: map<Component, nat>)
    requires Valid(s) && i <= |s.table| && Accounts(s, base)
    ensures Accounts(Sweep(s, i, d, cs), base)
    decreases i
  {
    hide Visit, Known, Accounts;
    if i > 0 {
      VisitKeepsValid(s, i - 1, d, cs);
      VisitAccounts(s, i - 1, d, cs, base);
      SweepAccounts(Visit(s, i - 1, d, cs), i - 1, d, cs, base);
    }
  }

  lemma CompleteAccounts(s: State, k: nat, base: map<Component, nat>)
    requires Valid(s) && k < |s.running| && Accounts(s, base)
    ensures Accounts(Complete(s, k), base)
  {
    hide Accounts, Complete;
    CompleteInFields(s, k);
    var r := Complete(s, k);
    var s1 := s.(running := s.running[..k] + s.running[k + 1..], outbox := s.outbox + [DataPacket(s.running[k].data)]);
    AnswerAccounts(s, s1, k, base);
    if r.waiting == s.waiting {
      OtherwiseAccounts(s1, r, base);
    } else {
      var w := s.waiting[0];
      assert Known(s.node.functions, w);
      StartAccounts(s1, r, Execution(w.interest, w.func), base);
    }
  }

  lemma StepAccounts(s: State, ev: Event, base: map<Component, nat>)
    requires Valid(s) && CanHappen(s, ev) && Accounts(s, base)
    ensures Accounts(Step(s, ev), base)
  {
    hide Accounts, Resolve;
    match ev
    case InterestArrives(n, cs) =>
      FirstIsLast(s.node.functions, n);
      ResolveAccounts(s, EntryFor(n), cs, base);
    case DataArrives(d, cs) =>
      OtherwiseAccounts(s, Delivered(s, d), base);
      if s.active { SweepAccounts(Delivered(s, d), |s.table|, d, cs, base); }
    case ExecutionEnds(k) => CompleteAccounts(s, k, base);
    case _ => OtherwiseAccounts(s, Step(s, ev), base);
  }

  lemma {:induction false} RunAccounts(s: State, evs: seq<Event>, base: map<Component, nat>)
    requires Valid(s) && Possible(s, evs) && Accounts(s, base)
    ensures Accounts(Run(s, evs), base)
    decreases |evs|
  {
    hide Accounts, CanHappen, Step;
    if evs != [] {
      StepKeepsValid(s, evs[0]);
      StepAccounts(s, evs[0], base);
      RunAccounts(Step(s, evs[0]), evs[1..], base);
    }
  }

  /** Over every run from power-on the execution counter of a function, which status messages report
      and the orchestrator sums, is its start value plus what is in flight and what was answered. */
  lemma CountersTellExecutions(s: State, evs: seq<Event>, cap: Capacity, c: Component)
    requires Valid(s) && Initial(s, cap) && Possible(s, evs) && c in s.node.functions
    ensures var r := Run(s, evs);
      && c in r.node.functions
      && r.node.functions[c].execCounter ==
           (s.node.functions[c].execCounter + Total(r.running, IsOf(c)) + Answers(r.outbox, c)) % 0x1_0000_0000
  {
    hide Total, Answers, IsOf, Initial, Run, Possible, FunctionName, Valid;
    var base: map<Component, nat> := map x | x in s.node.functions :: s.node.functions[x].execCounter;
    StartsAccounted(s, cap, base);
    RunAccounts(s, evs, base);
    RunKeepsHardware(s, evs);
  }

  lemma StartsAccounted(s: State, cap: Capacity, base: map<Component, nat>)
    requires Initial(s, cap) && base.Keys == s.node.functions.Keys
    requires forall x :: x in s.node.functions ==> base[x] == s.node.functions[x].execCounter
    ensures Accounts(s, base)
  {
  }
}
