/** The backward sweep of OnData over a table that the nested resolutions edit: when it clears the
    arrived name everywhere, and what it does to each entry. */
module NfnSweep {
  import opened Names
  import opened ComputeNodes
  import opened ResolutionEngine
  import opened NfnProducer

  predicate Pending(e: Entry, n: Name) {
    n in e.pending && !e.pending[n]
  }

  /** d is the only argument the entry still waits for. */
  predicate IsLast(e: Entry, d: Name) {
    Pending(e, d) && AllArrived(e.pending[d := true])
  }

  ghost predicate SameSwitches(n: NodeState, n': NodeState) {
    && n.excluded == n'.excluded && n.functions.Keys == n'.functions.Keys
    && forall c :: c in n.functions ==>
         n.functions[c].enabled == n'.functions[c].enabled && n.functions[c].paramNumber == n'.functions[c].paramNumber
  }

  /** Re-resolving the entry answers FETCH. */
  predicate Refetches(node: NodeState, e: Entry, cs: set<Name>) {
    Resolvable(e.interest) && Outcome(node, e, cs) == FETCH
  }

  /** If re-resolving answers FETCH, the arrived name is asked for again. */
  predicate Rewakes(node: NodeState, e: Entry, d: Name, cs: set<Name>) {
    Refetches(node, e, cs) ==> d in Decide(node, e.interest, cs).1
  }

  ghost predicate Cleared(table: seq<Entry>, from: nat, d: Name) {
    forall k :: from <= k < |table| ==> !Pending(table[k], d)
  }

  /** No entry that d completes would answer FETCH. */
  ghost predicate Calm(table: seq<Entry>, node: NodeState, d: Name, cs: set<Name>) {
    forall k :: 0 <= k < |table| && IsLast(table[k], d) ==> !Refetches(node, table[k], cs)
  }

  /** Every entry that d completes and that would answer FETCH would ask for d again. */
  ghost predicate Tame(table: seq<Entry>, node: NodeState, d: Name, cs: set<Name>) {
    forall k :: 0 <= k < |table| && IsLast(table[k], d) ==> Rewakes(node, table[k], d, cs)
  }

  // ---- Effects of one nested resolution and of one visit ----

  /** Decisions look at the name of the request and at the switches of the node only. */
  lemma SwitchesDecide(n: NodeState, n': NodeState, e: Entry, e': Entry, cs: set<Name>)
    requires SameSwitches(n, n') && Resolvable(e.interest)
    requires e'.interest == e.interest && e'.func == e.func
    ensures Decide(n, e.interest, cs) == Decide(n', e'.interest, cs)
    ensures Outcome(n, e, cs) == Outcome(n', e', cs)
    ensures Refetches(n, e, cs) == Refetches(n', e', cs)
  {
  }

  lemma AdmitEffect(s: State, e: Entry)
    requires e.func in s.node.functions
    ensures var r := Admit(s, e);
      && SameSwitches(s.node, r.node) && r.sending == s.sending
      && (r.table == s.table || r.table == DeleteEntry(s.table, e.interest))
  {
  }

  lemma ResolveEffect(s: State, e: Entry, cs: set<Name>)
    requires Known(s.node.functions, e)
    ensures var r := Resolve(s, e, cs);
      var wanted := Decide(s.node, e.interest, cs).1;
      && SameSwitches(s.node, r.node)
      && (Refetches(s.node, e, cs) ==>
            r.table == [Await(e, wanted)] + s.table
            && forall n :: n in r.sending <==> n in s.sending || n in wanted)
      && (!Refetches(s.node, e, cs) ==>
            r.sending == s.sending && (r.table == s.table || r.table == DeleteEntry(s.table, e.interest)))
  {
    var s1 := s.(node := AfterDecide(s.node, e.interest, cs));
    assert SameSwitches(s.node, s1.node);
    match Outcome(s.node, e, cs)
    case NACK =>
    case FORWARD =>
    case FETCH => RequestAllEffect(s1, Decide(s.node, e.interest, cs).1);
    case EXECUTE => AdmitEffect(s1, e);
  }

  /** The entry that FETCH inserts waits for everything that was fetched, which is something. */
  lemma FetchWaits(s: State, e: Entry, cs: set<Name>)
    requires Known(s.node.functions, e) && Refetches(s.node, e, cs)
    ensures var r := Resolve(s, e, cs);
      var wanted := Decide(s.node, e.interest, cs).1;
      && r.table != [] && r.table[1..] == s.table && wanted != []
      && forall n :: n in wanted ==> Pending(r.table[0], n)
  {
    var wanted := Decide(s.node, e.interest, cs).1;
    ResolveEffect(s, e, cs);
    DecisionIsSound(s.node, e.interest, cs);
    AwaitEffect(e, wanted);
    assert Resolve(s, e, cs).table == [Await(e, wanted)] + s.table;
  }

  /** Only the step that clears the last pending argument resolves an entry; any other visit at
      most marks it, or drops an entry when the function it should enable is not installed. */
  lemma VisitCases(s: State, i: nat, d: Name, cs: set<Name>)
    requires Valid(s) && i < |s.table|
    ensures var e := s.table[i];
      var r := Visit(s, i, d, cs);
      && (IsLast(e, d) && !Aborts(s, d) ==> r == Resolve(Marked(s, i, d), Marked(s, i, d).table[i], cs))
      && (Pending(e, d) && !IsLast(e, d) && !Aborts(s, d) ==> r == Marked(s, i, d))
      && (d in e.pending && Aborts(s, d) ==> r == s.(table := DeleteEntry(s.table, e.interest)))
      && (!Pending(e, d) && !Aborts(s, d) ==> r == s.(node := r.node) && (r.node == s.node || r.node == Switched(s.node, d)))
      && (d !in e.pending ==> r == s)
  {
  }

  predicate IsSuffix<T(==)>(b: seq<T>, a: seq<T>) {
    |b| <= |a| && a[|a| - |b|..] == b
  }

  lemma SuffixOfSuffix<T>(c: seq<T>, b: seq<T>, a: seq<T>)
    requires IsSuffix(c, b) && IsSuffix(b, a)
    ensures IsSuffix(c, a)
  {
    assert a[|a| - |c|..] == a[|a| - |b|..][|b| - |c|..];
  }

  lemma DeletedAt(table: seq<Entry>, i: nat, name: Name)
    requires i < |table| && table[i].interest == name
    ensures var j := IndexOf(table, name);
      j <= i && DeleteEntry(table, name) == table[..j] + table[j + 1..]
  {
  }

  lemma DeleteKeepsSuffix(table: seq<Entry>, i: nat, name: Name)
    requires i < |table| && table[i].interest == name
    ensures var r := DeleteEntry(table, name);
      |r| == |table| - 1 && r[i..] == table[i + 1..]
      && forall k {:trigger r[k]} :: 0 <= k < |r| ==> r[k] == table[k] || r[k] == table[k + 1]
  {
    DeletedAt(table, i, name);
    var j := IndexOf(table, name);
    assert (table[..j] + table[j + 1..])[i..] == table[i + 1..];
  }

  /** Marking position i, or leaving it, and inserting in front, keep what is behind i. */
  lemma EditsKeepSuffix(table: seq<Entry>, i: nat, e: Entry, front: Entry)
    requires i < |table|
    ensures IsSuffix(table[i + 1..], table[i..])
    ensures IsSuffix(table[i + 1..], table[i := e][i..])
    ensures IsSuffix(table[i + 1..], ([front] + table[i := e])[i..])
  {
    assert table[i..][1..] == table[i + 1..];
    assert table[i := e][i..][1..] == table[i + 1..];
    var t := [front] + table[i := e];
    assert t[i..][2..] == table[i + 1..];
  }

  /** A visit leaves everything behind the visited position as it was. */
  lemma VisitKeepsSuffix(s: State, i: nat, d: Name, cs: set<Name>)
    requires Valid(s) && i < |s.table|
    ensures var r := Visit(s, i, d, cs);
      |r.table| >= i && IsSuffix(s.table[i + 1..], r.table[i..])
  {
    var e := s.table[i];
    VisitCases(s, i, d, cs);
    EditsKeepSuffix(s.table, i, e, e);
    if d in e.pending && Aborts(s, d) {
      DeleteKeepsSuffix(s.table, i, e.interest);
    } else if Pending(e, d) {
      var m := Marked(s, i, d);
      EditsKeepSuffix(s.table, i, m.table[i], Await(m.table[i], Decide(m.node, e.interest, cs).1));
      if IsLast(e, d) {
        ResolveEffect(m, m.table[i], cs);
        DeleteKeepsSuffix(m.table, i, e.interest);
        assert m.table[i + 1..] == s.table[i + 1..];
      }
    }
  }

  lemma {:induction false} SweepKeepsSuffix(s: State, i: nat, d: Name, cs: set<Name>)
    requires Valid(s) && i <= |s.table|
    ensures IsSuffix(s.table[i..], Sweep(s, i, d, cs).table)
    decreases i
  {
    hide Visit, Known;
    if i > 0 {
      VisitKeepsValid(s, i - 1, d, cs);
      VisitKeepsSuffix(s, i - 1, d, cs);
      var s1 := Visit(s, i - 1, d, cs);
      SweepKeepsSuffix(s1, i - 1, d, cs);
      SuffixOfSuffix(s.table[i..], s1.table[i - 1..], Sweep(s, i, d, cs).table);
    }
  }

  // ---- When the sweep clears the arrived name ----

  lemma MarkKeepsCalm(s: State, i: nat, d: Name, cs: set<Name>, node: NodeState)
    requires i < |s.table| && Pending(s.table[i], d)
    requires Calm(s.table, node, d, cs) && Cleared(s.table, i + 1, d)
    ensures Calm(Marked(s, i, d).table, node, d, cs) && Cleared(Marked(s, i, d).table, i, d)
  {
  }

  lemma DeleteKeepsCalm(table: seq<Entry>, i: nat, d: Name, cs: set<Name>, node: NodeState)
    requires i < |table| && Calm(table, node, d, cs) && Cleared(table, i + 1, d)
    ensures Calm(DeleteEntry(table, table[i].interest), node, d, cs)
    ensures Cleared(DeleteEntry(table, table[i].interest), i, d)
  {
    DeleteKeepsSuffix(table, i, table[i].interest);
  }

  lemma VisitKeepsSwitches(s: State, i: nat, d: Name, cs: set<Name>, node: NodeState)
    requires Valid(s) && i < |s.table| && SameSwitches(Switched(s.node, d), node)
    ensures SameSwitches(Switched(Visit(s, i, d, cs).node, d), node)
  {
    VisitCases(s, i, d, cs);
    if IsLast(s.table[i], d) && !Aborts(s, d) {
      ResolveEffect(Marked(s, i, d), Marked(s, i, d).table[i], cs);
    }
  }

  /** What a visit hands on to the rest of the sweep. */
  lemma VisitKeepsCalm(s: State, i: nat, d: Name, cs: set<Name>, node: NodeState)
    requires Valid(s) && i < |s.table| && SameSwitches(Switched(s.node, d), node)
    requires Calm(s.table, node, d, cs) && Cleared(s.table, i + 1, d)
    ensures var r := Visit(s, i, d, cs);
      Calm(r.table, node, d, cs) && Cleared(r.table, i, d) && r.sending == s.sending
  {
    var e := s.table[i];
    VisitCases(s, i, d, cs);
    if d in e.pending && Aborts(s, d) {
      DeleteKeepsCalm(s.table, i, d, cs, node);
    } else if Pending(e, d) {
      MarkKeepsCalm(s, i, d, cs, node);
      if IsLast(e, d) {
        var m := Marked(s, i, d);
        ResolveEffect(m, m.table[i], cs);
        SwitchesDecide(m.node, node, m.table[i], e, cs);
        DeleteKeepsCalm(m.table, i, d, cs, node);
      }
    }
  }

  /** The state is on its way to being cleared: what the sweep keeps from visit to visit. */
  ghost predicate Clearing(s: State, i: nat, d: Name, cs: set<Name>, node: NodeState, sending: set<Name>) {
    && Valid(s) && i <= |s.table| && SameSwitches(Switched(s.node, d), node)
    && Calm(s.table, node, d, cs) && Cleared(s.table, i, d) && s.sending == sending
  }

  lemma VisitKeepsClearing(s: State, i: nat, d: Name, cs: set<Name>, node: NodeState)
    requires i > 0 && Clearing(s, i, d, cs, node, s.sending)
    ensures Clearing(Visit(s, i - 1, d, cs), i - 1, d, cs, node, s.sending)
  {
    hide Visit, Known;
    VisitKeepsValid(s, i - 1, d, cs);
    VisitKeepsSwitches(s, i - 1, d, cs, node);
    VisitKeepsCalm(s, i - 1, d, cs, node);
  }

  lemma {:induction false} SweepClears(s: State, i: nat, d: Name, cs: set<Name>, node: NodeState, sending: set<Name>)
    requires Clearing(s, i, d, cs, node, sending)
    ensures Clearing(Sweep(s, i, d, cs), 0, d, cs, node, sending)
    decreases i
  {
    if i > 0 {
      VisitKeepsClearing(s, i, d, cs, node);
      SweepClears(Visit(s, i - 1, d, cs), i - 1, d, cs, node, sending);
    }
  }

  /** Duplicates and nested executions notwithstanding: when no entry that d completes answers
      FETCH, no entry is left waiting for d. */
  lemma DataClears(s: State, d: Name, cs: set<Name>)
    requires Valid(s) && s.active && Calm(s.table, Switched(s.node, d), d, cs)
    ensures Cleared(ReceiveData(s, d, cs).table, 0, d)
    ensures ReceiveData(s, d, cs).sending == s.sending - {d}
  {
    SweepClears(Delivered(s, d), |s.table|, d, cs, Switched(s.node, d), s.sending - {d});
  }

  /** A nested FETCH inserts at the front, so the sweep jumps over the next entry: it is in the
      final table untouched. */
  lemma FetchSkipsNext(s: State, i: nat, d: Name, cs: set<Name>)
    requires Valid(s) && 0 < i < |s.table| && IsLast(s.table[i], d) && !Aborts(s, d)
    requires Refetches(Switched(s.node, d), s.table[i], cs)
    ensures s.table[i - 1] in Sweep(s, i + 1, d, cs).table
  {
    var m := Marked(s, i, d);
    VisitCases(s, i, d, cs);
    ResolveEffect(m, m.table[i], cs);
    VisitKeepsValid(s, i, d, cs);
    var s1 := Visit(s, i, d, cs);
    assert s1.table[i] == s.table[i - 1];
    SweepKeepsSuffix(s1, i, d, cs);
    var r := Sweep(s1, i, d, cs);
    assert r.table[|r.table| - |s1.table[i..]|..][0] == s1.table[i];
  }

  /** No entry below position i that d completes would answer FETCH. */
  ghost predicate CalmBelow(table: seq<Entry>, i: nat, node: NodeState, d: Name, cs: set<Name>) {
    i <= |table| && forall k :: 0 <= k < i && IsLast(table[k], d) ==> !Refetches(node, table[k], cs)
  }

  /** The condition is exact at every position: with all entries behind it cleared and the ones
      below it calm, an entry that d completes lets the sweep clear d exactly when it does not
      answer FETCH. */
  lemma SafeAboveExactly(s: State, i: nat, d: Name, cs: set<Name>)
    requires Valid(s) && 0 < i < |s.table| && IsLast(s.table[i], d) && !Aborts(s, d)
    requires Pending(s.table[i - 1], d) && Cleared(s.table, i + 1, d)
    requires CalmBelow(s.table, i, Switched(s.node, d), d, cs)
    ensures !Refetches(Switched(s.node, d), s.table[i], cs) <==> Cleared(Sweep(s, i + 1, d, cs).table, 0, d)
  {
    hide Known, IsLast, Refetches, Switched;
    if Refetches(Switched(s.node, d), s.table[i], cs) {
      FetchSkipsNext(s, i, d, cs);
    } else {
      ClearedIsNotLast(s.table, i + 1, d);
      assert Clearing(s, i + 1, d, cs, Switched(s.node, d), s.sending);
      SweepClears(s, i + 1, d, cs, Switched(s.node, d), s.sending);
    }
  }

  lemma ClearedIsNotLast(table: seq<Entry>, from: nat, d: Name)
    requires Cleared(table, from, d)
    ensures forall k :: from <= k < |table| ==> !IsLast(table[k], d)
  {
  }

  // ---- Each completed entry is handled once ----

  ghost predicate Distinct(table: seq<Entry>) {
    forall j, k :: 0 <= j < k < |table| ==> table[j].interest != table[k].interest
  }

  ghost function QueuedFor(q: seq<Entry>, n: Name): nat {
    if q == [] then 0
    else QueuedFor(q[..|q| - 1], n) + (if q[|q| - 1].interest == n then 1 else 0)
  }

  /** How often a request of this name was started, queued, forwarded or rejected. */
  ghost function HandledFor(s: State, n: Name): nat {
    s.history.started[n] + QueuedFor(s.history.queued, n)
    + multiset(s.outbox)[ForwardedInterest(n)] + multiset(s.outbox)[NackPacket(n)]
  }

  ghost predicate Ready(table: seq<Entry>, upTo: nat, n: Name, d: Name) {
    exists k :: 0 <= k < upTo <= |table| && table[k].interest == n && IsLast(table[k], d)
  }

  lemma AdmitHandles(s: State, e: Entry, n: Name)
    requires e.func in s.node.functions
    ensures HandledFor(Admit(s, e), n) == HandledFor(s, n) + (if n == e.interest then 1 else 0)
  {
    if s.node.Fits(s.node.functions[e.func]) {
    } else if s.node.queueFill != s.node.queueSize {
      assert (s.history.queued + [e])[..|s.history.queued|] == s.history.queued;
    } else {
    }
  }

  lemma ResolveHandles(s: State, e: Entry, cs: set<Name>, n: Name)
    requires Known(s.node.functions, e) && !Refetches(s.node, e, cs)
    ensures HandledFor(Resolve(s, e, cs), n) == HandledFor(s, n) + (if n == e.interest then 1 else 0)
  {
    var s1 := s.(node := AfterDecide(s.node, e.interest, cs));
    match Outcome(s.node, e, cs)
    case NACK =>
    case FORWARD =>
    case EXECUTE => AdmitHandles(s1, e, n);
  }

  lemma DeleteKeepsDistinct(table: seq<Entry>, i: nat)
    requires i < |table| && Distinct(table)
    ensures DeleteEntry(table, table[i].interest) == table[..i] + table[i + 1..]
    ensures Distinct(DeleteEntry(table, table[i].interest))
  {
    assert IndexOf(table, table[i].interest) == i;
  }

  lemma VisitKeepsDistinct(s: State, i: nat, d: Name, cs: set<Name>, node: NodeState)
    requires Valid(s) && i < |s.table| && Distinct(s.table) && !Aborts(s, d)
    requires SameSwitches(Switched(s.node, d), node) && Calm(s.table, node, d, cs)
    ensures var r := Visit(s, i, d, cs);
      |r.table| >= i && r.table[..i] == s.table[..i] && Distinct(r.table)
  {
    VisitCases(s, i, d, cs);
    if IsLast(s.table[i], d) {
      var m := Marked(s, i, d);
      ResolveEffect(m, m.table[i], cs);
      SwitchesDecide(m.node, node, m.table[i], s.table[i], cs);
      DeleteKeepsDistinct(m.table, i);
    }
  }

  lemma VisitHandles(s: State, i: nat, d: Name, cs: set<Name>, node: NodeState, n: Name)
    requires Valid(s) && i < |s.table| && !Aborts(s, d)
    requires SameSwitches(Switched(s.node, d), node) && Calm(s.table, node, d, cs)
    ensures HandledFor(Visit(s, i, d, cs), n) == HandledFor(s, n) +
           (if s.table[i].interest == n && IsLast(s.table[i], d) then 1 else 0)
  {
    VisitCases(s, i, d, cs);
    if IsLast(s.table[i], d) {
      var m := Marked(s, i, d);
      SwitchesDecide(m.node, node, m.table[i], s.table[i], cs);
      ResolveHandles(m, m.table[i], cs, n);
    }
  }

  lemma ReadySplits(table: seq<Entry>, i: nat, n: Name, d: Name, table1: seq<Entry>)
    requires 0 < i <= |table| && Distinct(table) && i - 1 <= |table1| && table1[..i - 1] == table[..i - 1]
    ensures var here := table[i - 1].interest == n && IsLast(table[i - 1], d);
      && (Ready(table, i, n, d) <==> Ready(table1, i - 1, n, d) || here)
      && !(Ready(table1, i - 1, n, d) && here)
  {
    assert forall k :: 0 <= k < i - 1 ==> table1[k] == table1[..i - 1][k] == table[..i - 1][k] == table[k];
  }

  ghost predicate Handling(s: State, i: nat, d: Name, cs: set<Name>, node: NodeState) {
    Clearing(s, i, d, cs, node, s.sending) && Distinct(s.table) && !Aborts(s, d)
  }

  lemma VisitKeepsHandling(s: State, i: nat, d: Name, cs: set<Name>, node: NodeState, n: Name)
    requires i > 0 && Handling(s, i, d, cs, node)
    ensures var r := Visit(s, i - 1, d, cs);
      && Handling(r, i - 1, d, cs, node)
      && HandledFor(r, n) + (if Ready(r.table, i - 1, n, d) then 1 else 0)
         == HandledFor(s, n) + (if Ready(s.table, i, n, d) then 1 else 0)
  {
    hide Visit, Known;
    VisitKeepsValid(s, i - 1, d, cs);
    VisitKeepsClearing(s, i, d, cs, node);
    VisitKeepsDistinct(s, i - 1, d, cs, node);
    VisitHandles(s, i - 1, d, cs, node, n);
    ReadySplits(s.table, i, n, d, Visit(s, i - 1, d, cs).table);
  }

  lemma {:induction false} SweepHandles(s: State, i: nat, d: Name, cs: set<Name>, node: NodeState, n: Name)
    requires Handling(s, i, d, cs, node)
    ensures HandledFor(Sweep(s, i, d, cs), n) == HandledFor(s, n) + (if Ready(s.table, i, n, d) then 1 else 0)
    decreases i
  {
    if i > 0 {
      VisitKeepsHandling(s, i, d, cs, node, n);
      SweepHandles(Visit(s, i - 1, d, cs), i - 1, d, cs, node, n);
    }
  }

  /** With one entry per interest name and no nested FETCH, the arrival of d makes the node start,
      queue, forward or reject each request that d completes exactly once, and no other. */
  lemma DataHandlesOnce(s: State, d: Name, cs: set<Name>, n: Name)
    requires Valid(s) && s.active && Distinct(s.table) && !Aborts(s, d)
    requires Calm(s.table, Switched(s.node, d), d, cs)
    ensures HandledFor(ReceiveData(s, d, cs), n) ==
            HandledFor(s, n) + (if Ready(s.table, |s.table|, n, d) then 1 else 0)
  {
    SweepHandles(Delivered(s, d), |s.table|, d, cs, Switched(s.node, d), n);
  }
}
