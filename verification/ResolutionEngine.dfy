/** The resolution engine: which function and arguments an interest names, and whether the node
    rejects it, fetches what is missing, executes it, or forwards it. */
module ResolutionEngine {
  import opened Names
  import opened ComputeNodes

  datatype Decision = NACK | FETCH | EXECUTE | FORWARD

  /** The component after the first `Function` component that has a successor, from i on. */
  function FunctionNameFrom(n: Name, i: nat): Option<Component>
    requires i <= |n|
    decreases |n| - i
  {
    if i == |n| then None
    else if n[i] == FUNCTION && i < |n| - 1 then Some(n[i + 1])
    else FunctionNameFrom(n, i + 1)
  }

  function FunctionName(n: Name): Option<Component> { FunctionNameFrom(n, 0) }

  /** Scan state machine of the argument list: `Data` opens it, `Function` closes it, the
      sequence-number marker ends the scan. */
  function DataNamesFrom(n: Name, i: nat, isData: bool): seq<Component>
    requires i <= |n|
    decreases |n| - i
  {
    if i == |n| then []
    else if n[i] == LAMBDA then DataNamesFrom(n, i + 1, isData)
    else if n[i] == DATA then DataNamesFrom(n, i + 1, true)
    else if n[i] == FUNCTION then DataNamesFrom(n, i + 1, false)
    else if !isData then DataNamesFrom(n, i + 1, isData)
    else if IsMarked(n[i]) then []
    else [n[i]] + DataNamesFrom(n, i + 1, isData)
  }

  function DataNames(n: Name): seq<Component> { DataNamesFrom(n, 0, false) }

  /** The content-store lookups: a missing argument is asked for under the prefix `/Data`. */
  function Missing(args: seq<Component>, cs: set<Name>): seq<Name> {
    if args == [] then []
    else (if [DATA, args[0]] in cs then [] else [[DATA, args[0]]]) + Missing(args[1..], cs)
  }

  /** The engine uses the function name without testing that there is one. */
  predicate Resolvable(n: Name) {
    |n| < 2 || FunctionName(n).Some?
  }

  function Decide(node: NodeState, n: Name, cs: set<Name>): (Decision, seq<Name>)
    requires Resolvable(n)
  {
    if |n| < 2 then (NACK, [])
    else
      var f := FunctionName(n).value;
      var args := DataNames(n);
      if f !in node.functions then (NACK, [])
      else
        var enabled := node.functions[f].enabled;
        var wanted := if enabled then [] else [[FUNCTION, f]];
        if |args| != node.functions[f].paramNumber then (NACK, wanted)
        else
          var missing := Missing(args, cs);
          var d := if (!enabled && |missing| == |args|) || f in node.excluded then FORWARD
                   else if enabled && |missing| == 0 then EXECUTE
                   else FETCH;
          (d, wanted + missing)
  }

  /** A FORWARD answer of the engine counts a missed execution. */
  function AfterDecide(node: NodeState, n: Name, cs: set<Name>): NodeState
    requires Resolvable(n)
  {
    if Decide(node, n, cs).0 == FORWARD then node.CountMiss(FunctionName(n).value) else node
  }

  method ExtractFunctionName(n: Name) returns (f: Option<Component>)
    ensures f == FunctionName(n)
  {
    for i := 0 to |n|
      invariant FunctionNameFrom(n, i) == FunctionName(n)
    {
      if n[i] == FUNCTION {
        if i < |n| - 1 { return Some(n[i + 1]); }
      }
    }
    f := None;
  }

  method ExtractDataNames(n: Name) returns (names: seq<Component>)
    ensures names == DataNames(n)
  {
    names := [];
    var isData := false;
    for i := 0 to |n|
      invariant names + DataNamesFrom(n, i, isData) == DataNames(n)
    {
      if n[i] == LAMBDA { continue; }
      if n[i] == DATA { isData := true; continue; }
      if n[i] == FUNCTION { isData := false; continue; }
      if isData {
        if IsMarked(n[i]) { return; }
        names := names + [n[i]];
      }
    }
  }

  method GetFetchDecisions(n: Name, node: ComputeNode, cs: set<Name>)
    returns (decision: Decision, wanted: seq<Name>)
    requires Resolvable(n)
    modifies node
    ensures (decision, wanted) == Decide(old(node.Model()), n, cs)
    ensures node.Model() == AfterDecide(old(node.Model()), n, cs)
  {
    wanted := [];
    if |n| < 2 { return NACK, wanted; }
    var func := ExtractFunctionName(n);
    var args := ExtractDataNames(n);
    var f := func.value;
    if f !in node.functions { return NACK, wanted; }
    var enabled := node.functions[f].enabled;
    if !enabled { wanted := [[FUNCTION, f]]; }
    if |args| != node.functions[f].paramNumber { return NACK, wanted; }

    ghost var head := wanted;
    var misses := 0;
    for i := 0 to |args|
      invariant wanted + Missing(args[i..], cs) == head + Missing(args, cs)
      invariant misses + |Missing(args[i..], cs)| == |Missing(args, cs)|
    {
      assert args[i..][1..] == args[i + 1..];
      if [DATA, args[i]] !in cs {
        wanted, misses := wanted + [[DATA, args[i]]], misses + 1;
      }
    }

    assert wanted == head + Missing(args, cs) && misses == |Missing(args, cs)|;

    var isExcluded := node.CheckExcludeList(f);
    if (!enabled && misses == |args|) || isExcluded {
      if !enabled {
        node.functions := node.functions[f :=
          node.functions[f].(missCounter := Add32(node.functions[f].missCounter, 1))];
      }
      return FORWARD, wanted;
    } else if enabled && misses == 0 {
      return EXECUTE, wanted;
    }
    return FETCH, wanted;
  }

  // ---- What a decision means ----

  /** Everything the missing list says: it is the arguments that are not cached, in order. */
  lemma {:induction false} MissingIsExact(args: seq<Component>, cs: set<Name>)
    ensures |Missing(args, cs)| <= |args|
    ensures |Missing(args, cs)| == |args| <==> forall a :: a in args ==> [DATA, a] !in cs
    ensures Missing(args, cs) == [] <==> forall a :: a in args ==> [DATA, a] in cs
    ensures forall m :: m in Missing(args, cs) <==> |m| == 2 && m[0] == DATA && m[1] in args && m !in cs
  {
    if args != [] {
      MissingIsExact(args[1..], cs);
      assert forall a :: a in args <==> a == args[0] || a in args[1..];
      forall m ensures m in Missing(args, cs) <==> |m| == 2 && m[0] == DATA && m[1] in args && m !in cs {
        assert |m| == 2 && m[0] == DATA && m[1] == args[0] ==> m == [DATA, args[0]];
      }
    }
  }

  predicate ArityMatches(node: NodeState, n: Name)
    requires FunctionName(n).Some? && FunctionName(n).value in node.functions
  {
    |DataNames(n)| == node.functions[FunctionName(n).value].paramNumber
  }

  predicate AllCached(n: Name, cs: set<Name>) {
    forall a :: a in DataNames(n) ==> [DATA, a] in cs
  }

  predicate NoneCached(n: Name, cs: set<Name>) {
    forall a :: a in DataNames(n) ==> [DATA, a] !in cs
  }

  /** For an interest that names an installed function, each decision is taken exactly when
      stated here, for every content store. */
  lemma DecisionIsSound(node: NodeState, n: Name, cs: set<Name>)
    requires |n| >= 2 && FunctionName(n).Some? && FunctionName(n).value in node.functions
    ensures var (d, wanted) := Decide(node, n, cs);
      var f := FunctionName(n).value;
      var on := node.functions[f].enabled;
      && (d == NACK <==> !ArityMatches(node, n))
      && (d == EXECUTE <==> ArityMatches(node, n) && on && f !in node.excluded && AllCached(n, cs))
      && (d == FORWARD <==> ArityMatches(node, n) && (f in node.excluded || (!on && NoneCached(n, cs))))
      && (d == EXECUTE ==> wanted == [])
      && (d == FETCH ==> wanted != [])
      && (d == FETCH ==> forall w :: w in wanted <==>
            (!on && w == [FUNCTION, f])
            || (|w| == 2 && w[0] == DATA && w[1] in DataNames(n) && w !in cs))
      && (d == FETCH ==> wanted == (if on then [] else [[FUNCTION, f]]) + Missing(DataNames(n), cs))
  {
    MissingIsExact(DataNames(n), cs);
  }

  // ---- The scans, position by position ----

  /** The first `Function` component that has a successor names the function. */
  lemma {:induction false} FunctionNameExactly(n: Name, i: nat)
    requires i <= |n| && forall k :: 0 <= k < i ==> n[k] != FUNCTION
    ensures forall f :: FunctionNameFrom(n, i) == Some(f) <==> NamesFirst(n, f)
    decreases |n| - i
  {
    if i < |n| && n[i] != FUNCTION {
      FunctionNameExactly(n, i + 1);
    } else if i < |n| - 1 {
      assert NamesAt(n, n[i + 1], i);
    }
  }

  ghost predicate NamesFirst(n: Name, f: Component) {
    exists i :: NamesAt(n, f, i)
  }

  ghost predicate NamesAt(n: Name, f: Component, i: nat) {
    i + 1 < |n| && n[i] == FUNCTION && n[i + 1] == f && forall k :: 0 <= k < i ==> n[k] != FUNCTION
  }

  /** Position i is behind a `Data` component, with no `Function` component in between. */
  ghost predicate InData(n: Name, i: nat) {
    exists j :: 0 <= j < i <= |n| && n[j] == DATA && forall k :: j < k < i ==> n[k] != FUNCTION
  }

  /** A marked component in a data section ends the scan. */
  ghost predicate Stops(n: Name, i: nat) {
    i < |n| && InData(n, i) && n[i] !in {LAMBDA, DATA, FUNCTION} && IsMarked(n[i])
  }

  ghost predicate IsArgument(n: Name, i: nat) {
    i < |n| && InData(n, i) && n[i] !in {LAMBDA, DATA, FUNCTION} && forall k :: 0 <= k <= i ==> !Stops(n, k)
  }

  /** The arguments from position i on, in order. */
  ghost function ArgumentsFromPosition(n: Name, i: nat): seq<Component>
    requires i <= |n|
    decreases |n| - i
  {
    if i == |n| then [] else (if IsArgument(n, i) then [n[i]] else []) + ArgumentsFromPosition(n, i + 1)
  }

  lemma {:induction false} NothingAfterStop(n: Name, i: nat, k: nat)
    requires k < i <= |n| && Stops(n, k)
    ensures ArgumentsFromPosition(n, i) == []
    decreases |n| - i
  {
    if i < |n| { NothingAfterStop(n, i + 1, k); }
  }

  lemma InDataStep(n: Name, i: nat)
    requires i < |n|
    ensures InData(n, i + 1) <==> n[i] == DATA || (InData(n, i) && n[i] != FUNCTION)
  {
    if InData(n, i) && n[i] != FUNCTION {
      var j :| 0 <= j < i && n[j] == DATA && forall k :: j < k < i ==> n[k] != FUNCTION;
      assert forall k :: j < k < i + 1 ==> n[k] != FUNCTION;
    }
    if InData(n, i + 1) && n[i] != DATA {
      var j :| 0 <= j < i + 1 && n[j] == DATA && forall k :: j < k < i + 1 ==> n[k] != FUNCTION;
      assert j < i;
    }
  }

  lemma {:induction false} DataNamesFromPosition(n: Name, i: nat)
    requires i <= |n| && forall k :: 0 <= k < i ==> !Stops(n, k)
    ensures DataNamesFrom(n, i, InData(n, i)) == ArgumentsFromPosition(n, i)
    decreases |n| - i
  {
    hide InData;
    if i < |n| {
      InDataStep(n, i);
      assert DATA != FUNCTION && DATA != LAMBDA && LAMBDA != FUNCTION;
      if Stops(n, i) {
        NothingAfterStop(n, i + 1, i);
      } else {
        DataNamesFromPosition(n, i + 1);
      }
    }
  }

  /** For every name whatever: the arguments are the components of the data sections up to the first
      marked one, in order. */
  lemma DataNamesExactly(n: Name)
    ensures DataNames(n) == ArgumentsFromPosition(n, 0)
  {
    DataNamesFromPosition(n, 0);
    assert !InData(n, 0);
  }

  // ---- Names of the request form ----

  /** A component that the argument scan takes for an argument. */
  predicate Plain(c: Component) {
    c != LAMBDA && c != DATA && c != FUNCTION && !IsMarked(c)
  }

  function RequestName(f: Component, args: seq<Component>): Name {
    [LAMBDA, FUNCTION, f, DATA] + args
  }

  /** Whatever the function is called, the scan finds exactly the arguments, and stops at the
      sequence number that the consumer appends. */
  lemma RequestArguments(f: Component, args: seq<Component>, tail: Name)
    requires (forall a :: a in args ==> Plain(a)) && f != FUNCTION
    requires tail == [] || tail[0].Sequence?
    ensures DataNames(RequestName(f, args) + tail) == args
    ensures FunctionName(RequestName(f, args) + tail) == Some(f)
  {
    var n := RequestName(f, args) + tail;
    assert DataNamesFrom(n, 0, false) == DataNamesFrom(n, 1, false);
    assert DataNamesFrom(n, 1, false) == DataNamesFrom(n, 2, false);
    assert DataNamesFrom(n, 2, false) == DataNamesFrom(n, 3, f == DATA);
    assert DataNamesFrom(n, 3, f == DATA) == DataNamesFrom(n, 4, true);
    ArgumentsFrom(f, args, tail, 0);
    assert FunctionNameFrom(n, 1) == Some(f);
    assert FunctionNameFrom(n, 0) == FunctionNameFrom(n, 1);
  }

  lemma {:induction false} ArgumentsFrom(f: Component, args: seq<Component>, tail: Name, j: nat)
    requires (forall a :: a in args ==> Plain(a)) && j <= |args|
    requires tail == [] || tail[0].Sequence?
    ensures DataNamesFrom(RequestName(f, args) + tail, 4 + j, true) == args[j..]
    decreases |args| - j
  {
    var n := RequestName(f, args) + tail;
    if j < |args| {
      ArgumentsFrom(f, args, tail, j + 1);
      assert n[4 + j] == args[j] && args[j] in args;
      assert args[j..] == [args[j]] + args[j + 1..];
    } else {
      assert args[j..] == [];
      assert tail != [] ==> n[4 + j] == tail[0];
    }
  }
}
