/** The workload generator: functions with signatures, pairwise distinct operands, interest names. */
module Workload {
  import opened Names
  import opened Arithmetic
  import opened Text
  import opened ComputeNodes
  import opened ResolutionEngine

  // ---- The generator; `rands` is what rand() returns, one value after the other ----

  datatype FuncProperties = FuncProperties(name: string, numInputs: nat, inputSignature: string)

  function Operand(k: nat): string { "Operand_" + Digits(k) }

  /** The signature of a function with n inputs alternates two operand types. */
  function SignaturePieces(n: nat): seq<string> {
    if n == 0 then [] else SignaturePieces(n - 1) + [Operand(n % 2)]
  }

  /** The pieces, each followed by a comma. */
  function Listed(ps: seq<string>): string {
    if ps == [] then "" else Listed(ps[..|ps| - 1]) + ps[|ps| - 1] + [',']
  }

  lemma ListedStep(ps: seq<string>, p: string)
    ensures Listed([]) == "" && Listed(ps + [p]) == Listed(ps) + p + [',']
  {
    assert (ps + [p])[..|ps|] == ps;
  }

  /** Dropping the last comma leaves the pieces joined. */
  lemma {:induction false} ListedWithoutLast(ps: seq<string>)
    requires ps != []
    ensures Listed(ps) != "" && Listed(ps)[..|Listed(ps)| - 1] == Join(ps, ',')
  {
    var init, last := ps[..|ps| - 1], ps[|ps| - 1];
    if init == [] {
      assert ps == [last] && Listed(init) == "";
      assert Listed(ps)[..|Listed(ps)| - 1] == last;
    } else {
      ListedWithoutLast(init);
      JoinAppend(init, last, ',');
      assert init + [last] == ps;
      var l := Listed(init);
      assert l == l[..|l| - 1] + [l[|l| - 1]];
      ListedEndsInComma(init);
      assert Listed(ps)[..|Listed(ps)| - 1] == l + last;
    }
  }

  lemma ListedEndsInComma(ps: seq<string>)
    requires ps != []
    ensures Listed(ps) != "" && Listed(ps)[|Listed(ps)| - 1] == ','
  {
  }

  lemma {:induction false} JoinAppend(xs: seq<string>, x: string, c: char)
    requires xs != []
    ensures Join(xs + [x], c) == Join(xs, c) + [c] + x
  {
    if |xs| == 1 {
      assert (xs + [x])[1..] == [x];
    } else {
      JoinAppend(xs[1..], x, c);
      assert (xs + [x])[1..] == xs[1..] + [x];
    }
  }

  function Signature(n: nat): string {
    if n == 0 then "null" else Join(SignaturePieces(n), ',')
  }

  method MakeSignature(n: nat) returns (s: string)
    ensures s == Signature(n)
  {
    if n == 0 { return "null"; }
    s := "";
    for j := 1 to n + 1
      invariant s == Listed(SignaturePieces(j - 1))
    {
      assert SignaturePieces(j)[..|SignaturePieces(j)| - 1] == SignaturePieces(j - 1);
      s := s + Operand(j % 2) + [','];
    }
    ListedWithoutLast(SignaturePieces(n));
    s := s[..|s| - 1];
  }

  /** The random value r reduced to the range from low to high. */
  function InRange(r: nat, low: nat, high: nat): (n: nat)
    requires low <= high
    ensures low <= n <= high
  {
    r % (high - low + 1) + low
  }

  /** The positive input numbers among the drawn ones, in order. */
  function Accepted(rands: seq<nat>, low: nat, high: nat): seq<nat>
    requires low <= high
  {
    if rands == [] then []
    else
      var n := InRange(rands[|rands| - 1], low, high);
      Accepted(rands[..|rands| - 1], low, high) + if n == 0 then [] else [n]
  }

  lemma {:induction false} AcceptedGrows(rands: seq<nat>, low: nat, high: nat, k: nat)
    requires low <= high && k <= |rands|
    ensures Accepted(rands[..k], low, high) <= Accepted(rands, low, high)
  {
    hide InRange;
    if k < |rands| {
      AcceptedGrows(rands[..|rands| - 1], low, high, k);
      assert rands[..|rands| - 1][..k] == rands[..k];
    } else {
      assert rands[..k] == rands;
    }
  }

  lemma AcceptedStep(rands: seq<nat>, low: nat, high: nat, k: nat)
    requires low <= high && k < |rands|
    ensures var n := InRange(rands[k], low, high);
      Accepted(rands[..k + 1], low, high) == Accepted(rands[..k], low, high) + if n == 0 then [] else [n]
  {
    hide InRange;
    assert rands[..k + 1][..k] == rands[..k];
  }

  /** Draws until a function has at least one input, so the functions get the positive numbers
      among the drawn ones, in order; None exactly when those run out. */
  method GenerateFuncList(numFunc: nat, low: nat, high: nat, rands: seq<nat>)
    returns (list: Option<seq<FuncProperties>>)
    requires low <= high
    ensures list.Some? <==> numFunc <= |Accepted(rands, low, high)|
    ensures list.Some? ==>
      && |list.value| == numFunc
      && forall i :: 0 <= i < numFunc ==>
           var n := Accepted(rands, low, high)[i];
           list.value[i] == FuncProperties("func-" + Digits(i), n, Signature(n)) && n >= 1 && low <= n <= high
  {
    hide InRange, Signature, Digits, Accepted;
    var done: seq<FuncProperties> := [];
    var pos := 0;
    AcceptedNothing(rands, low, high);
    for i := 0 to numFunc
      invariant |done| == i && pos <= |rands| && |Accepted(rands[..pos], low, high)| == i
      invariant forall j :: 0 <= j < i ==>
        done[j] == FuncProperties("func-" + Digits(j), Accepted(rands[..pos], low, high)[j], Signature(Accepted(rands[..pos], low, high)[j]))
    {
      var n: nat := 0;
      ghost var before := Accepted(rands[..pos], low, high);
      while n == 0
        invariant pos <= |rands| && Accepted(rands[..pos], low, high) == before + if n == 0 then [] else [n]
        decreases |rands| - pos, n == 0
      {
        if pos == |rands| {
          assert rands[..pos] == rands;
          return None;
        }
        AcceptedStep(rands, low, high, pos);
        n := InRange(rands[pos], low, high);
        pos := pos + 1;
      }
      var signature := MakeSignature(n);
      done := done + [FuncProperties("func-" + Digits(i), n, signature)];
    }
    AcceptedGrows(rands, low, high, pos);
    AcceptedArePositive(rands, low, high);
    list := Some(done);
  }

  lemma {:induction false} AcceptedArePositive(rands: seq<nat>, low: nat, high: nat)
    requires low <= high
    ensures forall i :: 0 <= i < |Accepted(rands, low, high)| ==>
      var n := Accepted(rands, low, high)[i]; n >= 1 && low <= n <= high
  {
    if rands != [] { AcceptedArePositive(rands[..|rands| - 1], low, high); }
  }

  lemma AcceptedNothing(rands: seq<nat>, low: nat, high: nat)
    requires low <= high
    ensures Accepted(rands[..0], low, high) == []
  {
  }

  /** t occurs in s. */
  predicate Contains(s: string, t: string) {
    exists i :: 0 <= i <= |s| && OccursAt(s, t, i)
  }

  predicate OccursAt(s: string, t: string, i: nat) {
    i + |t| <= |s| && s[i..i + |t|] == t
  }

  ghost predicate IsOperand(s: string, numData: nat) {
    exists k: nat :: k <= numData && s == Operand(k)
  }

  ghost predicate PairwiseDistinct(xs: seq<string>) {
    forall i, j :: 0 <= i < j < |xs| ==> xs[i] != xs[j]
  }

  ghost predicate Operands(ops: seq<string>, n: nat, numData: nat) {
    |ops| == n && PairwiseDistinct(ops) && forall i :: 0 <= i < |ops| ==> IsOperand(ops[i], numData)
  }

  lemma {:induction false} ListedContains(ps: seq<string>, i: nat)
    requires i < |ps|
    ensures Contains(Listed(ps), ps[i])
  {
    var init, last := ps[..|ps| - 1], ps[|ps| - 1];
    var s := Listed(ps);
    if i == |ps| - 1 {
      assert OccursAt(s, last, |Listed(init)|);
    } else {
      ListedContains(init, i);
      var k :| 0 <= k <= |Listed(init)| && OccursAt(Listed(init), init[i], k);
      assert s[k..k + |init[i]|] == Listed(init)[k..k + |init[i]|];
      assert OccursAt(s, ps[i], k);
    }
  }

  lemma OperandsAreFree(ops: seq<string>, numData: nat)
    requires forall i :: 0 <= i < |ops| ==> IsOperand(ops[i], numData)
    ensures AllFree(ops, ",/")
  {
    forall i | 0 <= i < |ops| ensures Free(ops[i], ",/") {
      var k: nat :| k <= numData && ops[i] == Operand(k);
      DigitsFree(k, ",/");
    }
  }

  // ---- Rejection sampling ----

  /** The operands that rand() draws. */
  function Drawn(rands: seq<nat>, numData: nat): seq<string> {
    seq(|rands|, i requires 0 <= i < |rands| => Operand(rands[i] % (numData + 1)))
  }

  /** The operands kept, after those of `first`, when each draw that is taken already is rejected. */
  function Kept(first: seq<string>, draws: seq<string>, taken: (seq<string>, string) -> bool): seq<string> {
    if draws == [] then first
    else
      var kept := Kept(first, draws[..|draws| - 1], taken);
      if taken(kept, draws[|draws| - 1]) then kept else kept + [draws[|draws| - 1]]
  }

  lemma {:induction false} KeptGrows(first: seq<string>, draws: seq<string>, taken: (seq<string>, string) -> bool, k: nat)
    requires k <= |draws|
    ensures Kept(first, draws[..k], taken) <= Kept(first, draws, taken)
  {
    if k < |draws| {
      KeptGrows(first, draws[..|draws| - 1], taken, k);
      assert draws[..|draws| - 1][..k] == draws[..k];
    } else {
      assert draws[..k] == draws;
    }
  }

  lemma KeptStep(first: seq<string>, draws: seq<string>, taken: (seq<string>, string) -> bool, k: nat)
    requires k <= |draws|
    ensures k == 0 ==> Kept(first, draws[..k], taken) == first
    ensures k == |draws| ==> draws[..k] == draws
    ensures k < |draws| ==>
      var kept := Kept(first, draws[..k], taken);
      Kept(first, draws[..k + 1], taken) == if taken(kept, draws[k]) then kept else kept + [draws[k]]
  {
    if k < |draws| { assert draws[..k + 1][..k] == draws[..k]; }
  }

  /** An input list refuses an operand that occurs anywhere in its text. */
  function InText(): (seq<string>, string) -> bool { (ops, op) => Contains(Listed(ops), op) }

  function InList(): (seq<string>, string) -> bool { (ops, op) => op in ops }

  lemma TakenMeans(ops: seq<string>, op: string)
    ensures InText()(ops, op) == Contains(Listed(ops), op) && InList()(ops, op) == (op in ops)
  {
  }

  lemma DrawnAt(rands: seq<nat>, numData: nat, k: nat)
    requires k <= |rands|
    ensures |Drawn(rands, numData)| == |rands|
    ensures k < |rands| ==> Drawn(rands, numData)[k] == Operand(rands[k] % (numData + 1))
  {
  }

  lemma {:induction false} KeptAreOperands(rands: seq<nat>, numData: nat)
    ensures var ops := Kept([], Drawn(rands, numData), InText());
      PairwiseDistinct(ops) && forall i :: 0 <= i < |ops| ==> IsOperand(ops[i], numData)
  {
    hide IsOperand, Contains, Operand;
    if rands != [] {
      var init, last := rands[..|rands| - 1], rands[|rands| - 1];
      KeptAreOperands(init, numData);
      assert Drawn(rands, numData)[..|init|] == Drawn(init, numData);
      DrawnAreOperands(rands, numData);
      var ops := Kept([], Drawn(init, numData), InText());
      forall i | 0 <= i < |ops| ensures Contains(Listed(ops), ops[i]) { ListedContains(ops, i); }
    }
  }

  lemma DrawnAreOperands(rands: seq<nat>, numData: nat)
    ensures forall i :: 0 <= i < |rands| ==> IsOperand(Drawn(rands, numData)[i], numData)
  {
  }

  /** The list holds the first operands kept, which are pairwise distinct; None exactly when too
      few are kept. */
  method GenerateInputList(numInputs: nat, numData: nat, rands: seq<nat>) returns (list: Option<string>)
    ensures numInputs == 0 ==> list == Some("null")
    ensures numInputs > 0 ==>
      var ops := Kept([], Drawn(rands, numData), InText());
      && (list.Some? <==> numInputs <= |ops|)
      && (list.Some? ==>
            Split(list.value, ',') == ops[..numInputs] && Operands(Split(list.value, ','), numInputs, numData))
  {
    if numInputs == 0 { return Some("null"); }
    hide Kept, Split, Operand, Contains, Listed, IsOperand, Drawn, PairwiseDistinct, InText;
    ghost var draws := Drawn(rands, numData);
    var s := "";
    ghost var ops: seq<string> := [];
    var pos := 0;
    DrawnAt(rands, numData, 0);
    KeptStep([], draws, InText(), 0);
    ListedStep([], "");
    for j := 1 to numInputs + 1
      invariant pos <= |rands| && s == Listed(ops) && |ops| == j - 1 && ops == Kept([], draws[..pos], InText())
    {
      var operand := "";
      var drawn := false;
      while !drawn || Contains(s, operand)
        invariant pos <= |rands|
        invariant Kept([], draws[..pos], InText()) == if drawn && !Contains(s, operand) then ops + [operand] else ops
        decreases |rands| - pos
      {
        KeptStep([], draws, InText(), pos);
        DrawnAt(rands, numData, pos);
        if pos == |rands| { return None; }
        operand := Operand(rands[pos] % (numData + 1));
        TakenMeans(ops, operand);
        drawn, pos := true, pos + 1;
      }
      ListedStep(ops, operand);
      s := s + operand + [','];
      ops := ops + [operand];
    }
    KeptGrows([], draws, InText(), pos);
    KeptAreOperands(rands, numData);
    InputsJoined(ops, numData);
    list := Some(s[..|s| - 1]);
  }

  /** A list of operands without its last comma splits into them. */
  lemma InputsJoined(ops: seq<string>, numData: nat)
    requires ops != [] && forall i :: 0 <= i < |ops| ==> IsOperand(ops[i], numData)
    ensures Listed(ops) != "" && Split(Listed(ops)[..|Listed(ops)| - 1], ',') == ops
  {
    hide IsOperand, Split, Free;
    ListedWithoutLast(ops);
    OperandsAreFree(ops, numData);
    forall i | 0 <= i < |ops| ensures Free(ops[i], ",") { FreeLess(ops[i], ",/", ","); }
    SplitJoin(ops, ',');
  }

  /** Adds the first new names kept, none of them twice; None exactly when too few are kept. */
  method GenerateProvidedData(provided: seq<string>, numData: nat, rands: seq<nat>)
    returns (list: Option<seq<string>>)
    ensures var names := Kept(provided, Drawn(rands, numData), InList());
      list == if |provided| + numData <= |names| then Some(names[..|provided| + numData]) else None
  {
    hide Kept, Operand, Drawn, InList;
    ghost var draws := Drawn(rands, numData);
    var done := provided;
    var pos := 0;
    DrawnAt(rands, numData, 0);
    KeptStep(provided, draws, InList(), 0);
    for i := 0 to numData
      invariant pos <= |rands| && |done| == |provided| + i && done == Kept(provided, draws[..pos], InList())
    {
      var name := "";
      var drawn := false;
      while !drawn || name in done
        invariant pos <= |rands|
        invariant Kept(provided, draws[..pos], InList()) == if drawn && name !in done then done + [name] else done
        decreases |rands| - pos
      {
        KeptStep(provided, draws, InList(), pos);
        DrawnAt(rands, numData, pos);
        if pos == |rands| { return None; }
        name := Operand(rands[pos] % (numData + 1));
        TakenMeans(done, name);
        drawn, pos := true, pos + 1;
      }
      done := done + [name];
    }
    KeptGrows(provided, draws, InList(), pos);
    assert Kept(provided, draws, InList())[..|done|] == done;
    list := Some(done);
  }

  /** What is kept extends what was there without repetition, and holds every operand drawn. */
  lemma {:induction false} KeptNames(first: seq<string>, draws: seq<string>)
    requires PairwiseDistinct(first)
    ensures var names := Kept(first, draws, InList());
      first <= names && PairwiseDistinct(names) && forall x :: x in names <==> x in first || x in draws
  {
    if draws != [] {
      var init, last := draws[..|draws| - 1], draws[|draws| - 1];
      KeptNames(first, init);
      assert draws == init + [last];
      var kept, names := Kept(first, init, InList()), Kept(first, draws, InList());
      assert names == if last in kept then kept else kept + [last];
      forall x ensures x in names <==> x in first || x in draws {
        assert x in names <==> x in kept || x == last;
        assert x in draws <==> x in init || x == last;
      }
    }
  }

  // ---- The interest prefix ----

  function OperandPath(ps: seq<string>, isFirst: bool): string {
    if ps == [] || ps[0] == "null" then ""
    else (if isFirst then "/Data" else "") + ['/'] + ps[0] + OperandPath(ps[1..], false)
  }

  function FirstPrefix(func: string, inputs: string): string {
    "/lambda/Function/" + func + OperandPath(Split(inputs, ','), true)
  }

  method GenerateFuncFirstPrefix(func: string, inputsList: string) returns (prefix: string)
    ensures prefix == FirstPrefix(func, inputsList)
  {
    prefix := "/lambda/Function/" + func;
    var inputs := Split(inputsList, ',');
    for i := 0 to |inputs|
      invariant prefix + OperandPath(inputs[i..], i == 0) == FirstPrefix(func, inputsList)
    {
      assert inputs[i..][0] == inputs[i] && inputs[i..][1..] == inputs[i + 1..];
      if inputs[i] == "null" { return; }
      if i == 0 { prefix := prefix + "/Data"; }
      prefix := prefix + ['/'] + inputs[i];
    }
  }

  /** The reader counts the pieces of a signature. */
  function ParamNumber(signature: string): nat {
    if signature == "null" then 0 else |Split(signature, ',')|
  }

  // ---- From the generator to the engine ----

  lemma {:induction false} SignatureCounts(n: nat)
    ensures |SignaturePieces(n)| == n && AllFree(SignaturePieces(n), ",")
  {
    if n > 0 {
      SignatureCounts(n - 1);
      DigitsFree(n % 2, ",");
      FreeConcat("Operand_", Digits(n % 2), ",");
    }
  }

  /** The reader recovers from a signature the number of inputs it was made for. */
  lemma SignatureRoundTrip(n: nat)
    ensures ParamNumber(Signature(n)) == n
  {
    if n > 0 {
      SignatureCounts(n);
      SplitJoin(SignaturePieces(n), ',');
      SplitFree("null", ',');
      assert Signature(n)[0] == 'O' by { SignatureStarts(n); }
    }
  }

  lemma {:induction false} SignatureStarts(n: nat)
    requires n > 0
    ensures Signature(n) != "" && Signature(n)[0] == 'O'
  {
    var ps := SignaturePieces(n);
    SignatureCounts(n);
    FirstPieceStarts(n);
    assert Join(ps, ',')[0] == ps[0][0];
  }

  lemma {:induction false} FirstPieceStarts(n: nat)
    requires n > 0
    ensures SignaturePieces(n) != [] && SignaturePieces(n)[0] != "" && SignaturePieces(n)[0][0] == 'O'
  {
    if n > 1 { FirstPieceStarts(n - 1); }
  }

  lemma OperandIsNotNull(op: string, numData: nat)
    requires IsOperand(op, numData)
    ensures op != "null"
  {
    assert op[0] == 'O' && "null"[0] == 'n';
  }

  lemma {:induction false} OperandPathIsPath(ops: seq<string>, numData: nat)
    requires forall i :: 0 <= i < |ops| ==> IsOperand(ops[i], numData)
    ensures OperandPath(ops, false) == SlashText(ops)
    ensures ops != [] ==> OperandPath(ops, true) == "/Data" + SlashText(ops)
  {
    hide IsOperand;
    if ops != [] {
      assert forall i :: 0 <= i < |ops| - 1 ==> ops[1..][i] == ops[i + 1];
      OperandPathIsPath(ops[1..], numData);
      OperandIsNotNull(ops[0], numData);
      assert "" + ['/'] + ops[0] == ['/'] + ops[0];
      assert "/Data" + ['/'] + ops[0] + SlashText(ops[1..]) == "/Data" + (['/'] + ops[0] + SlashText(ops[1..]));
    }
  }

  lemma FunctionNameFree(k: nat)
    ensures Free("func-" + Digits(k), "/") && Generic("func-" + Digits(k)) != FUNCTION
  {
    DigitsFree(k, "/");
    assert ("func-" + Digits(k))[0] == 'f' && "Function"[0] == 'F';
  }

  lemma OperandIsPlain(op: string, numData: nat)
    requires IsOperand(op, numData)
    ensures Plain(Generic(op))
  {
    assert op[0] == 'O' && "lambda"[0] == 'l' && "Data"[0] == 'D' && "Function"[0] == 'F' && "%FE"[0] == '%';
  }

  function Arguments(ops: seq<string>): seq<Component> { GenericName(ops) }

  /** The prefix of a generated request is the name that asks for the function with its operands. */
  lemma PrefixParses(k: nat, inputs: string, n: nat, numData: nat)
    requires n > 0 && Operands(Split(inputs, ','), n, numData)
    ensures ParseName(FirstPrefix("func-" + Digits(k), inputs)) ==
      RequestName(Generic("func-" + Digits(k)), Arguments(Split(inputs, ',')))
  {
    var func, ops := "func-" + Digits(k), Split(inputs, ',');
    var head := ["lambda", "Function", func, "Data"];
    hide Split, Digits, IsOperand, SlashText, OperandPath, Free;
    OperandPathIsPath(ops, numData);
    SlashAppend(head, ops);
    HeadIsPath(func);
    PiecesAreFree(k, ops, numData);
    PathParses(head + ops);
    GenericNameAt(head + ops);
    GenericNameAt(ops);
    var q := "/lambda/Function/" + func;
    assert q + ("/Data" + SlashText(ops)) == q + "/Data" + SlashText(ops);
    assert GenericName(head + ops) == RequestName(Generic(func), Arguments(ops));
  }

  lemma HeadIsPath(func: string)
    ensures SlashText(["lambda", "Function", func, "Data"]) == "/lambda/Function/" + func + "/Data"
  {
    hide SlashText;
    SlashCons("Data", []);
    assert ["Data"] + [] == ["Data"];
    SlashCons(func, ["Data"]);
    assert [func] + ["Data"] == [func, "Data"];
    SlashCons("Function", [func, "Data"]);
    assert ["Function"] + [func, "Data"] == ["Function", func, "Data"];
    SlashCons("lambda", ["Function", func, "Data"]);
    assert ["lambda"] + ["Function", func, "Data"] == ["lambda", "Function", func, "Data"];
    assert ['/'] + "Data" + "" == "/Data";
    assert ['/'] + "Function" + (['/'] + func + "/Data") == "/Function/" + (func + "/Data");
    assert ['/'] + "lambda" + ("/Function/" + (func + "/Data")) == "/lambda/Function/" + func + "/Data";
  }

  lemma PiecesAreFree(k: nat, ops: seq<string>, numData: nat)
    requires forall i :: 0 <= i < |ops| ==> IsOperand(ops[i], numData)
    ensures AllFree(["lambda", "Function", "func-" + Digits(k), "Data"] + ops, "/")
  {
    hide Digits, IsOperand;
    FunctionNameFree(k);
    OperandsAreFree(ops, numData);
    forall i | 0 <= i < |ops| ensures Free(ops[i], "/") { FreeLess(ops[i], ",/", "/"); }
  }

  /** From generator to decision: the engine finds in the name of a generated request, sequence
      number included, exactly the function and the operands that were drawn, and a node that
      installed the function from its signature never rejects it for its number of arguments. */
  lemma GeneratedRequestFits(k: nat, n: nat, inputs: string, numData: nat, seqNo: nat, node: NodeState, cs: set<Name>)
    requires n > 0 && Operands(Split(inputs, ','), n, numData)
    requires var f := Generic("func-" + Digits(k));
      f in node.functions && node.functions[f].paramNumber == ParamNumber(Signature(n))
    ensures var name := ParseName(FirstPrefix("func-" + Digits(k), inputs)) + [Sequence(seqNo)];
      && FunctionName(name) == Some(Generic("func-" + Digits(k)))
      && DataNames(name) == Arguments(Split(inputs, ','))
      && |DataNames(name)| == n
      && Decide(node, name, cs).0 != NACK
  {
    hide Split, Digits, Signature, ParamNumber, FirstPrefix;
    var f, ops := Generic("func-" + Digits(k)), Split(inputs, ',');
    var name := ParseName(FirstPrefix("func-" + Digits(k), inputs)) + [Sequence(seqNo)];
    PrefixParses(k, inputs, n, numData);
    FunctionNameFree(k);
    GenericNameAt(ops);
    forall a | a in Arguments(ops) ensures Plain(a) {
      var i :| 0 <= i < |ops| && Arguments(ops)[i] == a;
      OperandIsPlain(ops[i], numData);
    }
    RequestArguments(f, Arguments(ops), [Sequence(seqNo)]);
    SignatureRoundTrip(n);
    DecisionIsSound(node, name, cs);
  }

  /** Each number of the range is what some draws reduce to, period by period. */
  lemma InRangeExactly(k: nat, periods: nat, low: nat, high: nat)
    requires low <= k <= high
    ensures InRange(k - low + periods * (high - low + 1), low, high) == k
  {
    ModOfBlock(periods, high - low + 1, k - low);
  }

  /** The inputs of a signature alternate between the operands of 1 and of 0, beginning with 1. */
  lemma SignatureAlternates(n: nat)
    requires n > 0
    ensures |Split(Signature(n), ',')| == n
    ensures forall i :: 0 <= i < n ==> Split(Signature(n), ',')[i] == if i % 2 == 0 then "Operand_1" else "Operand_0"
  {
    SignatureCounts(n);
    SplitJoin(SignaturePieces(n), ',');
    PiecesAlternate(n);
  }

  lemma {:induction false} PiecesAlternate(n: nat)
    ensures |SignaturePieces(n)| == n
    ensures forall i :: 0 <= i < n ==> SignaturePieces(n)[i] == if i % 2 == 0 then "Operand_1" else "Operand_0"
  {
    if n > 0 {
      PiecesAlternate(n - 1);
      assert Operand(1) == "Operand_1" && Operand(0) == "Operand_0";
    }
  }

  /** A request without inputs has no data section. */
  lemma NoInputs(k: nat)
    ensures FirstPrefix("func-" + Digits(k), "null") == "/lambda/Function/" + ("func-" + Digits(k))
  {
    SplitFree("null", ',');
  }
}
