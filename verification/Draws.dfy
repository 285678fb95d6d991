/** Rejection sampling: when the generators, which draw until something new comes, can finish. */
module Draws {
  import opened Text
  import opened Workload

  // ---- Which operand occurs in which text ----

  /** The digits of m begin with the digits of k. */
  predicate Extends(m: nat, k: nat) {
    m == k || (m >= 10 && Extends(m / 10, k))
  }

  lemma {:induction false} ExtendsIsPrefix(m: nat, k: nat)
    ensures Extends(m, k) <==> Digits(k) <= Digits(m)
  {
    DigitsAreDigits(k);
    DigitsInjective(m, k);
    if m >= 10 {
      ExtendsIsPrefix(m / 10, k);
      var s, t := Digits(k), Digits(m / 10);
      assert Digits(m)[..|t|] == t && |Digits(m)| == |t| + 1;
      if s <= Digits(m) && |s| == |Digits(m)| { assert s == Digits(m); }
    }
  }

  function Named(ns: seq<nat>): seq<string> {
    seq(|ns|, i requires 0 <= i < |ns| => Operand(ns[i]))
  }

  /** Some kept number begins with the digits of k. */
  predicate Blocks(kept: seq<nat>, k: nat) {
    exists i :: 0 <= i < |kept| && Extends(kept[i], k)
  }

  lemma OperandShape(k: nat)
    ensures var s := Operand(k);
      && |s| == 8 + |Digits(k)| && |Digits(k)| > 0 && s[8..] == Digits(k) && s[..8] == "Operand_" && s[0] == 'O'
      && Free(s, ",") && forall i :: 1 <= i < |s| ==> s[i] != 'O'
  {
    DigitsAreDigits(k);
    var s := Operand(k);
    assert s[..8] == "Operand_" && s[8..] == Digits(k);
    forall i | 0 <= i < |s| ensures s[i] != ',' && (i > 0 ==> s[i] != 'O') {
      if i >= 8 { assert s[i] == Digits(k)[i - 8] && IsDigit(s[i]); } else { assert s[i] == "Operand_"[i]; }
    }
  }

  lemma OperandPrefix(m: nat, k: nat)
    ensures Operand(k) <= Operand(m) <==> Extends(m, k)
  {
    OperandShape(m);
    OperandShape(k);
    ExtendsIsPrefix(m, k);
    var s, t := Operand(m), Operand(k);
    if t <= s { assert s[8..][..|Digits(k)|] == s[..|t|][8..] == Digits(k); }
    if Digits(k) <= Digits(m) { assert s[..|t|] == "Operand_" + Digits(m)[..|Digits(k)|]; }
  }

  lemma CommaOutside(text: string, t: string, i: nat, j: nat)
    requires OccursAt(text, t, i) && Free(t, ",") && i <= j < |text| && text[j] == ','
    ensures i + |t| <= j
  {
    forall m {:trigger text[m]} | i <= m < i + |t| ensures text[m] != ',' {
      assert text[m] == text[i..i + |t|][m - i] == t[m - i];
    }
  }

  /** After l, t begins inside s only at its start: s has no other capital. */
  lemma FoundMeans(l: string, s: string, t: string, i: nat)
    requires OccursAt(l + s + [','], t, i) && t != "" && t[0] == 'O' && Free(t, ",")
    requires (forall j :: 1 <= j < |s| ==> s[j] != 'O') && (l != "" ==> l[|l| - 1] == ',')
    ensures OccursAt(l, t, i) || t <= s
  {
    var text := l + s + [','];
    assert text[i] == text[i..i + |t|][0] == 'O';
    if i < |l| {
      CommaOutside(text, t, i, |l| - 1);
      assert l[i..i + |t|] == text[i..i + |t|];
    } else {
      assert i == |l|;
      CommaOutside(text, t, i, |l| + |s|);
      assert s[..|t|] == text[i..i + |t|];
    }
  }

  lemma FoundIn(l: string, s: string, t: string, i: nat)
    requires OccursAt(l, t, i) || (i == |l| && t <= s)
    ensures OccursAt(l + s + [','], t, i)
  {
    var text := l + s + [','];
    if OccursAt(l, t, i) {
      assert text[i..i + |t|] == l[i..i + |t|];
    } else {
      assert text[i..i + |t|] == s[..|t|];
    }
  }

  /** In a listed text extended by one operand, an operand occurs before the end or begins there. */
  lemma OccursInLast(ps: seq<string>, m: nat, k: nat)
    ensures var text := Listed(ps) + Operand(m) + [','];
      Contains(text, Operand(k)) <==> Contains(Listed(ps), Operand(k)) || Operand(k) <= Operand(m)
  {
    hide Operand, Listed, OccursAt;
    var l, s, t := Listed(ps), Operand(m), Operand(k);
    OperandShape(m);
    OperandShape(k);
    ListedStep([], "");
    if ps != [] { ListedEndsInComma(ps); }
    if i :| 0 <= i <= |l + s + [',']| && OccursAt(l + s + [','], t, i) {
      FoundMeans(l, s, t, i);
      if !(t <= s) { OccursInside(l, t, i); }
    }
    if i :| 0 <= i <= |l| && OccursAt(l, t, i) { FoundIn(l, s, t, i); }
    if t <= s { FoundIn(l, s, t, |l|); }
  }

  lemma OccursInside(l: string, t: string, i: nat)
    requires OccursAt(l, t, i)
    ensures Contains(l, t)
  {
  }

  /** An operand occurs in the text of a list exactly when a listed number begins with its digits. */
  lemma {:induction false} OccursExactly(ns: seq<nat>, k: nat)
    ensures Contains(Listed(Named(ns)), Operand(k)) <==> Blocks(ns, k)
  {
    hide Contains, Operand, Extends;
    if ns == [] {
      OperandShape(k);
      NothingOccurs(k);
    } else {
      var init, last := ns[..|ns| - 1], ns[|ns| - 1];
      OccursExactly(init, k);
      ListedStep(Named(init), Operand(last));
      assert Named(ns) == Named(init) + [Operand(last)];
      OccursInLast(Named(init), last, k);
      OperandPrefix(last, k);
      assert Blocks(ns, k) <==> Blocks(init, k) || Extends(last, k) by {
        assert ns == init + [last];
        if Extends(last, k) { assert Extends(ns[|ns| - 1], k); }
        if i :| 0 <= i < |init| && Extends(init[i], k) { assert Extends(ns[i], k); }
      }
    }
  }

  lemma NothingOccurs(k: nat)
    ensures !Contains("", Operand(k))
  {
  }

  // ---- The kept numbers ----

  function KeptNumbers(rands: seq<nat>, numData: nat): seq<nat> {
    if rands == [] then []
    else
      var kept := KeptNumbers(rands[..|rands| - 1], numData);
      var k := rands[|rands| - 1] % (numData + 1);
      if Blocks(kept, k) then kept else kept + [k]
  }

  lemma {:induction false} KeptAreNumbers(rands: seq<nat>, numData: nat)
    ensures Kept([], Drawn(rands, numData), InText()) == Named(KeptNumbers(rands, numData))
  {
    hide Contains, Operand, Blocks, Listed;
    if rands != [] {
      var init, k := rands[..|rands| - 1], rands[|rands| - 1] % (numData + 1);
      KeptAreNumbers(init, numData);
      assert Drawn(rands, numData)[..|init|] == Drawn(init, numData);
      OccursExactly(KeptNumbers(init, numData), k);
      assert Named(KeptNumbers(init, numData) + [k]) == Named(KeptNumbers(init, numData)) + [Operand(k)];
    }
  }

  ghost predicate InRangeDistinct(ns: seq<nat>, numData: nat) {
    (forall i :: 0 <= i < |ns| ==> ns[i] <= numData) && forall i, j :: 0 <= i < j < |ns| ==> ns[i] != ns[j]
  }

  lemma {:induction false} KeptInRange(rands: seq<nat>, numData: nat)
    ensures InRangeDistinct(KeptNumbers(rands, numData), numData)
  {
    if rands != [] {
      var kept, k := KeptNumbers(rands[..|rands| - 1], numData), rands[|rands| - 1] % (numData + 1);
      KeptInRange(rands[..|rands| - 1], numData);
      forall i | 0 <= i < |kept| && kept[i] == k ensures Blocks(kept, k) { assert Extends(kept[i], k); }
    }
  }

  lemma {:induction false} Pigeonhole<T>(xs: seq<T>, ys: seq<T>)
    requires forall i, j :: 0 <= i < j < |xs| ==> xs[i] != xs[j]
    requires forall x :: x in xs ==> x in ys
    ensures |xs| <= |ys|
  {
    if xs != [] {
      assert xs[0] in ys;
      var i :| 0 <= i < |ys| && ys[i] == xs[0];
      var rest := ys[..i] + ys[i + 1..];
      forall x | x in xs[1..] ensures x in rest {
        assert x in ys && x != xs[0];
        var k :| 0 <= k < |ys| && ys[k] == x;
        assert rest[if k < i then k else k - 1] == x;
      }
      Pigeonhole(xs[1..], rest);
    }
  }

  // ---- Numbers that nothing in range extends ----

  predicate IsLeaf(k: nat, numData: nat) {
    k <= numData && (k == 0 || 10 * k > numData)
  }

  /** 0, and everything above a tenth of the range. */
  function Leaves(numData: nat): (r: seq<nat>)
    ensures |r| == numData + 1 - numData / 10
  {
    [0] + seq(numData - numData / 10, i requires 0 <= i < numData - numData / 10 => numData / 10 + 1 + i)
  }

  lemma LeavesAreLeaves(numData: nat)
    ensures InRangeDistinct(Leaves(numData), numData)
    ensures forall k :: k in Leaves(numData) <==> k >= 0 && IsLeaf(k, numData)
  {
    forall k: nat | IsLeaf(k, numData) ensures k in Leaves(numData) {
      assert k > 0 ==> Leaves(numData)[k - numData / 10] == k;
    }
  }

  lemma {:induction false} ExtensionsAreLarge(m: nat, k: nat)
    requires Extends(m, k) && m != k
    ensures k >= 1 && m >= 10 * k
  {
    if m / 10 != k { ExtensionsAreLarge(m / 10, k); }
  }

  lemma {:induction false} ExtendsTenfold(m: nat, k: nat)
    requires k >= 1 && Extends(m, 10 * k)
    ensures Extends(m, k)
  {
    if m != 10 * k { ExtendsTenfold(m / 10, k); } else { assert m / 10 == k && Extends(k, k); }
  }

  lemma {:induction false} SomeLeafExtends(k: nat, numData: nat) returns (m: nat)
    requires k <= numData
    ensures IsLeaf(m, numData) && Extends(m, k)
    decreases numData - k
  {
    if IsLeaf(k, numData) {
      m := k;
    } else {
      m := SomeLeafExtends(10 * k, numData);
      ExtendsTenfold(m, k);
    }
  }

  // ---- Getting stuck ----

  /** Every operand that can be drawn occurs in the text already. */
  ghost predicate Stuck(ops: seq<string>, numData: nat) {
    forall k :: 0 <= k <= numData ==> Contains(Listed(ops), Operand(k))
  }

  ghost predicate AllBlocked(ns: seq<nat>, numData: nat) {
    forall k: nat :: k <= numData ==> Blocks(ns, k)
  }

  lemma StuckMeansBlocked(ns: seq<nat>, numData: nat)
    ensures Stuck(Named(ns), numData) <==> AllBlocked(ns, numData)
  {
    hide Contains, Operand, Blocks, Listed;
    forall k: nat ensures Contains(Listed(Named(ns)), Operand(k)) <==> Blocks(ns, k) { OccursExactly(ns, k); }
    if AllBlocked(ns, numData) {
      forall k | 0 <= k <= numData ensures Contains(Listed(Named(ns)), Operand(k)) { assert Blocks(ns, k); }
    }
  }

  /** Each leaf is blocked only by itself, so a stuck list holds them all. */
  lemma StuckHoldsLeaves(ns: seq<nat>, numData: nat)
    requires InRangeDistinct(ns, numData) && AllBlocked(ns, numData)
    ensures |ns| >= numData + 1 - numData / 10
  {
    LeavesAreLeaves(numData);
    forall k | k in Leaves(numData) ensures k in ns {
      assert Blocks(ns, k);
      var i :| 0 <= i < |ns| && Extends(ns[i], k);
      if ns[i] != k { ExtensionsAreLarge(ns[i], k); }
    }
    Pigeonhole(Leaves(numData), ns);
  }

  lemma {:induction false} LeavesAreKept(numData: nat, j: nat)
    requires j <= |Leaves(numData)|
    ensures KeptNumbers(Leaves(numData)[..j], numData) == Leaves(numData)[..j]
  {
    var ls := Leaves(numData);
    hide Leaves, Blocks;
    if j > 0 {
      LeavesAreKept(numData, j - 1);
      LeafIsNotBlocked(numData, j - 1);
      assert ls[..j][..j - 1] == ls[..j - 1] && ls[..j] == ls[..j - 1] + [ls[j - 1]];
    } else {
      assert ls[..0] == [];
    }
  }

  lemma LeafIsNotBlocked(numData: nat, j: nat)
    requires j < |Leaves(numData)|
    ensures var ls := Leaves(numData); !Blocks(ls[..j], ls[j]) && ls[j] % (numData + 1) == ls[j]
  {
    hide Leaves, Extends;
    var ls := Leaves(numData);
    LeavesAreLeaves(numData);
    assert ls[j] in ls;
    forall i | 0 <= i < j ensures !Extends(ls[..j][i], ls[j]) {
      assert ls[i] in ls;
      if Extends(ls[i], ls[j]) { ExtensionsAreLarge(ls[i], ls[j]); }
    }
    SmallRemainder(ls[j], numData);
  }

  lemma SmallRemainder(k: nat, numData: nat)
    requires k <= numData
    ensures k % (numData + 1) == k
  {
  }

  lemma LeavesBlockAll(numData: nat)
    ensures AllBlocked(Leaves(numData), numData)
  {
    LeavesAreLeaves(numData);
    forall k: nat | k <= numData ensures Blocks(Leaves(numData), k) {
      var m := SomeLeafExtends(k, numData);
      assert m in Leaves(numData);
    }
  }

  lemma {:induction false} StuckForever(rands: seq<nat>, more: seq<nat>, numData: nat)
    requires AllBlocked(KeptNumbers(rands, numData), numData)
    ensures KeptNumbers(rands + more, numData) == KeptNumbers(rands, numData)
  {
    hide Blocks;
    if more == [] {
      assert rands + more == rands;
    } else {
      var init := more[..|more| - 1];
      StuckForever(rands, init, numData);
      assert (rands + more)[..|rands + more| - 1] == rands + init;
    }
  }

  /** The list can still get as long as asked for. */
  ghost predicate CanFinish(rands: seq<nat>, numInputs: nat, numData: nat) {
    exists more: seq<nat> :: InputsReach(rands, more, numInputs, numData)
  }

  ghost predicate InputsReach(rands: seq<nat>, more: seq<nat>, numInputs: nat, numData: nat) {
    numInputs <= |Kept([], Drawn(rands + more, numData), InText())|
  }

  lemma KeepsUnblocked(rands: seq<nat>, k: nat, numData: nat)
    requires k <= numData && !Blocks(KeptNumbers(rands, numData), k)
    ensures KeptNumbers(rands + [k], numData) == KeptNumbers(rands, numData) + [k]
  {
    hide Blocks;
    assert (rands + [k])[..|rands|] == rands;
    SmallRemainder(k, numData);
  }

  lemma {:induction false} Finishes(rands: seq<nat>, numInputs: nat, numData: nat) returns (more: seq<nat>)
    requires numInputs <= numData + 1 - numData / 10
    ensures numInputs <= |KeptNumbers(rands + more, numData)|
    decreases numInputs - |KeptNumbers(rands, numData)|
  {
    hide Blocks, KeptNumbers, InRangeDistinct;
    var kept := KeptNumbers(rands, numData);
    if numInputs <= |kept| {
      more := [];
      assert rands + more == rands;
    } else {
      KeptInRange(rands, numData);
      if AllBlocked(kept, numData) { StuckHoldsLeaves(kept, numData); }
      var k: nat :| k <= numData && !Blocks(kept, k);
      KeepsUnblocked(rands, k, numData);
      var rest := Finishes(rands + [k], numInputs, numData);
      more := [k] + rest;
      assert rands + more == rands + [k] + rest;
    }
  }

  /** Whatever has been drawn, the generator of input lists can finish, exactly when it is asked for
      no more operands than there are numbers in range that no other one in range extends. */
  lemma InputListFinishesExactly(numInputs: nat, numData: nat)
    ensures (forall rands :: CanFinish(rands, numInputs, numData)) <==> numInputs <= numData + 1 - numData / 10
  {
    hide Kept, Drawn, KeptNumbers;
    if numInputs <= numData + 1 - numData / 10 {
      forall rands ensures CanFinish(rands, numInputs, numData) {
        var more := Finishes(rands, numInputs, numData);
        KeptAreNumbers(rands + more, numData);
        assert InputsReach(rands, more, numInputs, numData);
      }
    } else {
      LeavesStick(numInputs, numData);
    }
  }

  /** The failing input: once exactly the leaves have been drawn, nothing is ever kept again. */
  lemma LeavesStick(numInputs: nat, numData: nat)
    requires numInputs > numData + 1 - numData / 10
    ensures !CanFinish(Leaves(numData), numInputs, numData)
    ensures Stuck(Kept([], Drawn(Leaves(numData), numData), InText()), numData)
  {
    hide Kept, Drawn, Leaves, InText;
    var ls := Leaves(numData);
    assert ls[..|ls|] == ls;
    LeavesAreKept(numData, |ls|);
    LeavesBlockAll(numData);
    KeptAreNumbers(ls, numData);
    StuckMeansBlocked(ls, numData);
    forall more: seq<nat> ensures !InputsReach(ls, more, numInputs, numData) {
      StuckForever(ls, more, numData);
      KeptAreNumbers(ls + more, numData);
    }
  }

  /** The same in terms of the text: no list that is too short is stuck, for any random values. */
  lemma NeverStuckExactly(numInputs: nat, numData: nat)
    ensures (forall rands :: var ops := Kept([], Drawn(rands, numData), InText());
               |ops| < numInputs ==> !Stuck(ops, numData))
            <==> numInputs <= numData + 1 - numData / 10
  {
    hide Kept, Drawn, KeptNumbers, Stuck, Leaves, InText;
    if numInputs <= numData + 1 - numData / 10 {
      forall rands ensures var ops := Kept([], Drawn(rands, numData), InText());
          |ops| < numInputs ==> !Stuck(ops, numData)
      {
        var ns := KeptNumbers(rands, numData);
        KeptAreNumbers(rands, numData);
        KeptInRange(rands, numData);
        StuckMeansBlocked(ns, numData);
        if AllBlocked(ns, numData) { StuckHoldsLeaves(ns, numData); }
      }
    } else {
      LeavesStick(numInputs, numData);
      var ops := Kept([], Drawn(Leaves(numData), numData), InText());
      assert !InputsReach(Leaves(numData), [], numInputs, numData) && Leaves(numData) + [] == Leaves(numData);
      assert |ops| < numInputs && Stuck(ops, numData);
    }
  }

  /** Eleven distinct operands exist for numbers up to 10, but after a first draw of 10, the
      operand of 1 is refused for ever. */
  lemma TenRefusesOne(more: seq<nat>)
    ensures |Kept([], Drawn([10] + more, 10), InText())| < 11
  {
    hide Kept, Drawn, InText;
    var ns := KeptNumbers([10] + more, 10);
    KeptAreNumbers([10] + more, 10);
    KeptInRange([10] + more, 10);
    TenStays(more);
    var allowed := [0, 2, 3, 4, 5, 6, 7, 8, 9, 10];
    forall k | k in ns ensures k in allowed {
      var i :| 0 <= i < |ns| && ns[i] == k;
      assert k != 1 && k <= 10;
      assert allowed[if k == 0 then 0 else k - 1] == k;
    }
    Pigeonhole(ns, allowed);
  }

  lemma {:induction false} TenStays(more: seq<nat>)
    ensures var ns := KeptNumbers([10] + more, 10); ns != [] && ns[0] == 10 && 1 !in ns
  {
    if more == [] {
      assert [10] + more == [10] && [10][..0] == [];
      assert KeptNumbers([10][..0], 10) == [] && !Blocks([], 10);
      assert KeptNumbers([10], 10) == [10];
    } else {
      var init := more[..|more| - 1];
      TenStays(init);
      assert ([10] + more)[..|more|] == [10] + init;
      var ns := KeptNumbers([10] + init, 10);
      assert Extends(1, 1) && Extends(10, 1) && Extends(ns[0], 1);
      assert Blocks(ns, 1);
    }
  }

  // ---- The other two generators ----

  ghost predicate FuncsReach(rands: seq<nat>, more: seq<nat>, numFunc: nat, low: nat, high: nat)
    requires low <= high
  {
    numFunc <= |Accepted(rands + more, low, high)|
  }

  lemma AcceptedOne(rands: seq<nat>, low: nat, high: nat)
    requires low <= high && high > 0
    ensures Accepted(rands + [high - low], low, high) == Accepted(rands, low, high) + [high]
  {
    SmallRemainder(high - low, high - low);
    assert InRange(high - low, low, high) == high;
    assert (rands + [high - low])[..|rands|] == rands;
  }

  lemma {:induction false} NothingAccepted(rands: seq<nat>)
    ensures Accepted(rands, 0, 0) == []
  {
    if rands != [] { NothingAccepted(rands[..|rands| - 1]); }
  }

  lemma {:induction false} AcceptsEnough(rands: seq<nat>, numFunc: nat, low: nat, high: nat) returns (more: seq<nat>)
    requires low <= high && high > 0
    ensures FuncsReach(rands, more, numFunc, low, high)
    decreases numFunc
  {
    hide Accepted;
    if numFunc == 0 {
      more := [];
    } else {
      var rest := AcceptsEnough(rands, numFunc - 1, low, high);
      AcceptedOne(rands + rest, low, high);
      more := rest + [high - low];
      assert rands + more == rands + rest + [high - low];
    }
  }

  ghost predicate FuncsCanFinish(rands: seq<nat>, numFunc: nat, low: nat, high: nat)
    requires low <= high
  {
    exists more :: FuncsReach(rands, more, numFunc, low, high)
  }

  lemma NoFuncsNeeded(rands: seq<nat>, low: nat, high: nat)
    requires low <= high
    ensures FuncsCanFinish(rands, 0, low, high)
  {
    assert FuncsReach(rands, [], 0, low, high);
  }

  lemma NoFuncsFound(more: seq<nat>, numFunc: nat)
    requires numFunc > 0
    ensures !FuncsReach([], more, numFunc, 0, 0)
  {
    NothingAccepted([] + more);
  }

  /** The generator of functions can finish exactly when some function may have an input. */
  lemma FuncListFinishesExactly(numFunc: nat, low: nat, high: nat)
    requires low <= high
    ensures (forall rands :: FuncsCanFinish(rands, numFunc, low, high)) <==> numFunc == 0 || high > 0
  {
    hide Accepted, FuncsReach;
    if numFunc == 0 {
      forall rands ensures FuncsCanFinish(rands, numFunc, low, high) { NoFuncsNeeded(rands, low, high); }
    } else if high > 0 {
      forall rands ensures FuncsCanFinish(rands, numFunc, low, high) {
        var more := AcceptsEnough(rands, numFunc, low, high);
      }
    } else {
      forall more ensures !FuncsReach([], more, numFunc, low, high) { NoFuncsFound(more, numFunc); }
      assert !FuncsCanFinish([], numFunc, low, high);
    }
  }

  /** The operands up to number k that are not among these. */
  function Unused(provided: seq<string>, k: nat): seq<string>
    decreases k
  {
    (if k == 0 then [] else Unused(provided, k - 1)) + if Operand(k) in provided then [] else [Operand(k)]
  }

  lemma OperandInjective(m: nat, k: nat)
    ensures Operand(m) == Operand(k) ==> m == k
  {
    OperandShape(m);
    OperandShape(k);
    DigitsInjective(m, k);
  }

  lemma OperandUpTo(x: string, k: nat)
    ensures IsOperand(x, k) <==> x == Operand(k) || (k > 0 && IsOperand(x, k - 1))
  {
    if j: nat :| j <= k && x == Operand(j) { assert j < k ==> IsOperand(x, k - 1); }
    if k > 0 && IsOperand(x, k - 1) {
      var j: nat :| j <= k - 1 && x == Operand(j);
    }
  }

  lemma LastIsNew(k: nat)
    ensures k > 0 ==> !IsOperand(Operand(k), k - 1)
  {
    forall j: nat | j < k ensures Operand(j) != Operand(k) { OperandInjective(j, k); }
  }

  lemma {:induction false} UnusedAre(provided: seq<string>, k: nat)
    ensures PairwiseDistinct(Unused(provided, k))
    ensures forall x :: x in Unused(provided, k) <==> IsOperand(x, k) && x !in provided
    decreases k
  {
    hide Operand, IsOperand;
    if k > 0 { UnusedAre(provided, k - 1); }
    LastIsNew(k);
    forall x ensures x in Unused(provided, k) <==> IsOperand(x, k) && x !in provided { OperandUpTo(x, k); }
  }

  ghost predicate NamesCanFinish(provided: seq<string>, rands: seq<nat>, numData: nat) {
    exists more :: NamesReach(provided, rands, more, numData)
  }

  /** The generator of provided data can finish exactly when enough operands are unused. */
  lemma ProvidedDataFinishesExactly(provided: seq<string>, numData: nat)
    requires PairwiseDistinct(provided)
    ensures (forall rands :: NamesCanFinish(provided, rands, numData)) <==> numData <= |Unused(provided, numData)|
  {
    hide Kept, Drawn, Unused, InList, PairwiseDistinct, Operand;
    if numData <= |Unused(provided, numData)| {
      forall rands ensures NamesCanFinish(provided, rands, numData) {
        KeepsUnused(provided, rands, numData);
        assert NamesReach(provided, rands, AllNumbers(numData), numData);
      }
    } else {
      forall more ensures !NamesReach(provided, [], more, numData) { KeepsNoMore(provided, [] + more, numData); }
      assert !NamesCanFinish(provided, [], numData);
    }
  }

  ghost predicate NamesReach(provided: seq<string>, rands: seq<nat>, more: seq<nat>, numData: nat) {
    |provided| + numData <= |Kept(provided, Drawn(rands + more, numData), InList())|
  }

  function AllNumbers(numData: nat): seq<nat> {
    seq(numData + 1, i requires 0 <= i <= numData => i)
  }

  lemma KeepsUnused(provided: seq<string>, rands: seq<nat>, numData: nat)
    requires PairwiseDistinct(provided)
    ensures |provided| + |Unused(provided, numData)|
            <= |Kept(provided, Drawn(rands + AllNumbers(numData), numData), InList())|
  {
    hide Kept, Unused, InList, Operand;
    var draws := Drawn(rands + AllNumbers(numData), numData);
    var names := Kept(provided, draws, InList());
    var us := Unused(provided, numData);
    KeptNames(provided, draws);
    UnusedAre(provided, numData);
    assert names == provided + names[|provided|..];
    forall x | x in us ensures x in names[|provided|..] {
      var k: nat :| k <= numData && x == Operand(k);
      assert AllNumbers(numData)[k] == k && k % (numData + 1) == k;
      assert draws[|rands| + k] == x;
      assert draws[|rands| + k] in draws && x in names;
    }
    Pigeonhole(us, names[|provided|..]);
  }

  lemma KeepsNoMore(provided: seq<string>, rands: seq<nat>, numData: nat)
    requires PairwiseDistinct(provided)
    ensures |Kept(provided, Drawn(rands, numData), InList())| <= |provided| + |Unused(provided, numData)|
  {
    hide Kept, Unused, InList, Operand, IsOperand, Drawn;
    var draws := Drawn(rands, numData);
    var names := Kept(provided, draws, InList());
    var us := Unused(provided, numData);
    KeptNames(provided, draws);
    UnusedAre(provided, numData);
    DrawnAreOperands(rands, numData);
    DrawnAt(rands, numData, 0);
    forall x | x in names ensures x in provided + us {
      if x !in provided {
        assert x in draws;
        var i :| 0 <= i < |draws| && draws[i] == x;
        assert IsOperand(draws[i], numData);
      }
    }
    Pigeonhole(names, provided + us);
  }
}
