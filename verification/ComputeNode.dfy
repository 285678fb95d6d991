/** The compute node: resources, the queue fill counter, the function map and the exclude list. */
module ComputeNodes {
  import opened Names

  const U32: nat := 0x1_0000_0000
  type uint32 = n: nat | n < 0x1_0000_0000

  function Add32(a: uint32, b: uint32): uint32 { (a + b) % 0x1_0000_0000 }

  function Sub32(a: uint32, b: uint32): uint32 { (a - b) % 0x1_0000_0000 }

  /** One installed computation. */
  datatype Function = Function(
    ram: uint32, cpu: uint32, paramNumber: uint32,
    enabled: bool, execCounter: uint32, missCounter: uint32)

  datatype NodeState = NodeState(
    ram: uint32, cores: uint32, queueSize: uint32, queueFill: uint32, busyCounter: uint32,
    functions: map<Component, Function>, excluded: seq<Component>)
  {
    predicate Fits(f: Function) {
      f.ram <= ram && f.cpu <= cores
    }

    function Book(f: Function): NodeState {
      this.(ram := Sub32(ram, f.ram), cores := Sub32(cores, f.cpu))
    }

    function Release(f: Function): NodeState {
      this.(ram := Add32(ram, f.ram), cores := Add32(cores, f.cpu))
    }

    function Enable(c: Component): NodeState {
      if c in functions then
        this.(functions := functions[c := functions[c].(enabled := true, missCounter := 0)])
      else this
    }

    function Disable(c: Component): NodeState {
      if c in functions then this.(functions := functions[c := functions[c].(enabled := false)]) else this
    }

    function Exclude(c: Component): NodeState {
      this.(excluded := excluded + [c])
    }

    /** Takes out the first occurrence only. */
    function Readmit(c: Component): NodeState {
      this.(excluded := RemoveFirst(excluded, c))
    }

    function CountExecution(c: Component): NodeState
      requires c in functions
    {
      this.(functions := functions[c := functions[c].(execCounter := Add32(functions[c].execCounter, 1))])
    }

    /** Counts only while the function is disabled. */
    function CountMiss(c: Component): NodeState
      requires c in functions
    {
      if functions[c].enabled then this
      else this.(functions := functions[c := functions[c].(missCounter := Add32(functions[c].missCounter, 1))])
    }

    function CountBusy(): NodeState {
      this.(busyCounter := Add32(busyCounter, 1))
    }

    function Enqueued(): NodeState {
      if queueFill < queueSize then this.(queueFill := queueFill + 1) else this
    }

    function Dequeued(): NodeState {
      if queueFill > 0 then this.(queueFill := queueFill - 1) else this
    }
  }

  function RemoveFirst<T(==)>(s: seq<T>, x: T): seq<T> {
    if s == [] then [] else if s[0] == x then s[1..] else [s[0]] + RemoveFirst(s[1..], x)
  }

  lemma {:induction false} RemoveFirstAt<T>(s: seq<T>, x: T, i: nat)
    requires i < |s| && s[i] == x && forall k :: 0 <= k < i ==> s[k] != x
    ensures RemoveFirst(s, x) == s[..i] + s[i + 1..]
  {
    if i > 0 {
      var rest := s[1..];
      RemoveFirstAt(rest, x, i - 1);
      assert RemoveFirst(rest, x) == rest[..i - 1] + rest[i..];
      assert s[..i] + s[i + 1..] == [s[0]] + (rest[..i - 1] + rest[i..]);
    }
  }

  lemma {:induction false} RemoveFirstAbsent<T>(s: seq<T>, x: T)
    requires x !in s
    ensures RemoveFirst(s, x) == s
  {
    if s != [] { RemoveFirstAbsent(s[1..], x); }
  }

  class ComputeNode {
    var ram: uint32
    var cores: uint32
    var queueSize: uint32
    var queueFill: uint32
    var busyCounter: uint32
    var functions: map<Component, Function>
    var excluded: seq<Component>

    ghost function Model(): NodeState
      reads this
    {
      NodeState(ram, cores, queueSize, queueFill, busyCounter, functions, excluded)
    }

    constructor (ram: uint32, cores: uint32, queueSize: uint32, functions: map<Component, Function>)
      ensures Model() == NodeState(ram, cores, queueSize, 0, 0, functions, [])
    {
      this.ram, this.cores, this.queueSize, this.functions := ram, cores, queueSize, functions;
      queueFill, busyCounter, excluded := 0, 0, [];
    }

    method IncrementQueueFill() returns (ok: bool)
      modifies this
      ensures Model() == old(Model()).Enqueued() && ok == old(queueFill < queueSize)
    {
      ok := queueFill < queueSize;
      if ok { queueFill := queueFill + 1; }
    }

    method DecrementQueueFill() returns (ok: bool)
      modifies this
      ensures Model() == old(Model()).Dequeued() && ok == old(queueFill > 0)
    {
      ok := queueFill > 0;
      if ok { queueFill := queueFill - 1; }
    }

    method EnableFunction(c: Component) returns (ok: bool)
      modifies this
      ensures Model() == old(Model()).Enable(c) && ok == (c in functions)
    {
      if c !in functions { return false; }
      functions := functions[c := functions[c].(enabled := true, missCounter := 0)];
      ok := functions[c].enabled;
    }

    method DisableFunction(c: Component) returns (ok: bool)
      modifies this
      ensures Model() == old(Model()).Disable(c) && ok == (c in functions)
    {
      if c !in functions { return false; }
      functions := functions[c := functions[c].(enabled := false)];
      ok := !functions[c].enabled;
    }

    method AddToExcludeList(c: Component)
      modifies this
      ensures Model() == old(Model()).Exclude(c)
    {
      excluded := excluded + [c];
    }

    method RemoveFromExcludeList(c: Component)
      modifies this
      ensures Model() == old(Model()).Readmit(c)
    {
      var i := 0;
      while i < |excluded| && excluded[i] != c
        invariant i <= |excluded| && Model() == old(Model())
        invariant forall k :: 0 <= k < i ==> excluded[k] != c
      {
        i := i + 1;
      }
      if i < |excluded| {
        RemoveFirstAt(excluded, c, i);
        excluded := excluded[..i] + excluded[i + 1..];
      } else {
        RemoveFirstAbsent(excluded, c);
      }
    }

    method CheckExcludeList(c: Component) returns (found: bool)
      ensures found == (c in excluded)
    {
      found := false;
      for i := 0 to |excluded|
        invariant !found && c !in excluded[..i]
      {
        if excluded[i] == c { return true; }
      }
    }
  }
}
