/** The links between compute nodes and from leaf nodes to consumers. */
module Topology {
  datatype Vertex = Node(i: nat) | Consumer(j: nat)

  datatype Link = Link(parent: Vertex, child: Vertex)

  /** Node 0 is the cloud, node 1 the gateway, then t2 tier-2 nodes, then the tier-3 leaves. */
  function ParentOf(t2: nat, c: nat): nat
    requires c >= 1
  {
    if c == 1 then 0 else if c <= t2 + 1 then 1 else 2 + (c - t2 - 2) / 2
  }

  /** i full shares of q consumers each. */
  function Shares(q: nat, i: nat): nat {
    if i == 0 then 0 else Shares(q, i - 1) + q
  }

  /** Leaf i serves consumer x: q in a row per leaf, the rest one each. */
  predicate Serves(q: nat, t3: nat, i: nat, x: nat) {
    i < t3 && if x < Shares(q, t3) then Shares(q, i) <= x < Shares(q, i) + q else x == Shares(q, t3) + i
  }

  /** The first links go to the compute nodes 1, 2, ... in turn. */
  ghost predicate ComputeLinks(links: seq<Link>, t2: nat, upTo: nat) {
    |links| == upTo && forall k :: 0 <= k < upTo ==> links[k] == Link(Node(ParentOf(t2, k + 1)), Node(k + 1))
  }

  /** The others go to the consumers 0, 1, ... in turn, each from a leaf that serves it. */
  ghost predicate ConsumerLinks(links: seq<Link>, t2: nat, t3: nat, q: nat, upTo: nat) {
    |links| == upTo && forall x :: 0 <= x < upTo ==>
      && links[x].child == Consumer(x)
      && links[x].parent.Node? && links[x].parent.i >= t2 + 2 && Serves(q, t3, links[x].parent.i - t2 - 2, x)
  }

  lemma {:induction false} SharesIsProduct(q: nat, i: nat)
    ensures Shares(q, i) == i * q
  {
    if i > 0 {
      SharesIsProduct(q, i - 1);
      assert i * q == (i - 1) * q + q;
    }
  }

  lemma {:induction false} SharesGrow(q: nat, i: nat, j: nat)
    requires i < j
    ensures Shares(q, i) + q <= Shares(q, j)
    decreases j
  {
    if i < j - 1 { SharesGrow(q, i, j - 1); }
  }

  lemma ShareIsQuotient(consumers: nat, t3: nat)
    requires t3 > 0
    ensures Shares(consumers / t3, t3) == consumers - consumers % t3
  {
    SharesIsProduct(consumers / t3, t3);
    assert consumers / t3 * t3 + consumers % t3 == consumers;
  }

  method GenerateComputeLinks(t2: nat) returns (links: seq<Link>)
    requires t2 >= 1
    ensures ComputeLinks(links, t2, 3 * t2 + 1)
  {
    links := [];
    var k := 0;
    for i := 0 to t2 + 2
      invariant ComputeLinks(links, t2, if i == 0 then 0 else if i == 1 then 1 else t2 + 1 + 2 * (i - 2))
      invariant i > 2 ==> k == t2 + 2 + 2 * (i - 2)
    {
      if i == 0 {
        links := links + [Link(Node(i), Node(i + 1))];
      }
      if i == 1 {
        var l := 2;
        while l <= t2 + 1
          invariant 2 <= l <= t2 + 2 && ComputeLinks(links, t2, l - 1)
        {
          links := links + [Link(Node(i), Node(l))];
          l := l + 1;
        }
      } else if i > 1 {
        if i == 2 { k := t2 + 2; }
        links := links + [Link(Node(i), Node(k))];
        k := k + 1;
        links := links + [Link(Node(i), Node(k))];
        k := k + 1;
      }
    }
  }

  /** One more consumer link, in the order of the consumers. */
  lemma LinkAppends(links: seq<Link>, t2: nat, t3: nat, q: nat, i: nat)
    requires ConsumerLinks(links, t2, t3, q, |links|) && Serves(q, t3, i, |links|)
    ensures ConsumerLinks(links + [Link(Node(t2 + 2 + i), Consumer(|links|))], t2, t3, q, |links| + 1)
  {
    hide Serves;
  }

  method GenerateFullShares(t2: nat, t3: nat, q: nat) returns (links: seq<Link>)
    ensures ConsumerLinks(links, t2, t3, q, Shares(q, t3))
  {
    links := [];
    assert ConsumerLinks(links, t2, t3, q, |links|);
    hide ConsumerLinks;
    for i := 0 to t3
      invariant |links| == Shares(q, i) && ConsumerLinks(links, t2, t3, q, |links|)
    {
      SharesIsProduct(q, i);
      SharesGrow(q, i, t3);
      for j := 0 to q
        invariant |links| == Shares(q, i) + j && ConsumerLinks(links, t2, t3, q, |links|)
      {
        LinkAppends(links, t2, t3, q, i);
        links := links + [Link(Node(t2 + 2 + i), Consumer(j + i * q))];
      }
    }
  }

  method GenerateRemainder(full: seq<Link>, t2: nat, t3: nat, consumers: nat) returns (links: seq<Link>)
    requires t3 > 0 && |full| == Shares(consumers / t3, t3)
    requires ConsumerLinks(full, t2, t3, consumers / t3, |full|)
    ensures ConsumerLinks(links, t2, t3, consumers / t3, consumers)
  {
    hide ConsumerLinks;
    var q := consumers / t3;
    ShareIsQuotient(consumers, t3);
    SharesIsProduct(q, t3);
    assert q * t3 == t3 * q;
    links := full;
    for i := 0 to t3
      invariant Shares(q, t3) + i <= consumers && |links| == Shares(q, t3) + i
      invariant ConsumerLinks(links, t2, t3, q, |links|)
    {
      if i + q * t3 < consumers {
        LinkAppends(links, t2, t3, q, i);
        links := links + [Link(Node(t2 + 2 + i), Consumer(i + q * t3))];
      } else {
        break;
      }
    }
  }

  method GenerateLinks(t2: nat, t3: nat, consumers: nat) returns (links: seq<Link>)
    requires t2 >= 1 && t3 > 0
    ensures Generated(links, t2, t3, consumers)
  {
    var tree := GenerateComputeLinks(t2);
    var full := GenerateFullShares(t2, t3, consumers / t3);
    assert |full| == Shares(consumers / t3, t3);
    var leaves := GenerateRemainder(full, t2, t3, consumers);
    links := tree + leaves;
    assert links[..3 * t2 + 1] == tree && links[3 * t2 + 1..] == leaves;
  }

  ghost predicate Generated(links: seq<Link>, t2: nat, t3: nat, consumers: nat)
    requires t3 > 0
  {
    && |links| == 3 * t2 + 1 + consumers
    && ComputeLinks(links[..3 * t2 + 1], t2, 3 * t2 + 1)
    && ConsumerLinks(links[3 * t2 + 1..], t2, t3, consumers / t3, consumers)
  }

  // ---- The links form a tree ----

  predicate IsVertex(v: Vertex, t2: nat, t3: nat, consumers: nat) {
    match v
    case Node(i) => i <= t2 + t3 + 1
    case Consumer(j) => j < consumers
  }

  /** v is reached from node 0 over n links. */
  ghost predicate Reached(links: seq<Link>, v: Vertex, n: nat)
    decreases n
  {
    if n == 0 then v == Node(0)
    else exists k :: 0 <= k < |links| && links[k].child == v && Reached(links, links[k].parent, n - 1)
  }

  ghost predicate SpanningTree(links: seq<Link>, t2: nat, t3: nat, consumers: nat) {
    && (forall k :: 0 <= k < |links| ==>
          IsVertex(links[k].parent, t2, t3, consumers) && IsVertex(links[k].child, t2, t3, consumers) && links[k].child != Node(0))
    && (forall j, k :: 0 <= j < k < |links| ==> links[j].child != links[k].child)
    && (forall v :: IsVertex(v, t2, t3, consumers) ==> exists n :: Reached(links, v, n))
  }

  lemma LinkAt(links: seq<Link>, t2: nat, t3: nat, consumers: nat, k: nat)
    requires t3 > 0 && Generated(links, t2, t3, consumers) && k < |links|
    ensures k < 3 * t2 + 1 ==> links[k] == Link(Node(ParentOf(t2, k + 1)), Node(k + 1))
    ensures k >= 3 * t2 + 1 ==>
      && links[k].child == Consumer(k - 3 * t2 - 1)
      && links[k].parent.Node? && t2 + 2 <= links[k].parent.i < t2 + 2 + t3
      && Serves(consumers / t3, t3, links[k].parent.i - t2 - 2, k - 3 * t2 - 1)
  {
    if k < 3 * t2 + 1 {
      assert links[..3 * t2 + 1][k] == links[k];
    } else {
      assert links[3 * t2 + 1..][k - 3 * t2 - 1] == links[k];
    }
  }

  lemma {:induction false} NodesAreReached(links: seq<Link>, t2: nat, t3: nat, consumers: nat, c: nat) returns (n: nat)
    requires t2 >= 1 && t3 > 0 && Generated(links, t2, t3, consumers) && c <= 3 * t2 + 1
    ensures Reached(links, Node(c), n)
    decreases c
  {
    if c == 0 {
      n := 0;
    } else {
      LinkAt(links, t2, t3, consumers, c - 1);
      n := NodesAreReached(links, t2, t3, consumers, ParentOf(t2, c));
      n := n + 1;
      assert links[c - 1].child == Node(c);
    }
  }

  /** The generated links form a spanning tree rooted at node 0, with every consumer linked once,
      to a leaf, exactly when the third tier is twice the second. */
  lemma TreeExactly(links: seq<Link>, t2: nat, t3: nat, consumers: nat)
    requires t2 >= 1 && t3 > 0 && Generated(links, t2, t3, consumers)
    ensures SpanningTree(links, t2, t3, consumers) <==> t3 == 2 * t2
  {
    if t3 == 2 * t2 {
      forall k | 0 <= k < |links|
        ensures IsVertex(links[k].parent, t2, t3, consumers) && IsVertex(links[k].child, t2, t3, consumers) && links[k].child != Node(0)
      {
        LinkAt(links, t2, t3, consumers, k);
      }
      forall j, k | 0 <= j < k < |links| ensures links[j].child != links[k].child {
        LinkAt(links, t2, t3, consumers, j);
        LinkAt(links, t2, t3, consumers, k);
      }
      forall v | IsVertex(v, t2, t3, consumers) ensures exists n :: Reached(links, v, n) {
        match v
        case Node(i) => var n := NodesAreReached(links, t2, t3, consumers, i);
        case Consumer(x) =>
          var k := 3 * t2 + 1 + x;
          LinkAt(links, t2, t3, consumers, k);
          var n := NodesAreReached(links, t2, t3, consumers, links[k].parent.i);
          assert links[k].child == v;
          assert Reached(links, v, n + 1);
      }
    } else if t3 < 2 * t2 {
      LinkAt(links, t2, t3, consumers, 3 * t2);
      assert !IsVertex(links[3 * t2].child, t2, t3, consumers);
    } else {
      var v := Node(3 * t2 + 2);
      assert IsVertex(v, t2, t3, consumers);
      forall n: nat ensures !Reached(links, v, n) {
        forall k | 0 <= k < |links| ensures links[k].child != v { LinkAt(links, t2, t3, consumers, k); }
      }
    }
  }

  /** The tiers: the cloud leads to the gateway, the gateway to each node of the second tier in turn,
      and each of these to two leaves of its own, in turn. */
  lemma TiersAreLinked(links: seq<Link>, t2: nat, t3: nat, consumers: nat, i: nat)
    requires t2 >= 1 && t3 > 0 && Generated(links, t2, t3, consumers) && i < t2
    ensures links[0] == Link(Node(0), Node(1))
    ensures links[1 + i] == Link(Node(1), Node(2 + i))
    ensures links[t2 + 1 + 2 * i] == Link(Node(2 + i), Node(t2 + 2 + 2 * i))
    ensures links[t2 + 2 + 2 * i] == Link(Node(2 + i), Node(t2 + 3 + 2 * i))
  {
    LinkAt(links, t2, t3, consumers, 0);
    LinkAt(links, t2, t3, consumers, 1 + i);
    LinkAt(links, t2, t3, consumers, t2 + 1 + 2 * i);
    LinkAt(links, t2, t3, consumers, t2 + 2 + 2 * i);
  }

  /** Which leaf serves consumer x: the leaves take equal shares in a row, then one more each. */
  lemma LeafOfConsumer(links: seq<Link>, t2: nat, t3: nat, consumers: nat, x: nat)
    requires t3 > 0 && Generated(links, t2, t3, consumers) && x < consumers
    ensures var q, k := consumers / t3, 3 * t2 + 1 + x;
      && links[k].child == Consumer(x) && links[k].parent.Node? && links[k].parent.i >= t2 + 2
      && var leaf := links[k].parent.i - t2 - 2;
         if x < t3 * q then leaf * q <= x < leaf * q + q else x == t3 * q + leaf
  {
    var q, k := consumers / t3, 3 * t2 + 1 + x;
    LinkAt(links, t2, t3, consumers, k);
    SharesIsProduct(q, t3);
    SharesIsProduct(q, links[k].parent.i - t2 - 2);
  }

  /** Whatever the sizes of the tiers: one link leads to each consumer, and it starts at a leaf. */
  lemma EachConsumerOnce(links: seq<Link>, t2: nat, t3: nat, consumers: nat, x: nat) returns (k: nat)
    requires t3 > 0 && Generated(links, t2, t3, consumers) && x < consumers
    ensures k < |links| && links[k].child == Consumer(x)
    ensures links[k].parent.Node? && t2 + 2 <= links[k].parent.i < t2 + 2 + t3
    ensures forall j :: 0 <= j < |links| && links[j].child == Consumer(x) ==> j == k
  {
    k := 3 * t2 + 1 + x;
    forall j | 0 <= j < |links| ensures links[j].child == Consumer(x) <==> j == k {
      LinkAt(links, t2, t3, consumers, j);
    }
    LinkAt(links, t2, t3, consumers, k);
  }

  // ---- The leaves share the consumers evenly ----

  /** How many of these links start at v. */
  function Load(links: seq<Link>, v: Vertex): nat {
    if links == [] then 0 else Load(links[..|links| - 1], v) + (if links[|links| - 1].parent == v then 1 else 0)
  }

  lemma {:induction false} LoadOfPrefix(links: seq<Link>, t2: nat, t3: nat, q: nat, i: nat)
    requires i < t3 && ConsumerLinks(links, t2, t3, q, |links|) && |links| <= Shares(q, t3)
    ensures Load(links, Node(t2 + 2 + i)) ==
      if |links| <= Shares(q, i) then 0 else if |links| >= Shares(q, i) + q then q else |links| - Shares(q, i)
  {
    if links != [] {
      var init, x := links[..|links| - 1], |links| - 1;
      LoadOfPrefix(init, t2, t3, q, i);
      var j := links[x].parent.i - t2 - 2;
      if i < j { SharesGrow(q, i, j); }
      if j < i { SharesGrow(q, j, i); }
    }
  }

  lemma {:induction false} LoadOfAll(links: seq<Link>, t2: nat, t3: nat, q: nat, i: nat)
    requires i < t3 && ConsumerLinks(links, t2, t3, q, |links|) && Shares(q, t3) <= |links| <= Shares(q, t3) + t3
    ensures Load(links, Node(t2 + 2 + i)) == q + (if i < |links| - Shares(q, t3) then 1 else 0)
  {
    if |links| == Shares(q, t3) {
      SharesGrow(q, i, t3);
      LoadOfPrefix(links, t2, t3, q, i);
    } else {
      LoadOfAll(links[..|links| - 1], t2, t3, q, i);
    }
  }

  /** Every leaf serves the integer share of the consumers, and the first ones one more. */
  lemma LoadsAreEven(links: seq<Link>, t2: nat, t3: nat, consumers: nat, i: nat)
    requires t3 > 0 && i < t3 && Generated(links, t2, t3, consumers)
    ensures Load(links[3 * t2 + 1..], Node(t2 + 2 + i)) == consumers / t3 + (if i < consumers % t3 then 1 else 0)
  {
    ShareIsQuotient(consumers, t3);
    LoadOfAll(links[3 * t2 + 1..], t2, t3, consumers / t3, i);
  }
}
