/**
 Which finished results a node is handed (`upstreamInputs` in
 extensions/agenda/plan-graph.ts): its `needs`, with every barrier replaced by
 what the barrier joined, each result once, in first-visit order.
 */
module Upstream {
  import opened PlanSchema

  function FindNode(nodes: seq<Node>, id: NodeId): (found: Option<Node>)
    ensures found.Some? ==> found.value in nodes && found.value.id == id
    ensures found.None? ==> forall n :: n in nodes ==> n.id != id
  {
    if nodes == [] then None
    else if nodes[0].id == id then Some(nodes[0])
    else FindNode(nodes[1..], id)
  }

  lemma {:induction false} FindUnique(nodes: seq<Node>, node: Node)
    requires UniqueIds(nodes) && node in nodes
    ensures FindNode(nodes, node.id) == Some(node)
  {
    if nodes[0] != node {
      var k :| 0 <= k < |nodes| && nodes[k] == node;
      assert nodes[1..][k - 1] == node;
      FindUnique(nodes[1..], node);
    }
  }

  /** A bare ref to a barrier; a ref with a field never names a node. */
  predicate IsBarrier(nodes: seq<Node>, ref: Ref) {
    ref.path == [] && FindNode(nodes, ref.node).Some? && FindNode(nodes, ref.node).value.Barrier?
  }

  function Members(nodes: seq<Node>, ref: Ref): seq<Ref>
    requires IsBarrier(nodes, ref)
  {
    FindNode(nodes, ref.node).value.needs
  }

  ghost function BarrierRefs(nodes: seq<Node>): set<Ref> {
    set n | n in nodes :: Ref(n.id, [])
  }

  lemma BarrierIsListed(nodes: seq<Node>, ref: Ref)
    requires IsBarrier(nodes, ref)
    ensures ref in BarrierRefs(nodes)
  {
    assert Ref(FindNode(nodes, ref.node).value.id, []) in BarrierRefs(nodes);
  }

  /** Depth-first expansion of one ref; `trail` holds the barriers being expanded. */
  ghost function Expand(nodes: seq<Node>, ref: Ref, trail: set<Ref>): seq<Ref>
    decreases BarrierRefs(nodes) - trail, 0
  {
    if ref in trail then []
    else if IsBarrier(nodes, ref) then
      BarrierIsListed(nodes, ref);
      ExpandAll(nodes, Members(nodes, ref), trail + {ref})
    else [ref]
  }

  ghost function ExpandAll(nodes: seq<Node>, refs: seq<Ref>, trail: set<Ref>): seq<Ref>
    decreases BarrierRefs(nodes) - trail, |refs| + 1
  {
    if refs == [] then []
    else ExpandAll(nodes, refs[..|refs| - 1], trail) + Expand(nodes, refs[|refs| - 1], trail)
  }

  /** Append to `kept` the refs of `more` not met before, keeping their order. */
  ghost function AddNew(kept: seq<Ref>, more: seq<Ref>): (all: seq<Ref>)
    ensures forall r :: r in all <==> r in kept || r in more
    ensures (forall i, j :: 0 <= i < j < |kept| ==> kept[i] != kept[j]) ==>
              forall i, j :: 0 <= i < j < |all| ==> all[i] != all[j]
  {
    if more == [] then kept
    else
      var front := AddNew(kept, more[..|more| - 1]);
      var last := more[|more| - 1];
      assert more == more[..|more| - 1] + [last];
      if last in front then front else front + [last]
  }

  lemma {:induction false} AddNewSplit(kept: seq<Ref>, a: seq<Ref>, b: seq<Ref>)
    ensures AddNew(kept, a + b) == AddNew(AddNew(kept, a), b)
    decreases |b|
  {
    if b == [] {
      assert a + b == a;
    } else {
      assert (a + b)[..|a + b| - 1] == a + b[..|b| - 1];
      AddNewSplit(kept, a, b[..|b| - 1]);
    }
  }

  /** The refs a node is handed: first occurrences in its depth-first expansion. */
  ghost function UpstreamRefs(nodes: seq<Node>, needs: seq<Ref>): seq<Ref> {
    AddNew([], ExpandAll(nodes, needs, {}))
  }

  /** A chain of barriers from one of `refs` to its last element. */
  ghost predicate Chain(nodes: seq<Node>, refs: seq<Ref>, p: seq<Ref>) {
    && |p| > 0 && p[0] in refs
    && forall k :: 0 <= k < |p| - 1 ==> IsBarrier(nodes, p[k]) && p[k + 1] in Members(nodes, p[k])
  }

  lemma {:induction false} ExpansionHasChain(nodes: seq<Node>, refs: seq<Ref>, trail: set<Ref>, leaf: Ref)
    returns (p: seq<Ref>)
    requires leaf in ExpandAll(nodes, refs, trail)
    ensures Chain(nodes, refs, p) && p[|p| - 1] == leaf && !IsBarrier(nodes, leaf)
    decreases BarrierRefs(nodes) - trail, |refs|
  {
    var last := refs[|refs| - 1];
    if leaf in ExpandAll(nodes, refs[..|refs| - 1], trail) {
      p := ExpansionHasChain(nodes, refs[..|refs| - 1], trail, leaf);
    } else if IsBarrier(nodes, last) {
      BarrierIsListed(nodes, last);
      var tail := ExpansionHasChain(nodes, Members(nodes, last), trail + {last}, leaf);
      p := [last] + tail;
    } else {
      p := [leaf];
    }
  }

  lemma {:induction false} ExpansionOfMember(nodes: seq<Node>, refs: seq<Ref>, trail: set<Ref>, ref: Ref, leaf: Ref)
    requires ref in refs && leaf in Expand(nodes, ref, trail)
    ensures leaf in ExpandAll(nodes, refs, trail)
    decreases |refs|
  {
    if refs[|refs| - 1] != ref {
      ExpansionOfMember(nodes, refs[..|refs| - 1], trail, ref, leaf);
    }
  }

  /** A chain that avoids the trail ends in the expansion; a repeated barrier is cut out of it. */
  lemma {:induction false} ChainIsExpanded(nodes: seq<Node>, refs: seq<Ref>, trail: set<Ref>, p: seq<Ref>)
    requires Chain(nodes, refs, p) && !IsBarrier(nodes, p[|p| - 1])
    requires forall k :: 0 <= k < |p| ==> p[k] !in trail
    ensures p[|p| - 1] in ExpandAll(nodes, refs, trail)
    decreases |p|
  {
    var leaf := p[|p| - 1];
    if |p| > 1 {
      var j := LastIndexOf(p, p[0]);
      var tail := p[j + 1..];
      assert tail[|tail| - 1] == leaf;
      forall k | 0 <= k < |tail| - 1 ensures IsBarrier(nodes, tail[k]) && tail[k + 1] in Members(nodes, tail[k]) {
        assert tail[k] == p[j + 1 + k] && tail[k + 1] == p[j + 1 + k + 1];
      }
      ChainIsExpanded(nodes, Members(nodes, p[0]), trail + {p[0]}, tail);
      assert leaf in Expand(nodes, p[0], trail);
    }
    ExpansionOfMember(nodes, refs, trail, p[0], leaf);
  }

  ghost function LastIndexOf(p: seq<Ref>, ref: Ref): (j: nat)
    requires ref in p
    ensures j < |p| && p[j] == ref && forall k :: j < k < |p| ==> p[k] != ref
    decreases |p|
  {
    if p[|p| - 1] == ref then |p| - 1 else LastIndexOf(p[..|p| - 1], ref)
  }

  /**
   Exactly the non-barrier refs reachable from `needs` through chains of
   barriers, each once: on every plan, cyclic ones included.
   */
  lemma UpstreamExact(nodes: seq<Node>, needs: seq<Ref>)
    ensures forall r :: r in UpstreamRefs(nodes, needs) <==>
              !IsBarrier(nodes, r) && exists p :: Chain(nodes, needs, p) && p[|p| - 1] == r
    ensures var refs := UpstreamRefs(nodes, needs);
            forall i, j :: 0 <= i < j < |refs| ==> refs[i] != refs[j]
  {
    forall r | r in UpstreamRefs(nodes, needs)
      ensures !IsBarrier(nodes, r) && exists p :: Chain(nodes, needs, p) && p[|p| - 1] == r
    {
      var p := ExpansionHasChain(nodes, needs, {}, r);
    }
    forall p | Chain(nodes, needs, p) && !IsBarrier(nodes, p[|p| - 1])
      ensures p[|p| - 1] in UpstreamRefs(nodes, needs)
    {
      ChainIsExpanded(nodes, needs, {}, p);
    }
  }

  /** The recursive visit with its shared `seen` set. */
  class InputCollector {
    const nodes: seq<Node>
    var seen: set<Ref>
    var inputs: seq<Ref>

    constructor (nodes: seq<Node>)
      ensures this.nodes == nodes && seen == {} && inputs == []
    {
      this.nodes := nodes;
      seen, inputs := {}, [];
    }

    ghost predicate Valid()
      reads this
    {
      forall r :: r in seen <==> r in inputs
    }

    method Visit(ref: Ref, trail: set<Ref>)
      requires Valid()
      requires forall r :: r in inputs ==> !IsBarrier(nodes, r)
      modifies this
      ensures Valid() && forall r :: r in inputs ==> !IsBarrier(nodes, r)
      ensures inputs == AddNew(old(inputs), Expand(nodes, ref, trail))
      decreases BarrierRefs(nodes) - trail, 0
    {
      if ref in seen || ref in trail {
        assert Expand(nodes, ref, trail) == if ref in trail then [] else [ref];
        return;
      }
      var target := FindNode(nodes, ref.node);
      if ref.path == [] && target.Some? && target.value.Barrier? {
        BarrierIsListed(nodes, ref);
        VisitAll(target.value.needs, trail + {ref});
        return;
      }
      seen := seen + {ref};
      inputs := inputs + [ref];
    }

    method VisitAll(refs: seq<Ref>, trail: set<Ref>)
      requires Valid()
      requires forall r :: r in inputs ==> !IsBarrier(nodes, r)
      modifies this
      ensures Valid() && forall r :: r in inputs ==> !IsBarrier(nodes, r)
      ensures inputs == AddNew(old(inputs), ExpandAll(nodes, refs, trail))
      decreases BarrierRefs(nodes) - trail, 1
    {
      for k := 0 to |refs|
        invariant Valid() && forall r :: r in inputs ==> !IsBarrier(nodes, r)
        invariant inputs == AddNew(old(inputs), ExpandAll(nodes, refs[..k], trail))
      {
        assert refs[..k + 1][..k] == refs[..k];
        AddNewSplit(old(inputs), ExpandAll(nodes, refs[..k], trail), Expand(nodes, refs[k], trail));
        Visit(refs[k], trail);
      }
      assert refs[..|refs|] == refs;
    }
  }

  method CollectInputs(nodes: seq<Node>, needs: seq<Ref>) returns (refs: seq<Ref>)
    ensures refs == UpstreamRefs(nodes, needs)
  {
    var collector := new InputCollector(nodes);
    collector.VisitAll(needs, {});
    refs := collector.inputs;
  }
}
