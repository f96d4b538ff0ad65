/** The bounded syntax walk of `tools/l2_analyzer.py`. */
module Walk {
  const MAX_AST_NODES := 250000

  datatype Node = Node(id: int, children: seq<Node>)

  function Preorder(node: Node): (nodes: seq<Node>)
    ensures nodes != []
    decreases node, |node.children| + 2
  {
    [node] + PreorderFrom(node, 0)
  }

  /** The preorders of the children from the `k`th on. */
  function PreorderFrom(node: Node, k: nat): seq<Node>
    requires k <= |node.children|
    decreases node, 1 + |node.children| - k
  {
    if k == |node.children| then [] else Preorder(node.children[k]) + PreorderFrom(node, k + 1)
  }

  /** What is still to visit: the preorders of the first `n` stacked nodes, top first. */
  function Remaining(stack: seq<Node>, n: nat): seq<Node>
    requires n <= |stack|
  {
    if n == 0 then [] else Preorder(stack[n - 1]) + Remaining(stack, n - 1)
  }

  lemma {:induction false} RemainingOfPrefix(stack: seq<Node>, more: seq<Node>, n: nat)
    requires n <= |stack|
    ensures Remaining(stack + more, n) == Remaining(stack, n)
    decreases n
  {
    if n > 0 { RemainingOfPrefix(stack, more, n - 1); }
  }

  function Reversed(nodes: seq<Node>): seq<Node> {
    seq(|nodes|, i requires 0 <= i < |nodes| => nodes[|nodes| - 1 - i])
  }

  lemma {:induction false} RemainingOfChildren(stack: seq<Node>, node: Node, k: nat)
    requires k <= |node.children|
    ensures Remaining(stack + Reversed(node.children), |stack| + |node.children| - k) ==
      PreorderFrom(node, k) + Remaining(stack, |stack|)
    decreases |node.children| - k
  {
    var all := stack + Reversed(node.children);
    if k == |node.children| {
      RemainingOfPrefix(stack, Reversed(node.children), |stack|);
    } else {
      RemainingOfChildren(stack, node, k + 1);
      assert all[|stack| + |node.children| - k - 1] == node.children[k];
    }
  }

  /** The source's stack walk visits in preorder and stops at the cap. */
  method Visit(root: Node, cap: nat) returns (nodes: seq<Node>, truncated: bool)
    ensures var all := Preorder(root);
      && nodes == all[..if |all| < cap then |all| else cap]
      && (truncated <==> |all| > cap)
  {
    nodes := [];
    var stack := [root];
    assert Remaining(stack, 1) == Preorder(root) + Remaining(stack, 0) == Preorder(root);
    while stack != [] && |nodes| < cap
      invariant Preorder(root) == nodes + Remaining(stack, |stack|)
      invariant |nodes| <= cap
      decreases |Remaining(stack, |stack|)|
    {
      var node, rest := stack[|stack| - 1], stack[..|stack| - 1];
      assert stack == rest + [node];
      RemainingOfPrefix(rest, [node], |rest|);
      RemainingOfChildren(rest, node, 0);
      assert Remaining(stack, |stack|) == [node] + (PreorderFrom(node, 0) + Remaining(rest, |rest|));
      nodes := nodes + [node];
      stack := rest + Reversed(node.children);
    }
    truncated := stack != [];
    assert truncated ==> Remaining(stack, |stack|) != [];
  }
}
