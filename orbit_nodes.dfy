/**
 * The per-frame rendering of the skills sphere once each point has been
 * rotated: the perspective factor, the depth cues derived from the rotated
 * depth `z2`, and the back-to-front ordering of the nodes.
 */
module OrbitNodes {

  /** Radius of the sphere, in pixels. */
  const SphereRadius: real := 220.0
  /** Focal distance of the perspective divide, in pixels. */
  const PerspectiveDistance: real := 900.0

  /** One skill as drawn in a frame. */
  datatype Node = Node(
    name: string,
    px: real,
    py: real,
    scale: real,
    opacity: real,
    z: real,
    zIndex: int)

  /** `z2` mapped from [-1, 1] to [0, 1]: 0 at the back of the sphere, 1 at the front. */
  function Depth(z2: real): real
  {
    (z2 + 1.0) / 2.0
  }

  function NodeScale(z2: real): real
  {
    0.6 + Depth(z2) * 0.55
  }

  function NodeOpacity(z2: real): real
  {
    0.35 + Depth(z2) * 0.65
  }

  /** JavaScript's `Math.round`: halves round up. */
  function Round(x: real): (r: int)
    ensures x - 0.5 < r as real <= x + 0.5
  {
    (x + 0.5).Floor
  }

  function ZIndex(z2: real): int
  {
    Round(Depth(z2) * 100.0)
  }

  /** The perspective factor `perspective / (perspective - z2 * R)`. */
  function Perspective(z2: real): real
    requires z2 * SphereRadius != PerspectiveDistance
  {
    PerspectiveDistance / (PerspectiveDistance - z2 * SphereRadius)
  }

  /** A node's cues are the ones its depth calls for. */
  predicate CuesMatchDepth(n: Node)
  {
    n.scale == NodeScale(n.z) && n.opacity == NodeOpacity(n.z) && n.zIndex == ZIndex(n.z)
  }

  /** The node drawn for the skill `name` whose rotated sphere point is (`x2`, `y2`, `z2`). */
  function ProjectNode(name: string, x2: real, y2: real, z2: real): (n: Node)
    requires z2 * SphereRadius != PerspectiveDistance
    ensures n.name == name && n.z == z2 && CuesMatchDepth(n)
  {
    var f := Perspective(z2);
    Node(name, x2 * SphereRadius * f, y2 * SphereRadius * f, NodeScale(z2), NodeOpacity(z2), z2, ZIndex(z2))
  }

  /** Nearer points get cues at least as strong: depth, scale, opacity and stacking order never decrease with `z2`. */
  lemma DepthCuesMonotone(a: real, b: real)
    requires a <= b
    ensures Depth(a) <= Depth(b)
    ensures NodeScale(a) <= NodeScale(b)
    ensures NodeOpacity(a) <= NodeOpacity(b)
    ensures ZIndex(a) <= ZIndex(b)
  {
  }

  /** For a point of the unit sphere the cues stay in their ranges: back 0.6 / 0.35 / 0, front 1.15 / 1 / 100. */
  lemma DepthCueBounds(z2: real)
    requires -1.0 <= z2 <= 1.0
    ensures 0.0 <= Depth(z2) <= 1.0
    ensures 0.6 <= NodeScale(z2) <= 1.15
    ensures 0.35 <= NodeOpacity(z2) <= 1.0
    ensures 0 <= ZIndex(z2) <= 100
    ensures NodeScale(-1.0) == 0.6 && NodeScale(1.0) == 1.15
    ensures NodeOpacity(-1.0) == 0.35 && NodeOpacity(1.0) == 1.0
    ensures ZIndex(-1.0) == 0 && ZIndex(1.0) == 100
  {
  }

  /**
   * For a point of the unit sphere the perspective factor is positive, between
   * 900/1120 at the back and 900/680 at the front, and grows with `z2`.
   */
  lemma PerspectiveBounds(a: real, b: real)
    requires -1.0 <= a <= b <= 1.0
    ensures 900.0 / 1120.0 <= Perspective(a) <= Perspective(b) <= 900.0 / 680.0
  {
    var da := PerspectiveDistance - a * SphereRadius;
    var db := PerspectiveDistance - b * SphereRadius;
    assert 680.0 <= db <= da <= 1120.0;
    DivAntitone(900.0, 680.0, db);
    DivAntitone(900.0, db, da);
    DivAntitone(900.0, da, 1120.0);
  }

  lemma DivAntitone(c: real, x: real, y: real)
    requires c >= 0.0 && 0.0 < x <= y
    ensures c / y <= c / x
  {
  }

  // ---------------------------------------------------------------------------
  // Back-to-front order
  // ---------------------------------------------------------------------------

  predicate BackToFront(s: seq<Node>)
  {
    forall i, j :: 0 <= i < j < |s| ==> s[i].z <= s[j].z
  }

  /**
   * Painting in back-to-front order agrees with the other cues: along a sorted
   * list of nodes the stacking index, the scale and the opacity never decrease,
   * so a node painted later is never drawn smaller, dimmer or lower in the stack.
   */
  lemma PaintOrderAgreesWithCues(s: seq<Node>)
    requires BackToFront(s)
    requires forall i :: 0 <= i < |s| ==> CuesMatchDepth(s[i])
    ensures forall i, j :: 0 <= i < j < |s| ==>
      s[i].zIndex <= s[j].zIndex && s[i].scale <= s[j].scale && s[i].opacity <= s[j].opacity
  {
    forall i, j | 0 <= i < j < |s|
      ensures s[i].zIndex <= s[j].zIndex && s[i].scale <= s[j].scale && s[i].opacity <= s[j].opacity
    {
      assert CuesMatchDepth(s[i]) && CuesMatchDepth(s[j]);
      DepthCuesMonotone(s[i].z, s[j].z);
    }
  }

  /** The first `n` nodes are in back-to-front order. */
  ghost predicate SortedPrefix(nodes: array<Node>, n: int)
    reads nodes
  {
    forall k, l :: 0 <= k < l < n && l < nodes.Length ==> nodes[k].z <= nodes[l].z
  }

  method Swap(nodes: array<Node>, i: int, j: int)
    requires 0 <= i < nodes.Length && 0 <= j < nodes.Length
    modifies nodes
    ensures nodes[i] == old(nodes[j]) && nodes[j] == old(nodes[i])
    ensures forall k :: 0 <= k < nodes.Length && k != i && k != j ==> nodes[k] == old(nodes[k])
    ensures multiset(nodes[..]) == old(multiset(nodes[..]))
  {
    nodes[i], nodes[j] := nodes[j], nodes[i];
  }

  /** Moves `nodes[i]` down into the sorted prefix before it. */
  method InsertIntoPrefix(nodes: array<Node>, i: int)
    requires 0 < i < nodes.Length && SortedPrefix(nodes, i)
    modifies nodes
    ensures SortedPrefix(nodes, i + 1)
    ensures multiset(nodes[..]) == old(multiset(nodes[..]))
  {
    var j := i;
    while j > 0 && nodes[j - 1].z > nodes[j].z
      invariant 0 <= j <= i
      invariant forall k, l :: 0 <= k < l <= i && k != j && l != j ==> nodes[k].z <= nodes[l].z
      invariant forall l :: j < l <= i ==> nodes[j].z <= nodes[l].z
      invariant multiset(nodes[..]) == old(multiset(nodes[..]))
    {
      Swap(nodes, j - 1, j);
      j := j - 1;
    }
  }

  /** `nodes.sort((a, b) => a.z - b.z)`: ascending depth, so nearer nodes are painted over farther ones. */
  method SortBackToFront(nodes: array<Node>)
    modifies nodes
    ensures BackToFront(nodes[..])
    ensures multiset(nodes[..]) == old(multiset(nodes[..]))
  {
    if nodes.Length == 0 {
      return;
    }
    var i := 1;
    while i < nodes.Length
      invariant 1 <= i <= nodes.Length
      invariant SortedPrefix(nodes, i)
      invariant multiset(nodes[..]) == old(multiset(nodes[..]))
    {
      InsertIntoPrefix(nodes, i);
      i := i + 1;
    }
  }
}
