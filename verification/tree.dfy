/**
 * The element tree of src/lib/tree.ts: an adjacency map from a node id to the
 * ids of its children, in stored order, with `gatherAllChildren`,
 * `getParentNode`, `gatherAllParent` and `buildElementTree`.
 *
 * The source walks the map without any cycle check. Every function here takes
 * a `rank` that orders children strictly below their parents (`Ranked`): an
 * acyclic map has one, and on a cyclic map the source does not terminate.
 */
module Tree {
  import opened Common
  import Element

  type ElementTree = map<string, seq<string>>

  /** `ROOT_NODE`. */
  const RootNode: string := "ROOT"

  /** `elementTree[id] ?? []`, reading only the map's own keys. */
  function Kids(t: ElementTree, id: string): (r: seq<string>)
    ensures r != [] ==> id in t
  {
    if id in t then t[id] else []
  }

  /** Every child that has an entry of its own ranks strictly below its parent. */
  ghost predicate Ranked(t: ElementTree, rank: map<string, nat>) {
    (forall p :: p in t ==> p in rank) &&
    (forall p, c :: p in t && c in t[p] && c in t ==> rank[c] < rank[p])
  }

  /** How far below `id` the map can still reach. */
  ghost function Height(t: ElementTree, rank: map<string, nat>, id: string): nat
    requires Ranked(t, rank)
  {
    if id in t then rank[id] + 1 else 0
  }

  lemma ChildIsLower(t: ElementTree, rank: map<string, nat>, p: string, c: string)
    requires Ranked(t, rank) && c in Kids(t, p)
    ensures Height(t, rank, c) < Height(t, rank, p)
  {
  }

  // ---- gatherAllChildren -----------------------------------------------------------------

  predicate IsContainer(types: map<string, Element.ElementType>, id: string) {
    id in types && types[id] == Element.Container
  }

  /**
   * `gatherAllChildren(elementId, elementTree, elementsType)`: nothing below a
   * non-container; below a container, its children in stored order followed
   * by the descendants of each child in turn. `None` is the `TypeError` the
   * source throws when a container it reaches has no entry in the map.
   */
  function GatherAllChildren(id: string, t: ElementTree, types: map<string, Element.ElementType>,
                             ghost rank: map<string, nat>): (r: Option<seq<string>>)
    requires Ranked(t, rank)
    ensures !IsContainer(types, id) ==> r == Some([])
    ensures IsContainer(types, id) && id !in t ==> r.None?
    ensures IsContainer(types, id) && r.Some? ==> id in t && t[id] <= r.value
    decreases Height(t, rank, id), 1, 0
  {
    if !IsContainer(types, id) then Some([])
    else if id !in t then None
    else
      forall c | c in t[id]
        ensures Height(t, rank, c) < Height(t, rank, id)
      {
        ChildIsLower(t, rank, id, c);
      }
      var deeper :- GatherEach(t[id], t, types, rank, Height(t, rank, id));
      Some(t[id] + deeper)
  }

  /** `ids.flatMap((childId) => gatherAllChildren(childId, ...))`. */
  function GatherEach(ids: seq<string>, t: ElementTree, types: map<string, Element.ElementType>,
                      ghost rank: map<string, nat>, ghost bound: nat): (r: Option<seq<string>>)
    requires Ranked(t, rank)
    requires forall c :: c in ids ==> Height(t, rank, c) < bound
    decreases bound, 0, |ids|
  {
    if ids == [] then Some([])
    else
      var first :- GatherAllChildren(ids[0], t, types, rank);
      var rest :- GatherEach(ids[1..], t, types, rank, bound);
      Some(first + rest)
  }

  /** A successful flat map succeeds on each id, and its members are exactly theirs. */
  lemma {:induction false} GatherEachParts(ids: seq<string>, t: ElementTree, types: map<string, Element.ElementType>,
                                           rank: map<string, nat>, bound: nat)
    requires Ranked(t, rank)
    requires forall c :: c in ids ==> Height(t, rank, c) < bound
    requires GatherEach(ids, t, types, rank, bound).Some?
    ensures forall i :: 0 <= i < |ids| ==> GatherAllChildren(ids[i], t, types, rank).Some?
    ensures forall i, x :: 0 <= i < |ids| && x in GatherAllChildren(ids[i], t, types, rank).value ==>
      x in GatherEach(ids, t, types, rank, bound).value
    ensures forall x :: x in GatherEach(ids, t, types, rank, bound).value ==>
      exists i :: 0 <= i < |ids| && x in GatherAllChildren(ids[i], t, types, rank).value
    decreases |ids|
  {
    if ids != [] {
      var first := GatherAllChildren(ids[0], t, types, rank).value;
      var rest := GatherEach(ids[1..], t, types, rank, bound).value;
      assert GatherEach(ids, t, types, rank, bound).value == first + rest;
      GatherEachParts(ids[1..], t, types, rank, bound);
      forall x | x in rest
        ensures exists i :: 0 <= i < |ids| && x in GatherAllChildren(ids[i], t, types, rank).value
      {
        var j :| 0 <= j < |ids[1..]| && x in GatherAllChildren(ids[1..][j], t, types, rank).value;
        assert ids[1..][j] == ids[j + 1];
      }
      forall i, x | 0 <= i < |ids| && x in GatherAllChildren(ids[i], t, types, rank).value
        ensures x in first + rest
      {
        if i > 0 {
          assert ids[i] == ids[1..][i - 1];
        }
      }
    }
  }

  /**
   * The result is closed under the map: every container in it (and the
   * starting container) has an entry, and all of that entry's children are in
   * the result too.
   */
  lemma {:induction false} DescendantsClosed(id: string, t: ElementTree, types: map<string, Element.ElementType>,
                                             rank: map<string, nat>)
    requires Ranked(t, rank)
    requires GatherAllChildren(id, t, types, rank).Some?
    ensures forall x, c :: x in GatherAllChildren(id, t, types, rank).value && IsContainer(types, x) ==>
      x in t && (c in t[x] ==> c in GatherAllChildren(id, t, types, rank).value)
    decreases Height(t, rank, id)
  {
    if IsContainer(types, id) {
      var ds := GatherAllChildren(id, t, types, rank).value;
      var kids := t[id];
      forall c | c in kids
        ensures Height(t, rank, c) < Height(t, rank, id)
      {
        ChildIsLower(t, rank, id, c);
      }
      var bound := Height(t, rank, id);
      GatherEachParts(kids, t, types, rank, bound);
      var deeper := GatherEach(kids, t, types, rank, bound).value;
      assert ds == kids + deeper;
      forall x, c | x in ds && IsContainer(types, x)
        ensures x in t && (c in t[x] ==> c in ds)
      {
        if x in kids {
          var i :| 0 <= i < |kids| && kids[i] == x;
          var dx := GatherAllChildren(x, t, types, rank).value;
          assert t[x] <= dx;
          if c in t[x] {
            var j :| 0 <= j < |t[x]| && t[x][j] == c;
            assert dx[j] == c;
            assert c in deeper;
          }
        } else {
          var i :| 0 <= i < |kids| && x in GatherAllChildren(kids[i], t, types, rank).value;
          DescendantsClosed(kids[i], t, types, rank);
        }
      }
    }
  }

  /** Every member hangs from the start: it is a child of the start or of a container member. */
  lemma {:induction false} DescendantsHang(id: string, t: ElementTree, types: map<string, Element.ElementType>,
                                           rank: map<string, nat>)
    requires Ranked(t, rank)
    requires GatherAllChildren(id, t, types, rank).Some?
    ensures forall x :: x in GatherAllChildren(id, t, types, rank).value ==>
      x in t[id] ||
      exists y :: y in GatherAllChildren(id, t, types, rank).value && IsContainer(types, y) && x in Kids(t, y)
    decreases Height(t, rank, id)
  {
    if IsContainer(types, id) {
      var ds := GatherAllChildren(id, t, types, rank).value;
      var kids := t[id];
      forall c | c in kids
        ensures Height(t, rank, c) < Height(t, rank, id)
      {
        ChildIsLower(t, rank, id, c);
      }
      var bound := Height(t, rank, id);
      GatherEachParts(kids, t, types, rank, bound);
      var deeper := GatherEach(kids, t, types, rank, bound).value;
      assert ds == kids + deeper;
      forall x | x in ds && x !in kids
        ensures exists y :: y in ds && IsContainer(types, y) && x in Kids(t, y)
      {
        var i :| 0 <= i < |kids| && x in GatherAllChildren(kids[i], t, types, rank).value;
        var k := kids[i];
        var dk := GatherAllChildren(k, t, types, rank).value;
        assert k in ds;
        DescendantsHang(k, t, types, rank);
        assert IsContainer(types, k);
        if x in t[k] {
          assert x in Kids(t, k);
        } else {
          var y :| y in dk && IsContainer(types, y) && x in Kids(t, y);
          assert y in deeper;
        }
      }
    }
  }

  /** A container never lists itself among its descendants: they all rank strictly below it. */
  lemma {:induction false} DescendantsBelow(id: string, t: ElementTree, types: map<string, Element.ElementType>,
                                            rank: map<string, nat>)
    requires Ranked(t, rank)
    requires GatherAllChildren(id, t, types, rank).Some?
    ensures forall x :: x in GatherAllChildren(id, t, types, rank).value ==> Height(t, rank, x) < Height(t, rank, id)
    decreases Height(t, rank, id)
  {
    if IsContainer(types, id) {
      var ds := GatherAllChildren(id, t, types, rank).value;
      var kids := t[id];
      forall c | c in kids
        ensures Height(t, rank, c) < Height(t, rank, id)
      {
        ChildIsLower(t, rank, id, c);
      }
      var bound := Height(t, rank, id);
      GatherEachParts(kids, t, types, rank, bound);
      forall x | x in ds && x !in kids
        ensures Height(t, rank, x) < Height(t, rank, id)
      {
        var i :| 0 <= i < |kids| && x in GatherAllChildren(kids[i], t, types, rank).value;
        DescendantsBelow(kids[i], t, types, rank);
      }
    }
  }

  // ---- getParentNode ---------------------------------------------------------------------

  /** Position `i` of `s` is the first whose children include `id`. */
  predicate FirstListing(s: seq<string>, id: string, t: ElementTree, i: int) {
    0 <= i < |s| && id in Kids(t, s[i]) && forall j :: 0 <= j < i ==> id !in Kids(t, s[j])
  }

  /** The first node of the level whose children include `id`. */
  function Scan(level: seq<string>, id: string, t: ElementTree): (r: Option<string>)
    ensures r.Some? <==> exists i :: 0 <= i < |level| && id in Kids(t, level[i])
    ensures r.Some? ==> r.value in level && id in Kids(t, r.value)
    ensures r.Some? ==> exists i :: FirstListing(level, id, t, i) && level[i] == r.value
  {
    if level == [] then None
    else if id in Kids(t, level[0]) then
      assert FirstListing(level, id, t, 0);
      Some(level[0])
    else
      var r := Scan(level[1..], id, t);
      assert forall i :: 1 <= i < |level| ==> level[i] == level[1..][i - 1];
      if r.Some? then
        var i :| FirstListing(level[1..], id, t, i) && level[1..][i] == r.value;
        assert FirstListing(level, id, t, i + 1);
        r
      else r
  }

  /** The next breadth-first level: the children of the level's nodes, concatenated in order. */
  function NextLevel(level: seq<string>, t: ElementTree): (r: seq<string>)
    ensures forall x :: x in r <==> exists i :: 0 <= i < |level| && x in Kids(t, level[i])
  {
    if level == [] then []
    else
      var r := Kids(t, level[0]) + NextLevel(level[1..], t);
      assert forall i :: 1 <= i < |level| ==> level[i] == level[1..][i - 1];
      r
  }

  ghost predicate LevelBelow(level: seq<string>, t: ElementTree, rank: map<string, nat>, b: nat)
    requires Ranked(t, rank)
  {
    forall x :: x in level ==> Height(t, rank, x) <= b
  }

  ghost function Lower(b: nat): nat {
    if b == 0 then 0 else b - 1
  }

  /** Each level lies one step lower than the one before, and at the bottom the next one is empty. */
  lemma NextLevelDescends(level: seq<string>, t: ElementTree, rank: map<string, nat>, b: nat)
    requires Ranked(t, rank) && LevelBelow(level, t, rank, b)
    ensures LevelBelow(NextLevel(level, t), t, rank, Lower(b))
    ensures b == 0 ==> NextLevel(level, t) == []
  {
    var next := NextLevel(level, t);
    if next != [] {
      assert next[0] in next;
    }
    forall x | x in next
      ensures Height(t, rank, x) < b
    {
      var i :| 0 <= i < |level| && x in Kids(t, level[i]);
      ChildIsLower(t, rank, level[i], x);
    }
  }

  /**
   * The queue loop of `getParentNode`, level by level: a FIFO queue seeded
   * with the root visits the root's level, then the concatenated children of
   * that level, and so on, and stops at the first visited node whose
   * children include `id`, or when the queue runs dry.
   */
  function ParentFrom(level: seq<string>, id: string, t: ElementTree,
                      ghost rank: map<string, nat>, ghost b: nat): (r: Option<string>)
    requires Ranked(t, rank) && LevelBelow(level, t, rank, b)
    decreases b, |level|
  {
    match Scan(level, id, t)
    case Some(p) => Some(p)
    case None =>
      if level == [] then None
      else
        NextLevelDescends(level, t, rank, b);
        ParentFrom(NextLevel(level, t), id, t, rank, Lower(b))
  }

  /** The nodes the queue visits from this level on. */
  ghost function Visited(level: seq<string>, t: ElementTree, rank: map<string, nat>, b: nat): set<string>
    requires Ranked(t, rank) && LevelBelow(level, t, rank, b)
    decreases b, |level|
  {
    if level == [] then {}
    else
      NextLevelDescends(level, t, rank, b);
      (set x | x in level) + Visited(NextLevel(level, t), t, rank, Lower(b))
  }

  /** A found parent is a visited node whose children include `id`. */
  lemma {:induction false} ParentFromSound(level: seq<string>, id: string, t: ElementTree, rank: map<string, nat>, b: nat)
    requires Ranked(t, rank) && LevelBelow(level, t, rank, b)
    requires ParentFrom(level, id, t, rank, b).Some?
    ensures ParentFrom(level, id, t, rank, b).value in Visited(level, t, rank, b)
    ensures id in Kids(t, ParentFrom(level, id, t, rank, b).value)
    decreases b, |level|
  {
    if Scan(level, id, t).None? {
      NextLevelDescends(level, t, rank, b);
      ParentFromSound(NextLevel(level, t), id, t, rank, Lower(b));
    }
  }

  /** If some visited node has `id` among its children, the search finds a parent. */
  lemma {:induction false} ParentFromComplete(level: seq<string>, id: string, t: ElementTree, rank: map<string, nat>,
                                              b: nat, p: string)
    requires Ranked(t, rank) && LevelBelow(level, t, rank, b)
    requires p in Visited(level, t, rank, b) && id in Kids(t, p)
    ensures ParentFrom(level, id, t, rank, b).Some?
    decreases b, |level|
  {
    if p in level {
      var i :| 0 <= i < |level| && level[i] == p;
      assert Scan(level, id, t).Some?;
    } else if Scan(level, id, t).None? {
      NextLevelDescends(level, t, rank, b);
      var next := NextLevel(level, t);
      assert Visited(level, t, rank, b) == (set x | x in level) + Visited(next, t, rank, Lower(b));
      ParentFromComplete(next, id, t, rank, Lower(b), p);
    }
  }

  /** A visited node is on the first level or is a child of another visited node. */
  lemma {:induction false} VisitedHang(level: seq<string>, t: ElementTree, rank: map<string, nat>, b: nat, x: string)
    requires Ranked(t, rank) && LevelBelow(level, t, rank, b)
    requires x in Visited(level, t, rank, b)
    ensures x in level || exists w :: w in Visited(level, t, rank, b) && x in Kids(t, w)
    decreases b, |level|
  {
    if x !in level {
      NextLevelDescends(level, t, rank, b);
      var next := NextLevel(level, t);
      assert Visited(level, t, rank, b) == (set y | y in level) + Visited(next, t, rank, Lower(b));
      VisitedHang(next, t, rank, Lower(b), x);
      if x in next {
        var i :| 0 <= i < |level| && x in Kids(t, level[i]);
        assert level[i] in Visited(level, t, rank, b);
      }
    }
  }

  /** The order in which the queue visits nodes from this level on: the level, then the levels below it. */
  ghost function Order(level: seq<string>, t: ElementTree, rank: map<string, nat>, b: nat): seq<string>
    requires Ranked(t, rank) && LevelBelow(level, t, rank, b)
    decreases b, |level|
  {
    if level == [] then []
    else
      NextLevelDescends(level, t, rank, b);
      level + Order(NextLevel(level, t), t, rank, Lower(b))
  }

  /** The visiting order lists exactly the visited nodes. */
  lemma {:induction false} OrderVisits(level: seq<string>, t: ElementTree, rank: map<string, nat>, b: nat)
    requires Ranked(t, rank) && LevelBelow(level, t, rank, b)
    ensures forall x :: x in Order(level, t, rank, b) <==> x in Visited(level, t, rank, b)
    decreases b, |level|
  {
    if level != [] {
      NextLevelDescends(level, t, rank, b);
      var next := NextLevel(level, t);
      OrderVisits(next, t, rank, Lower(b));
      assert Order(level, t, rank, b) == level + Order(next, t, rank, Lower(b));
      assert Visited(level, t, rank, b) == (set x | x in level) + Visited(next, t, rank, Lower(b));
    }
  }

  /**
   * The search returns the first node in visiting order whose children
   * include `id`, and finds nothing exactly when no visited node lists it.
   */
  lemma {:induction false} ParentFromFirst(level: seq<string>, id: string, t: ElementTree, rank: map<string, nat>, b: nat)
    requires Ranked(t, rank) && LevelBelow(level, t, rank, b)
    ensures var o := Order(level, t, rank, b);
      ParentFrom(level, id, t, rank, b).Some? ==>
        exists i :: FirstListing(o, id, t, i) && o[i] == ParentFrom(level, id, t, rank, b).value
    ensures var o := Order(level, t, rank, b);
      ParentFrom(level, id, t, rank, b).None? ==> forall i :: 0 <= i < |o| ==> id !in Kids(t, o[i])
    decreases b, |level|
  {
    if level != [] {
      NextLevelDescends(level, t, rank, b);
      var next := NextLevel(level, t);
      var rest := Order(next, t, rank, Lower(b));
      var o := Order(level, t, rank, b);
      assert o == level + rest;
      match Scan(level, id, t)
      case Some(p) =>
        var i :| FirstListing(level, id, t, i) && level[i] == p;
        assert FirstListing(o, id, t, i);
      case None =>
        ParentFromFirst(next, id, t, rank, Lower(b));
        if ParentFrom(next, id, t, rank, Lower(b)).Some? {
          var i :| FirstListing(rest, id, t, i) && rest[i] == ParentFrom(next, id, t, rank, Lower(b)).value;
          assert FirstListing(o, id, t, |level| + i);
        }
    }
  }

  /** The nodes reachable from the root. */
  ghost function Reachable(t: ElementTree, root: string, rank: map<string, nat>): set<string>
    requires Ranked(t, rank)
  {
    Visited([root], t, rank, Height(t, rank, root))
  }

  /**
   * `getParentNode(elementId, elementTree, rootId)`: the root has no parent;
   * any other id gets the first node, in breadth-first order from the root,
   * whose children include it.
   */
  function GetParentNode(id: string, t: ElementTree, root: string, ghost rank: map<string, nat>): (r: Option<string>)
    requires Ranked(t, rank)
  {
    if id == root then None else ParentFrom([root], id, t, rank, Height(t, rank, root))
  }

  /**
   * A parent is found exactly when the id is not the root and some reachable
   * node lists it as a child; the parent found is such a node.
   */
  lemma ParentLaw(id: string, t: ElementTree, root: string, rank: map<string, nat>)
    requires Ranked(t, rank)
    ensures GetParentNode(id, t, root, rank).Some? <==>
      id != root && exists p :: p in Reachable(t, root, rank) && id in Kids(t, p)
    ensures GetParentNode(id, t, root, rank).Some? ==>
      GetParentNode(id, t, root, rank).value in Reachable(t, root, rank) &&
      id in Kids(t, GetParentNode(id, t, root, rank).value)
  {
    var b := Height(t, rank, root);
    if id != root {
      if ParentFrom([root], id, t, rank, b).Some? {
        ParentFromSound([root], id, t, rank, b);
      }
      if exists p :: p in Reachable(t, root, rank) && id in Kids(t, p) {
        var p :| p in Reachable(t, root, rank) && id in Kids(t, p);
        ParentFromComplete([root], id, t, rank, b, p);
      }
    }
  }

  /**
   * `getParentNode` returns the first node, in breadth-first visiting order
   * from the root, whose children include the id; it returns nothing for the
   * root and for an id that no visited node lists.
   */
  lemma ParentFirst(id: string, t: ElementTree, root: string, rank: map<string, nat>)
    requires Ranked(t, rank)
    ensures var o := Order([root], t, rank, Height(t, rank, root));
      GetParentNode(id, t, root, rank).Some? ==>
        exists i :: FirstListing(o, id, t, i) && o[i] == GetParentNode(id, t, root, rank).value
    ensures var o := Order([root], t, rank, Height(t, rank, root));
      GetParentNode(id, t, root, rank).None? <==>
        id == root || forall i :: 0 <= i < |o| ==> id !in Kids(t, o[i])
  {
    var b := Height(t, rank, root);
    ParentFromFirst([root], id, t, rank, b);
    if id == root {
      assert GetParentNode(id, t, root, rank).None?;
    } else if ParentFrom([root], id, t, rank, b).Some? {
      var o := Order([root], t, rank, b);
      var i :| FirstListing(o, id, t, i) && o[i] == GetParentNode(id, t, root, rank).value;
      assert id in Kids(t, o[i]);
    }
  }

  /** A reachable node other than the root is the child of a reachable node. */
  lemma ReachableHangs(x: string, t: ElementTree, root: string, rank: map<string, nat>)
    requires Ranked(t, rank) && x in Reachable(t, root, rank) && x != root
    ensures exists w :: w in Reachable(t, root, rank) && x in Kids(t, w)
  {
    VisitedHang([root], t, rank, Height(t, rank, root), x);
  }

  // ---- gatherAllParent -------------------------------------------------------------------

  /** The nodes with an entry ranked above `p`. */
  ghost function Above(t: ElementTree, rank: map<string, nat>, p: string): set<string>
    requires Ranked(t, rank)
  {
    set q | q in t && rank[q] > (if p in t then rank[p] else 0)
  }

  lemma {:induction false} SubsetCard(a: set<string>, b: set<string>)
    requires a <= b
    ensures |a| <= |b|
    decreases |a|
  {
    if a != {} {
      var x :| x in a;
      SubsetCard(a - {x}, b - {x});
    }
  }

  /** A parent ranks above its child, so fewer nodes rank above it. */
  lemma ParentShrinksAbove(t: ElementTree, rank: map<string, nat>, p: string, q: string)
    requires Ranked(t, rank) && p in t && p in Kids(t, q)
    ensures |Above(t, rank, q)| < |Above(t, rank, p)|
  {
    var a := Above(t, rank, p);
    var b := Above(t, rank, q);
    assert q in a && q !in b;
    SubsetCard(b, a - {q});
  }

  /** Each entry of `parents` is the parent of the one before it, starting from `id`. */
  ghost predicate ParentChain(id: string, parents: seq<string>, t: ElementTree, rank: map<string, nat>)
    requires Ranked(t, rank)
  {
    (|parents| > 0 ==> GetParentNode(id, t, RootNode, rank) == Some(parents[0])) &&
    (forall i :: 0 <= i < |parents| - 1 ==> GetParentNode(parents[i], t, RootNode, rank) == Some(parents[i + 1]))
  }

  /** The node whose parent is looked up next: `id` at first, then the last ancestor found. */
  function Current(id: string, parents: seq<string>): string {
    if parents == [] then id else parents[|parents| - 1]
  }

  /** Appending the parent of the current node keeps the chain. */
  lemma ChainExtends(id: string, parents: seq<string>, p: string, t: ElementTree, rank: map<string, nat>)
    requires Ranked(t, rank) && ParentChain(id, parents, t, rank)
    requires GetParentNode(Current(id, parents), t, RootNode, rank) == Some(p)
    ensures ParentChain(id, parents + [p], t, rank)
  {
    var ps := parents + [p];
    forall i | 0 <= i < |ps| - 1
      ensures GetParentNode(ps[i], t, RootNode, rank) == Some(ps[i + 1])
    {
      if i < |parents| - 1 {
        assert ps[i] == parents[i] && ps[i + 1] == parents[i + 1];
      }
    }
  }

  /**
   * `gatherAllParent(elementId, elementTree)`: the ancestors nearest first,
   * following `getParentNode` (from `ROOT_NODE`) while it returns a truthy id.
   */
  method GatherAllParent(id: string, t: ElementTree, ghost rank: map<string, nat>) returns (parents: seq<string>)
    requires Ranked(t, rank)
    ensures ParentChain(id, parents, t, rank)
    ensures forall i :: 0 <= i < |parents| ==> parents[i] != ""
    ensures GetParentNode(Current(id, parents), t, RootNode, rank).None? ||
            GetParentNode(Current(id, parents), t, RootNode, rank) == Some("")
  {
    parents := [];
    var parent := GetParentNode(id, t, RootNode, rank);
    while parent.Some? && parent.value != ""
      invariant ParentChain(id, parents, t, rank)
      invariant forall i :: 0 <= i < |parents| ==> parents[i] != ""
      invariant parent == GetParentNode(Current(id, parents), t, RootNode, rank)
      decreases if parent.Some? then |Above(t, rank, parent.value)| + 1 else 0
    {
      var p := parent.value;
      ParentLaw(Current(id, parents), t, RootNode, rank);
      ChainExtends(id, parents, p, t, rank);
      parents := parents + [p];
      parent := GetParentNode(p, t, RootNode, rank);
      if parent.Some? {
        ParentLaw(p, t, RootNode, rank);
        ParentShrinksAbove(t, rank, p, parent.value);
      }
    }
  }

  /**
   * The ancestors of an id end at the root whenever there are any, provided
   * no child id is the empty string (which the source's truthiness test
   * would stop at).
   */
  lemma ParentsEndAtRoot(id: string, parents: seq<string>, t: ElementTree, rank: map<string, nat>)
    requires Ranked(t, rank)
    requires forall p, c :: p in t && c in t[p] ==> c != ""
    requires ParentChain(id, parents, t, rank) && parents != []
    requires GetParentNode(Current(id, parents), t, RootNode, rank).None? ||
             GetParentNode(Current(id, parents), t, RootNode, rank) == Some("")
    ensures parents[|parents| - 1] == RootNode
  {
    var last := parents[|parents| - 1];
    var before := if |parents| == 1 then id else parents[|parents| - 2];
    assert GetParentNode(before, t, RootNode, rank) == Some(last);
    ParentLaw(before, t, RootNode, rank);
    if last != RootNode {
      ReachableHangs(last, t, RootNode, rank);
      ParentLaw(last, t, RootNode, rank);
      assert GetParentNode(last, t, RootNode, rank) == Some("");
      ReachableHangs("", t, RootNode, rank);
      assert false;
    }
  }

  // ---- buildElementTree ------------------------------------------------------------------

  /** A tree-view node: its id, its parent id (`""` when it has none) and its element type, if given. */
  datatype TreeNode = TreeNode(id: string, parent: string, elementType: Option<Element.ElementType>)

  /** One iteration of the loop: a node with a parent is appended to its parent's list. */
  function AddNode(t: ElementTree, n: TreeNode): ElementTree {
    if n.parent == "" then t
    else
      var t := if n.elementType == Some(Element.Container) then t[n.id := Kids(t, n.id)] else t;
      t[n.parent := Kids(t, n.parent) + [n.id]]
  }

  /** `buildElementTree(tree, rootId)`. */
  function BuildElementTree(nodes: seq<TreeNode>, root: string): (r: ElementTree)
    ensures root in r
    decreases |nodes|
  {
    if nodes == [] then map[root := []]
    else AddNode(BuildElementTree(nodes[..|nodes| - 1], root), nodes[|nodes| - 1])
  }

  /** The ids of the nodes whose parent is `p`, in input order. */
  function ChildrenOf(nodes: seq<TreeNode>, p: string): (r: seq<string>)
    ensures forall x :: x in r <==> exists i :: 0 <= i < |nodes| && nodes[i].parent == p && p != "" && nodes[i].id == x
    decreases |nodes|
  {
    if nodes == [] then []
    else
      var init := nodes[..|nodes| - 1];
      var last := nodes[|nodes| - 1];
      assert forall i :: 0 <= i < |init| ==> init[i] == nodes[i];
      ChildrenOf(init, p) + (if last.parent == p && p != "" then [last.id] else [])
  }

  /** The map has an entry for the root, for every parent, and for every container that has a parent. */
  ghost predicate Listed(nodes: seq<TreeNode>, root: string, p: string) {
    p == root ||
    exists i :: 0 <= i < |nodes| && nodes[i].parent != "" &&
      (nodes[i].parent == p || (nodes[i].id == p && nodes[i].elementType == Some(Element.Container)))
  }

  /** One step adds the parent's and (for a container) the node's own entry, and appends to the parent only. */
  lemma AddNodeLaw(t: ElementTree, n: TreeNode, p: string)
    ensures p in AddNode(t, n) <==>
      p in t || (n.parent != "" && (p == n.parent || (p == n.id && n.elementType == Some(Element.Container))))
    ensures p in AddNode(t, n) ==>
      AddNode(t, n)[p] == Kids(t, p) + (if n.parent == p && p != "" then [n.id] else [])
  {
  }

  /** Nothing names `p` as parent, so it has no children. */
  lemma NoChildren(nodes: seq<TreeNode>, p: string)
    requires forall i :: 0 <= i < |nodes| ==> !(nodes[i].parent == p && p != "")
    ensures ChildrenOf(nodes, p) == []
  {
    if ChildrenOf(nodes, p) != [] {
      assert ChildrenOf(nodes, p)[0] in ChildrenOf(nodes, p);
    }
  }

  /** The keys of the built map are the root, the parents and the containers that have a parent. */
  lemma {:induction false} BuildKeys(nodes: seq<TreeNode>, root: string, p: string)
    ensures p in BuildElementTree(nodes, root) <==> Listed(nodes, root, p)
    decreases |nodes|
  {
    if nodes != [] {
      var init := nodes[..|nodes| - 1];
      var n := nodes[|nodes| - 1];
      BuildKeys(init, root, p);
      AddNodeLaw(BuildElementTree(init, root), n, p);
      assert forall i :: 0 <= i < |init| ==> init[i] == nodes[i];
      if Listed(init, root, p) {
        assert Listed(nodes, root, p);
      }
      if Listed(nodes, root, p) && !Listed(init, root, p) {
        var i :| 0 <= i < |nodes| && nodes[i].parent != "" &&
          (nodes[i].parent == p || (nodes[i].id == p && nodes[i].elementType == Some(Element.Container)));
        assert i == |nodes| - 1;
      }
    }
  }

  /** Each key lists exactly the nodes naming it as parent, in input order. */
  lemma {:induction false} BuildLists(nodes: seq<TreeNode>, root: string, p: string)
    requires p in BuildElementTree(nodes, root)
    ensures BuildElementTree(nodes, root)[p] == ChildrenOf(nodes, p)
    decreases |nodes|
  {
    if nodes != [] {
      var init := nodes[..|nodes| - 1];
      var n := nodes[|nodes| - 1];
      var t := BuildElementTree(init, root);
      AddNodeLaw(t, n, p);
      assert ChildrenOf(nodes, p) == ChildrenOf(init, p) + (if n.parent == p && p != "" then [n.id] else []);
      if p in t {
        BuildLists(init, root, p);
      } else {
        BuildKeys(init, root, p);
        assert forall i :: 0 <= i < |init| ==> !(init[i].parent == p && p != "");
        NoChildren(init, p);
      }
    }
  }

  /**
   * The keys of the built map are the root, the parents and the containers
   * that have a parent; each key lists exactly the nodes naming it as parent,
   * in input order. Nodes without a parent appear nowhere.
   */
  lemma BuildLaw(nodes: seq<TreeNode>, root: string, p: string)
    ensures p in BuildElementTree(nodes, root) <==> Listed(nodes, root, p)
    ensures p in BuildElementTree(nodes, root) ==> BuildElementTree(nodes, root)[p] == ChildrenOf(nodes, p)
  {
    BuildKeys(nodes, root, p);
    if p in BuildElementTree(nodes, root) {
      BuildLists(nodes, root, p);
    }
  }

  /**
   * The round trip: for distinct ids, every node with a parent that is
   * reachable from the root gets that parent back from `getParentNode` on the
   * built map.
   */
  lemma RoundTrip(nodes: seq<TreeNode>, rank: map<string, nat>, k: int)
    requires Ranked(BuildElementTree(nodes, RootNode), rank)
    requires forall i, j :: 0 <= i < j < |nodes| ==> nodes[i].id != nodes[j].id
    requires 0 <= k < |nodes| && nodes[k].parent != "" && nodes[k].id != RootNode
    requires nodes[k].parent in Reachable(BuildElementTree(nodes, RootNode), RootNode, rank)
    ensures GetParentNode(nodes[k].id, BuildElementTree(nodes, RootNode), RootNode, rank) == Some(nodes[k].parent)
  {
    var t := BuildElementTree(nodes, RootNode);
    var n := nodes[k];
    BuildLaw(nodes, RootNode, n.parent);
    assert n.id in ChildrenOf(nodes, n.parent);
    ParentLaw(n.id, t, RootNode, rank);
    var q := GetParentNode(n.id, t, RootNode, rank).value;
    BuildLaw(nodes, RootNode, q);
    var i :| 0 <= i < |nodes| && nodes[i].parent == q && q != "" && nodes[i].id == n.id;
    assert i == k;
  }
}
