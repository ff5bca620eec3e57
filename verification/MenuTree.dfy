/**
 The side menu as a tree. The menus come from the query in their display order; ids and
 codes are unique; a parent pointer may lead to a menu that is not in the list, or in a circle.
 */
module MenuTree {
  import opened Wrappers

  /** An empty icon or path stands for a missing one. */
  datatype Menu = Menu(id: nat, code: string, name: string, icon: string, path: string, parent: Option<nat>)

  /** No children stands for a missing children key. */
  datatype Node = Node(code: string, name: string, icon: string, path: string, children: seq<Node>)

  ghost predicate Unique(list: seq<Menu>) {
    && (forall j, k | 0 <= j < |list| && 0 <= k < |list| && list[j].id == list[k].id :: j == k)
    && (forall j, k | 0 <= j < |list| && 0 <= k < |list| && list[j].code == list[k].code :: j == k)
  }

  ghost predicate Distinct(menus: seq<Menu>) {
    forall j, k | 0 <= j < k < |menus| :: menus[j] != menus[k]
  }

  // ---------------------------------------------------------------------------
  // Chains of ancestors
  // ---------------------------------------------------------------------------

  /** The parent id of whatever comes below this chain. */
  function Below(chain: seq<Menu>): Option<nat> {
    if chain == [] then None else Some(chain[|chain| - 1].id)
  }

  /** From a parentless menu downwards, all of them in the list. */
  ghost predicate IsChain(list: seq<Menu>, chain: seq<Menu>) {
    forall k | 0 <= k < |chain| :: chain[k] in list && chain[k].parent == Below(chain[..k])
  }

  lemma LongerChain(list: seq<Menu>, chain: seq<Menu>, m: Menu)
    requires IsChain(list, chain) && m in list && m.parent == Below(chain)
    ensures IsChain(list, chain + [m])
  {
  }

  lemma ShorterChain(list: seq<Menu>, chain: seq<Menu>, n: nat)
    requires IsChain(list, chain) && n <= |chain|
    ensures IsChain(list, chain[..n])
  {
  }

  /** A menu has at most one chain, however the parent pointers run. */
  lemma {:induction false} ChainIsUnique(list: seq<Menu>, a: seq<Menu>, b: seq<Menu>)
    requires Unique(list) && IsChain(list, a) && IsChain(list, b) && Below(a) == Below(b)
    ensures a == b
  {
    if a != [] {
      var m, n := |a| - 1, |b| - 1;
      assert a[m] == b[n];
      ShorterChain(list, a, m);
      ShorterChain(list, b, n);
      ChainIsUnique(list, a[..m], b[..n]);
      assert a == a[..m] + [a[m]] && b == b[..n] + [b[n]];
    }
  }

  lemma {:induction false} NoRepeat(list: seq<Menu>, chain: seq<Menu>, j: nat, k: nat)
    requires Unique(list) && IsChain(list, chain) && j < k < |chain|
    ensures chain[j] != chain[k]
  {
    assert chain[j].parent == Below(chain[..j]) && chain[k].parent == Below(chain[..k]);
    if j > 0 { NoRepeat(list, chain, j - 1, k - 1); }
  }

  /** So no menu repeats on a chain, and a chain is no longer than the list. */
  lemma ChainFits(list: seq<Menu>, chain: seq<Menu>)
    requires Unique(list) && IsChain(list, chain)
    ensures Distinct(chain) && |chain| <= |list|
  {
    forall j, k | 0 <= j < k < |chain| ensures chain[j] != chain[k] {
      NoRepeat(list, chain, j, k);
    }
    forall m <- chain ensures m in list {
      var k :| 0 <= k < |chain| && chain[k] == m;
    }
    Pigeonhole(chain, list);
  }

  lemma {:induction false} Pigeonhole(a: seq<Menu>, b: seq<Menu>)
    requires Distinct(a) && forall m <- a :: m in b
    ensures |a| <= |b|
  {
    if a != [] {
      var m := a[0];
      assert m in b;
      var i :| 0 <= i < |b| && b[i] == m;
      forall x <- a[1..] ensures x in b[..i] + b[i + 1..] {
        assert x in a && x != m;
        assert b == b[..i] + [m] + b[i + 1..];
      }
      Pigeonhole(a[1..], b[..i] + b[i + 1..]);
    }
  }

  // ---------------------------------------------------------------------------
  // Building the tree
  // ---------------------------------------------------------------------------

  ghost predicate Children(list: seq<Menu>, kids: seq<Menu>, parent: Option<nat>) {
    forall m <- kids :: m in list && m.parent == parent
  }

  /** The menus below one parent, in query order. */
  function ByParent(list: seq<Menu>, parent: Option<nat>): (kids: seq<Menu>)
    ensures Children(list, kids, parent)
  {
    if list == [] then []
    else
      var init, last := list[..|list| - 1], list[|list| - 1];
      if last.parent == parent then ByParent(init, parent) + [last] else ByParent(init, parent)
  }

  lemma {:induction false} ByParentHas(list: seq<Menu>, m: Menu)
    requires m in list
    ensures m in ByParent(list, m.parent)
  {
    var init, last := list[..|list| - 1], list[|list| - 1];
    if m != last {
      assert m in init;
      ByParentHas(init, m);
    }
  }

  lemma {:induction false} ByParentDistinct(list: seq<Menu>, parent: Option<nat>)
    requires Distinct(list)
    ensures Distinct(ByParent(list, parent))
  {
    if list != [] {
      var init, last := list[..|list| - 1], list[|list| - 1];
      ByParentDistinct(init, parent);
      assert last !in init;
      assert Children(init, ByParent(init, parent), parent);
    }
  }

  /** `chain` ends at the menu and is the recursion's own stack; only its end matters to the result. */
  function ToNode(list: seq<Menu>, m: Menu, ghost chain: seq<Menu>): Node
    requires Unique(list) && IsChain(list, chain) && chain != [] && chain[|chain| - 1] == m
    decreases |list| - |chain|, 2, 0
  {
    Node(m.code, m.name, m.icon, m.path, ToNodes(list, ByParent(list, Some(m.id)), chain))
  }

  function ToNodes(list: seq<Menu>, kids: seq<Menu>, ghost chain: seq<Menu>): (nodes: seq<Node>)
    requires Unique(list) && IsChain(list, chain)
    requires Children(list, kids, Below(chain))
    ensures |nodes| == |kids|
    decreases |list| - |chain|, 1, |kids|
  {
    if kids == [] then []
    else
      assert kids[0] in kids && Children(list, kids[1..], Below(chain));
      LongerChain(list, chain, kids[0]);
      ChainFits(list, chain + [kids[0]]);
      [ToNode(list, kids[0], chain + [kids[0]])] + ToNodes(list, kids[1..], chain)
  }

  function Tree(list: seq<Menu>): seq<Node>
    requires Unique(list)
  {
    ToNodes(list, ByParent(list, None), [])
  }

  // ---------------------------------------------------------------------------
  // Where a menu occurs
  // ---------------------------------------------------------------------------

  /** How often a code occurs in a tree. */
  function InNode(n: Node, code: string): nat {
    (if n.code == code then 1 else 0) + InNodes(n.children, code)
  }

  function InNodes(nodes: seq<Node>, code: string): nat {
    if nodes == [] then 0 else InNode(nodes[0], code) + InNodes(nodes[1..], code)
  }

  /** The menu and all its ancestors up to a parentless one are in the list. */
  ghost predicate Rooted(list: seq<Menu>, m: Menu) {
    exists chain: seq<Menu> :: IsChain(list, chain) && chain != [] && chain[|chain| - 1] == m
  }

  /** `home` is the chain that ends at `m`, or empty when there is none. */
  ghost predicate Home(list: seq<Menu>, m: Menu, home: seq<Menu>) {
    if home == [] then !Rooted(list, m) else IsChain(list, home) && home[|home| - 1] == m
  }

  predicate OnTheWay(chain: seq<Menu>, home: seq<Menu>, kids: seq<Menu>) {
    chain < home && home[|chain|] in kids
  }

  lemma NextOnTheWay(list: seq<Menu>, home: seq<Menu>, chain: seq<Menu>)
    requires IsChain(list, home)
    ensures chain < home ==> OnTheWay(chain, home, ByParent(list, Below(chain)))
  {
    if chain < home {
      assert home[..|chain|] == chain;
      ByParentHas(list, home[|chain|]);
    }
  }

  lemma OnTheWaySplits(chain: seq<Menu>, home: seq<Menu>, kids: seq<Menu>)
    requires kids != [] && Distinct(kids)
    ensures OnTheWay(chain, home, kids) <==> chain + [kids[0]] <= home || OnTheWay(chain, home, kids[1..])
    ensures !(chain + [kids[0]] <= home && OnTheWay(chain, home, kids[1..]))
  {
  }

  lemma {:induction false} CountInNode(list: seq<Menu>, m: Menu, home: seq<Menu>, at: Menu, chain: seq<Menu>)
    requires Unique(list) && m in list && Home(list, m, home)
    requires IsChain(list, chain) && chain != [] && chain[|chain| - 1] == at
    ensures InNode(ToNode(list, at, chain), m.code) == if chain <= home then 1 else 0
    decreases |list| - |chain|, 2, 0
  {
    var kids := ByParent(list, Some(at.id));
    ByParentDistinct(list, Some(at.id));
    CountInNodes(list, m, home, kids, chain);
    NextOnTheWay(list, home, chain);
    if at == m {
      assert Rooted(list, m);
      ChainIsUnique(list, chain, home);
    } else {
      assert at in list;
      assert chain != home;
    }
  }

  lemma {:induction false} CountInNodes(list: seq<Menu>, m: Menu, home: seq<Menu>, kids: seq<Menu>, chain: seq<Menu>)
    requires Unique(list) && m in list && Home(list, m, home) && IsChain(list, chain)
    requires Children(list, kids, Below(chain)) && Distinct(kids)
    ensures InNodes(ToNodes(list, kids, chain), m.code) == if OnTheWay(chain, home, kids) then 1 else 0
    decreases |list| - |chain|, 1, |kids|
  {
    if kids != [] {
      assert kids[0] in kids && Children(list, kids[1..], Below(chain));
      LongerChain(list, chain, kids[0]);
      ChainFits(list, chain + [kids[0]]);
      CountInNode(list, m, home, kids[0], chain + [kids[0]]);
      CountInNodes(list, m, home, kids[1..], chain);
      OnTheWaySplits(chain, home, kids);
    }
  }

  /** Whatever the parent pointers: a listed menu occurs once if it is rooted and not at all if it is not. */
  lemma OccursOnceIffRooted(list: seq<Menu>, m: Menu)
    requires Unique(list) && m in list
    ensures InNodes(Tree(list), m.code) == if Rooted(list, m) then 1 else 0
  {
    var home: seq<Menu> := [];
    if Rooted(list, m) {
      home :| IsChain(list, home) && home != [] && home[|home| - 1] == m;
    }
    ByParentDistinct(list, None);
    CountInNodes(list, m, home, ByParent(list, None), []);
    NextOnTheWay(list, home, []);
  }

  /** Nothing else occurs. */
  lemma {:induction false} OnlyListedInNode(list: seq<Menu>, at: Menu, chain: seq<Menu>, code: string)
    requires Unique(list) && IsChain(list, chain) && chain != [] && chain[|chain| - 1] == at
    requires forall m <- list :: m.code != code
    ensures InNode(ToNode(list, at, chain), code) == 0
    decreases |list| - |chain|, 2, 0
  {
    OnlyListed(list, ByParent(list, Some(at.id)), chain, code);
  }

  lemma {:induction false} OnlyListed(list: seq<Menu>, kids: seq<Menu>, chain: seq<Menu>, code: string)
    requires Unique(list) && IsChain(list, chain)
    requires Children(list, kids, Below(chain))
    requires forall m <- list :: m.code != code
    ensures InNodes(ToNodes(list, kids, chain), code) == 0
    decreases |list| - |chain|, 1, |kids|
  {
    if kids != [] {
      assert kids[0] in kids && Children(list, kids[1..], Below(chain));
      LongerChain(list, chain, kids[0]);
      ChainFits(list, chain + [kids[0]]);
      OnlyListedInNode(list, kids[0], chain + [kids[0]], code);
      OnlyListed(list, kids[1..], chain, code);
    }
  }

  lemma ByParentStep(list: seq<Menu>, parent: Option<nat>)
    requires list != []
    ensures var init, last := list[..|list| - 1], list[|list| - 1];
            ByParent(list, parent) == ByParent(init, parent) + (if last.parent == parent then [last] else [])
  {
  }

  /** Siblings stand in query order. */
  lemma {:induction false} SiblingsKeepOrder(list: seq<Menu>, j: nat, k: nat) returns (a: nat, b: nat)
    requires j < k < |list| && list[j].parent == list[k].parent
    ensures var kids := ByParent(list, list[j].parent);
            a < b < |kids| && kids[a] == list[j] && kids[b] == list[k]
  {
    var init := list[..|list| - 1];
    var kids := ByParent(init, list[j].parent);
    ByParentStep(list, list[j].parent);
    if k < |init| {
      a, b := SiblingsKeepOrder(init, j, k);
    } else {
      ByParentHas(init, init[j]);
      a :| 0 <= a < |kids| && kids[a] == list[j];
      b := |kids|;
    }
  }

  lemma {:induction false} NodesFollowMenus(list: seq<Menu>, kids: seq<Menu>, chain: seq<Menu>, k: nat)
    requires Unique(list) && IsChain(list, chain) && k < |kids|
    requires Children(list, kids, Below(chain))
    ensures IsChain(list, chain + [kids[k]])
    ensures ToNodes(list, kids, chain)[k] == ToNode(list, kids[k], chain + [kids[k]])
  {
    assert kids[0] in kids && Children(list, kids[1..], Below(chain));
    LongerChain(list, chain, kids[0]);
    if k > 0 { NodesFollowMenus(list, kids[1..], chain, k - 1); }
  }

  // ---------------------------------------------------------------------------
  // What the nodes show
  // ---------------------------------------------------------------------------

  /** The node shows the menu, and below it the menus whose parent it is, in query order. */
  ghost predicate Shows(n: Node, m: Menu, list: seq<Menu>)
    decreases n
  {
    && n.code == m.code && n.name == m.name && n.icon == m.icon && n.path == m.path
    && var kids := ByParent(list, Some(m.id));
       |n.children| == |kids| && forall k | 0 <= k < |kids| :: Shows(n.children[k], kids[k], list)
  }

  lemma {:induction false} NodeShows(list: seq<Menu>, m: Menu, chain: seq<Menu>)
    requires Unique(list) && IsChain(list, chain) && chain != [] && chain[|chain| - 1] == m
    ensures Shows(ToNode(list, m, chain), m, list)
    decreases |list| - |chain|, 2, 0
  {
    NodesShow(list, ByParent(list, Some(m.id)), chain);
  }

  lemma {:induction false} NodesShow(list: seq<Menu>, kids: seq<Menu>, chain: seq<Menu>)
    requires Unique(list) && IsChain(list, chain) && Children(list, kids, Below(chain))
    ensures forall k | 0 <= k < |kids| :: Shows(ToNodes(list, kids, chain)[k], kids[k], list)
    decreases |list| - |chain|, 1, |kids|
  {
    if kids != [] {
      assert kids[0] in kids && Children(list, kids[1..], Below(chain));
      LongerChain(list, chain, kids[0]);
      ChainFits(list, chain + [kids[0]]);
      NodeShows(list, kids[0], chain + [kids[0]]);
      NodesShow(list, kids[1..], chain);
    }
  }

  /** The tree's top nodes show the parentless menus in query order, and so on downwards. */
  lemma TreeShowsMenus(list: seq<Menu>)
    requires Unique(list)
    ensures var roots := ByParent(list, None);
            |Tree(list)| == |roots| && forall k | 0 <= k < |roots| :: Shows(Tree(list)[k], roots[k], list)
  {
    NodesShow(list, ByParent(list, None), []);
  }

  /** Exactly the menus of the list with that parent. */
  lemma {:induction false} ByParentIff(list: seq<Menu>, parent: Option<nat>, m: Menu)
    ensures m in ByParent(list, parent) <==> m in list && m.parent == parent
  {
    if m in list && m.parent == parent { ByParentHas(list, m); }
    assert Children(list, ByParent(list, parent), parent);
  }

  // ---------------------------------------------------------------------------
  // As the program does it: first group by parent, then recurse
  // ---------------------------------------------------------------------------

  ghost predicate Grouped(byParent: map<Option<nat>, seq<Menu>>, list: seq<Menu>) {
    forall parent :: (if parent in byParent then byParent[parent] else []) == ByParent(list, parent)
  }

  method GroupByParent(list: seq<Menu>) returns (byParent: map<Option<nat>, seq<Menu>>)
    ensures Grouped(byParent, list)
  {
    byParent := map[];
    for i := 0 to |list|
      invariant Grouped(byParent, list[..i])
    {
      assert list[..i + 1][..i] == list[..i];
      var parent := list[i].parent;
      var siblings := if parent in byParent then byParent[parent] else [];
      byParent := byParent[parent := siblings + [list[i]]];
    }
    assert list[..|list|] == list;
  }

  method BuildNode(byParent: map<Option<nat>, seq<Menu>>, m: Menu, ghost list: seq<Menu>, ghost chain: seq<Menu>)
    returns (node: Node)
    requires Unique(list) && Grouped(byParent, list)
    requires IsChain(list, chain) && chain != [] && chain[|chain| - 1] == m
    ensures node == ToNode(list, m, chain)
    decreases |list| - |chain|, 2, 0
  {
    var children := if Some(m.id) in byParent then byParent[Some(m.id)] else [];
    var nodes := BuildNodes(byParent, children, list, chain);
    node := Node(m.code, m.name, m.icon, m.path, nodes);
  }

  method BuildNodes(byParent: map<Option<nat>, seq<Menu>>, kids: seq<Menu>, ghost list: seq<Menu>,
                    ghost chain: seq<Menu>) returns (nodes: seq<Node>)
    requires Unique(list) && Grouped(byParent, list) && IsChain(list, chain)
    requires Children(list, kids, Below(chain))
    ensures nodes == ToNodes(list, kids, chain)
    decreases |list| - |chain|, 1, 0
  {
    nodes := [];
    for i := 0 to |kids|
      invariant |nodes| == i && forall k | 0 <= k < i :: nodes[k] == ToNodes(list, kids, chain)[k]
    {
      LongerChain(list, chain, kids[i]);
      ChainFits(list, chain + [kids[i]]);
      NodesFollowMenus(list, kids, chain, i);
      var node := BuildNode(byParent, kids[i], list, chain + [kids[i]]);
      nodes := nodes + [node];
    }
  }

  method BuildTree(list: seq<Menu>) returns (nodes: seq<Node>)
    requires Unique(list)
    ensures nodes == Tree(list)
  {
    var byParent := GroupByParent(list);
    var roots := if None in byParent then byParent[None] else [];
    nodes := BuildNodes(byParent, roots, list, []);
  }
}
