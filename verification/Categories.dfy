/**
 The nested-set rebuild of the category tree: categories are numbered in place so that an interval inside
 another, in the same tree, means descent.
 */
module Categories {
  import opened Ledger

  class Category {
    const id: nat
    const parentId: Option<nat>
    var lft: int
    var rght: int
    var treeId: int
    var level: int
    var children: seq<Category>

    constructor (id: nat, parentId: Option<nat>, lft: int, rght: int, treeId: int, level: int)
      ensures this.id == id && this.parentId == parentId && children == []
      ensures this.lft == lft && this.rght == rght && this.treeId == treeId && this.level == level
    {
      this.id, this.parentId, this.children := id, parentId, [];
      this.lft, this.rght, this.treeId, this.level := lft, rght, treeId, level;
    }
  }

  /** Rows of one table: distinct objects, distinct positive primary keys. */
  predicate Table(cats: seq<Category>) {
    && (forall i | 0 <= i < |cats| :: cats[i].id > 0)
    && (forall i, j | 0 <= i < j < |cats| :: cats[i].id != cats[j].id)
  }

  /** The first n rows that are children of a category, in table order. */
  function Kids(cats: seq<Category>, id: nat, n: nat): seq<Category>
    requires n <= |cats|
  {
    if n == 0 then []
    else if cats[n - 1].parentId == Some(id) then Kids(cats, id, n - 1) + [cats[n - 1]]
    else Kids(cats, id, n - 1)
  }

  lemma {:induction false} KidsAre(cats: seq<Category>, id: nat, n: nat)
    requires n <= |cats|
    ensures forall j | 0 <= j < |Kids(cats, id, n)| ::
              Kids(cats, id, n)[j] in cats[..n] && Kids(cats, id, n)[j].parentId == Some(id)
    ensures forall i | 0 <= i < n && cats[i].parentId == Some(id) :: cats[i] in Kids(cats, id, n)
  {
    if n > 0 { KidsAre(cats, id, n - 1); }
  }

  function Children(cats: seq<Category>, id: nat): (kids: seq<Category>)
    ensures forall j | 0 <= j < |kids| :: kids[j] in cats && kids[j].parentId == Some(id)
    ensures forall c | c in cats && c.parentId == Some(id) :: c in kids
  {
    KidsAre(cats, id, |cats|);
    Kids(cats, id, |cats|)
  }

  /** The categories without a parent among the first n rows, in table order. */
  function Tops(cats: seq<Category>, n: nat): seq<Category>
    requires n <= |cats|
  {
    if n == 0 then []
    else if cats[n - 1].parentId == None then Tops(cats, n - 1) + [cats[n - 1]]
    else Tops(cats, n - 1)
  }

  lemma {:induction false} TopsAre(cats: seq<Category>, n: nat)
    requires n <= |cats|
    ensures forall r | 0 <= r < |Tops(cats, n)| :: Tops(cats, n)[r] in cats[..n] && Tops(cats, n)[r].parentId == None
    ensures forall i | 0 <= i < n && cats[i].parentId == None :: cats[i] in Tops(cats, n)
  {
    if n > 0 { TopsAre(cats, n - 1); }
  }

  function Roots(cats: seq<Category>): (roots: seq<Category>)
    ensures forall r | 0 <= r < |roots| :: roots[r] in cats && roots[r].parentId == None
    ensures forall c | c in cats && c.parentId == None :: c in roots
  {
    TopsAre(cats, |cats|);
    Tops(cats, |cats|)
  }

  lemma {:induction false} KidsDistinct(cats: seq<Category>, id: nat, n: nat)
    requires Table(cats) && n <= |cats|
    ensures forall i, j | 0 <= i < j < |Kids(cats, id, n)| :: Kids(cats, id, n)[i] != Kids(cats, id, n)[j]
  {
    if n > 0 {
      KidsDistinct(cats, id, n - 1);
      KidsAre(cats, id, n - 1);
    }
  }

  lemma {:induction false} TopsDistinct(cats: seq<Category>, n: nat)
    requires Table(cats) && n <= |cats|
    ensures forall i, j | 0 <= i < j < |Tops(cats, n)| :: Tops(cats, n)[i] != Tops(cats, n)[j]
  {
    if n > 0 {
      TopsDistinct(cats, n - 1);
      TopsAre(cats, n - 1);
    }
  }

  /** a comes before b among the first n rows. */
  ghost predicate Precedes(cats: seq<Category>, n: nat, a: Category, b: Category)
    requires n <= |cats|
  {
    exists i, j | 0 <= i < j < n :: cats[i] == a && cats[j] == b
  }

  /** Children are listed in table order. */
  lemma {:induction false} KidsInOrder(cats: seq<Category>, id: nat, n: nat)
    requires n <= |cats|
    ensures forall i, j | 0 <= i < j < |Kids(cats, id, n)| ::
              Precedes(cats, n, Kids(cats, id, n)[i], Kids(cats, id, n)[j])
  {
    if n > 0 {
      KidsInOrder(cats, id, n - 1);
      KidsAre(cats, id, n - 1);
      forall i, j | 0 <= i < j < |Kids(cats, id, n)|
        ensures Precedes(cats, n, Kids(cats, id, n)[i], Kids(cats, id, n)[j])
      {
        if j < |Kids(cats, id, n - 1)| {
          assert Precedes(cats, n - 1, Kids(cats, id, n - 1)[i], Kids(cats, id, n - 1)[j]);
        } else {
          var k :| 0 <= k < n - 1 && cats[k] == Kids(cats, id, n)[i];
        }
      }
    }
  }

  /** Trees are numbered in the table order of their roots. */
  lemma {:induction false} TopsInOrder(cats: seq<Category>, n: nat)
    requires n <= |cats|
    ensures forall i, j | 0 <= i < j < |Tops(cats, n)| :: Precedes(cats, n, Tops(cats, n)[i], Tops(cats, n)[j])
  {
    if n > 0 {
      TopsInOrder(cats, n - 1);
      TopsAre(cats, n - 1);
      forall i, j | 0 <= i < j < |Tops(cats, n)| ensures Precedes(cats, n, Tops(cats, n)[i], Tops(cats, n)[j]) {
        if j < |Tops(cats, n - 1)| {
          assert Precedes(cats, n - 1, Tops(cats, n - 1)[i], Tops(cats, n - 1)[j]);
        } else {
          var k :| 0 <= k < n - 1 && cats[k] == Tops(cats, n)[i];
        }
      }
    }
  }

  /** `if cat.parent_id`: a parent is named, and 0 counts as no name. */
  predicate NamesParent(c: Category) {
    c.parentId.Some? && c.parentId.value != 0
  }

  predicate ParentKnown(cats: seq<Category>, c: Category) {
    NamesParent(c) ==> exists p | p in cats :: p.id == c.parentId.value
  }

  lemma {:induction false} KidsStep(cats: seq<Category>, i: nat)
    requires i < |cats|
    ensures forall id: nat :: Kids(cats, id, 0) == []
    ensures forall id: nat ::
              Kids(cats, id, i + 1) == Kids(cats, id, i) + if cats[i].parentId == Some(id) then [cats[i]] else []
  {
  }

  /** The first loop: hang each category under its parent; stop when a parent is missing. */
  method AttachChildren(cats: seq<Category>) returns (ok: bool)
    requires Table(cats) && forall c | c in cats :: c.children == []
    modifies cats`children
    ensures ok <==> forall c | c in cats :: ParentKnown(cats, c)
    ensures ok ==> forall c | c in cats :: c.children == Children(cats, c.id)
  {
    hide Kids, ParentKnown, Table;
    if |cats| > 0 { KidsStep(cats, 0); }
    var i: nat := 0;
    while i < |cats|
      invariant i <= |cats|
      invariant forall k | 0 <= k < i :: ParentKnown(cats, cats[k])
      invariant forall k | 0 <= k < |cats| :: cats[k].children == Kids(cats, cats[k].id, i)
    {
      KidsStep(cats, i);
      var p: nat := |cats|;
      if NamesParent(cats[i]) {
        p := FindById(cats, cats[i].parentId.value);
        ParentFound(cats, i, p);
        if p == |cats| { return false; }
        cats[p].children := cats[p].children + [cats[i]];
      } else {
        ParentFound(cats, i, p);
      }
      i := i + 1;
    }
    return true;
  }

  /** Only the category found under the parent's key gets the child. */
  lemma {:induction false} ParentFound(cats: seq<Category>, i: nat, p: nat)
    requires Table(cats) && i < |cats| && p <= |cats|
    requires p < |cats| ==> Some(cats[p].id) == cats[i].parentId
    requires p == |cats| && NamesParent(cats[i]) ==> forall c | c in cats :: c.id != cats[i].parentId.value
    ensures ParentKnown(cats, cats[i]) <==> p < |cats| || !NamesParent(cats[i])
    ensures forall k | 0 <= k < |cats| :: cats[i].parentId == Some(cats[k].id) <==> k == p
    ensures p < |cats| ==> forall k | 0 <= k < |cats| && k != p :: cats[k] != cats[p]
  {
  }

  /** The index of the category with a primary key, or the table's length. */
  method FindById(cats: seq<Category>, id: nat) returns (p: nat)
    ensures p <= |cats|
    ensures p < |cats| ==> cats[p].id == id
    ensures p == |cats| ==> forall c | c in cats :: c.id != id
  {
    p := 0;
    while p < |cats|
      invariant p <= |cats| && forall k | 0 <= k < p :: cats[k].id != id
    {
      if cats[p].id == id { return; }
      p := p + 1;
    }
  }

  // ----- numbering -----

  predicate Distinct(nodes: seq<Category>) {
    forall i, j | 0 <= i < j < |nodes| :: nodes[i] != nodes[j]
  }

  /** The j-th child of the tree's root. */
  predicate ChildNumbered(c: Category, tree: int, j: nat)
    reads c
  {
    c.treeId == tree && c.level == 1 && c.lft == 2 + 2 * j && c.rght == 3 + 2 * j
  }

  predicate TreeNumbered(root: Category, kids: seq<Category>, tree: int)
    reads root, kids
  {
    && root.treeId == tree && root.lft == 1 && root.rght == 2 + 2 * |kids|
    && forall j: nat | j < |kids| :: ChildNumbered(kids[j], tree, j)
  }

  method NumberChildren(kids: seq<Category>, tid: int) returns (left: int)
    requires Distinct(kids)
    modifies kids`lft, kids`rght, kids`treeId, kids`level
    ensures left == 2 + 2 * |kids|
    ensures forall j: nat | j < |kids| :: ChildNumbered(kids[j], tid, j)
  {
    left := 2;
    var j: nat := 0;
    while j < |kids|
      invariant j <= |kids| && left == 2 + 2 * j
      invariant forall k: nat | k < j :: ChildNumbered(kids[k], tid, k)
    {
      kids[j].lft := left;
      kids[j].rght := left + 1;
      kids[j].treeId := tid;
      kids[j].level := 1;
      left := left + 2;
      j := j + 1;
    }
  }

  method NumberTree(root: Category, tid: int)
    requires Distinct(root.children) && root !in root.children
    modifies {root}`treeId, {root}`lft, {root}`rght
    modifies root.children`lft, root.children`rght, root.children`treeId, root.children`level
    ensures TreeNumbered(root, root.children, tid)
  {
    root.treeId := tid;
    root.lft := 1;
    var left := NumberChildren(root.children, tid);
    root.rght := left;
  }

  ghost predicate TreeOf(cats: seq<Category>, r: nat)
    requires r < |Roots(cats)|
    reads cats
  {
    var root := Roots(cats)[r];
    TreeNumbered(root, Children(cats, root.id), r + 1)
  }

  /** Every tree is numbered, the r-th one with tree id r + 1. */
  ghost predicate Numbered(cats: seq<Category>, n: nat)
    requires n <= |Roots(cats)|
    reads cats
  {
    forall r: nat | r < n :: TreeOf(cats, r)
  }

  lemma {:induction false} IdsDiffer(cats: seq<Category>, a: Category, b: Category)
    requires Table(cats) && a in cats && b in cats && a != b
    ensures a.id != b.id
  {
  }

  /** No category belongs to two trees, nor twice to one. */
  lemma {:induction false} TreesApart(cats: seq<Category>, r: nat)
    requires Table(cats) && r < |Roots(cats)|
    ensures var roots, kids := Roots(cats), Children(cats, Roots(cats)[r].id);
            && Distinct(kids) && roots[r] !in kids
            && forall q: nat | q < |roots| && q != r ::
                 && roots[q] != roots[r] && roots[q] !in kids
                 && var others := Children(cats, roots[q].id);
                    forall j | 0 <= j < |others| :: others[j] != roots[r] && others[j] !in kids
  {
    var roots := Roots(cats);
    TopsDistinct(cats, |cats|);
    KidsDistinct(cats, roots[r].id, |cats|);
    forall q: nat | q < |roots| && q != r ensures roots[q].id != roots[r].id {
      var a, b := if q < r then q else r, if q < r then r else q;
      assert roots[a] != roots[b];
      IdsDiffer(cats, roots[q], roots[r]);
    }
  }

  /** The second loop: number tree after tree. */
  method NumberTrees(cats: seq<Category>)
    requires Table(cats) && forall c | c in cats :: c.children == Children(cats, c.id)
    modifies cats`lft, cats`rght, cats`treeId, cats`level
    ensures Numbered(cats, |Roots(cats)|)
    ensures forall i | 0 <= i < |cats| && cats[i].parentId.None? :: cats[i].level == old(cats[i].level)
  {
    hide Kids, Tops, Distinct, Table;
    var roots := Roots(cats);
    var r: nat := 0;
    while r < |roots|
      invariant r <= |roots| && forall q: nat | q < r :: TreeOf(cats, q)
      invariant forall c | c in cats :: c.children == Children(cats, c.id)
      invariant forall i | 0 <= i < |cats| && cats[i].parentId.None? :: cats[i].level == old(cats[i].level)
    {
      TreesApart(cats, r);
      var kids := roots[r].children;
      label before:
      NumberTree(roots[r], r + 1);
      forall q: nat | q < r ensures TreeOf(cats, q) {
        var others := Children(cats, roots[q].id);
        assert forall j | 0 <= j < |others| :: others[j] != roots[r] && others[j] !in kids;
        assert unchanged@before(roots[q]) && forall j | 0 <= j < |others| :: unchanged@before(others[j]);
        assert old@before(TreeOf(cats, q)) && old@before(TreeNumbered(roots[q], others, q + 1));
      }
      r := r + 1;
    }
  }

  /** `fix_category_hierarchy`, the in-memory part: nothing is numbered when a parent is missing. */
  method RebuildHierarchy(cats: seq<Category>) returns (ok: bool)
    requires Table(cats) && forall c | c in cats :: c.children == []
    modifies cats
    ensures ok <==> forall c | c in cats && c.parentId.Some? && c.parentId.value != 0 ::
              exists p | p in cats :: p.id == c.parentId.value
    ensures ok ==> Numbered(cats, |Roots(cats)|)
    ensures ok ==> forall i | 0 <= i < |cats| && cats[i].parentId.None? :: cats[i].level == old(cats[i].level)
    ensures !ok ==> forall c | c in cats ::
              c.lft == old(c.lft) && c.rght == old(c.rght) && c.treeId == old(c.treeId) && c.level == old(c.level)
  {
    ok := AttachChildren(cats);
    if ok { NumberTrees(cats); }
  }

  // ----- what the numbers mean -----

  /** A forest of depth at most two: every named parent is itself without parent. */
  ghost predicate DepthTwo(cats: seq<Category>) {
    forall c | c in cats && c.parentId.Some? ::
      exists r: nat | r < |Roots(cats)| :: Roots(cats)[r].id == c.parentId.value
  }

  /** Where a category stands: tree r, at the root (j = 0) or as the j-th child. */
  ghost predicate StandsAt(cats: seq<Category>, c: Category, r: nat, j: nat)
    requires c in cats
    reads cats
  {
    && r < |Roots(cats)|
    && var root, kids := Roots(cats)[r], Children(cats, Roots(cats)[r].id);
       && j <= |kids| && c.treeId == r + 1
       && if j == 0 then c == root && c.lft == 1 && c.rght == 2 + 2 * |kids|
          else c == kids[j - 1] && c.lft == 2 * j && c.rght == 2 * j + 1
  }

  lemma {:induction false} Position(cats: seq<Category>, c: Category) returns (r: nat, j: nat)
    requires DepthTwo(cats) && Numbered(cats, |Roots(cats)|) && c in cats
    ensures StandsAt(cats, c, r, j)
  {
    var roots := Roots(cats);
    if c.parentId.None? {
      r :| r < |roots| && roots[r] == c;
      j := 0;
      assert TreeOf(cats, r);
    } else {
      r :| r < |roots| && roots[r].id == c.parentId.value;
      var kids := Children(cats, roots[r].id);
      var i: nat :| i < |kids| && kids[i] == c;
      j := i + 1;
      assert TreeOf(cats, r);
      assert ChildNumbered(kids[i], r + 1, i);
    }
  }

  /** Children of a top category stand on the first level. */
  lemma {:induction false} ChildLevel(cats: seq<Category>, r: nat, c: Category)
    requires Numbered(cats, |Roots(cats)|) && r < |Roots(cats)|
    requires c in cats && c.parentId == Some(Roots(cats)[r].id)
    ensures c.level == 1 && c.treeId == r + 1
  {
    var kids := Children(cats, Roots(cats)[r].id);
    var j: nat :| j < |kids| && kids[j] == c;
    assert TreeOf(cats, r);
    assert ChildNumbered(kids[j], r + 1, j);
  }

  /** Interval containment within a tree is descent: it holds exactly between a category and itself or its
      parent. */
  lemma {:induction false} NestedSetAgreement(cats: seq<Category>, a: Category, b: Category)
    requires Table(cats) && DepthTwo(cats) && Numbered(cats, |Roots(cats)|) && a in cats && b in cats
    ensures a.treeId == b.treeId && b.lft <= a.lft && a.rght <= b.rght <==> a == b || a.parentId == Some(b.id)
  {
    var r, i := Position(cats, a);
    var q, j := Position(cats, b);
    var root := Roots(cats)[r];
    assert TreeOf(cats, r);
    if a.parentId == Some(b.id) {
      assert a.parentId == Some(root.id);
      if b != root { IdsDiffer(cats, b, root); }
    }
  }

  /** The endpoints of a tree with k children are the numbers 1 to 2(k + 1), each used once. */
  lemma {:induction false} EndpointsOnce(cats: seq<Category>, a: Category, b: Category)
    requires DepthTwo(cats) && Numbered(cats, |Roots(cats)|) && a in cats && b in cats
    requires a.treeId == b.treeId
    ensures a.lft != b.rght
    ensures a.lft == b.lft || a.rght == b.rght ==> a == b
    ensures a.parentId == b.parentId && a != b ==> a.rght < b.lft || b.rght < a.lft
  {
    var r, i := Position(cats, a);
    var q, j := Position(cats, b);
  }

  lemma {:induction false} EndpointsCover(cats: seq<Category>, r: nat, p: nat)
    requires Numbered(cats, |Roots(cats)|) && r < |Roots(cats)|
    ensures 1 <= p <= 2 * (|Children(cats, Roots(cats)[r].id)| + 1)
       <==> exists c | c in cats ::
              && c.treeId == r + 1 && (c.lft == p || c.rght == p)
              && (c == Roots(cats)[r] || c.parentId == Some(Roots(cats)[r].id))
  {
    var root, kids := Roots(cats)[r], Children(cats, Roots(cats)[r].id);
    assert TreeOf(cats, r);
    if p == 1 || p == 2 + 2 * |kids| {
      assert root in cats;
    } else if 1 < p < 2 + 2 * |kids| {
      var j := p / 2 - 1;
      assert ChildNumbered(kids[j], r + 1, j);
    }
    if c :| c in cats && c.treeId == r + 1 && (c.lft == p || c.rght == p)
            && (c == root || c.parentId == Some(root.id)) {
      if c != root {
        var j: nat :| j < |kids| && kids[j] == c;
        assert ChildNumbered(kids[j], r + 1, j);
      }
    }
  }

  /** Different trees have different tree ids. */
  lemma {:induction false} TreeIdsDistinct(cats: seq<Category>, q: nat, r: nat)
    requires Numbered(cats, |Roots(cats)|) && q < r < |Roots(cats)|
    ensures Roots(cats)[q].treeId != Roots(cats)[r].treeId
  {
    assert TreeOf(cats, q) && TreeOf(cats, r);
  }
}
