/** The category tree of the catalogue page (loadProducts in
    client/src/pages/ProductsPage.tsx) and the packages gathered for the
    chosen category. The page keeps one copy of each category per id (the
    last one in the list) and links the copies by reference; the model keeps
    the copies in `byId` and the links as id lists. */
module CategoryTree {
  import opened Wrappers
  import opened Types

  /** A category as the platform lists it; `parent` is the parent's id,
      `None` for a null parent; a missing package list is empty. */
  datatype Category = Category(id: int, name: string, parent: Option<int>, packages: seq<Package>)

  /** `top`: the top-level categories in list order; `children[p]`: the
      categories pushed onto p's subcategories, in list order. */
  datatype Tree = Tree(top: seq<int>, byId: map<int, Category>, children: map<int, seq<int>>)

  /** `cat.parent && cat.parent.id`: an id of 0 counts as no parent. */
  predicate HasParent(c: Category)
  {
    c.parent.Some? && c.parent.value != 0
  }

  function IdSet(cats: seq<Category>): set<int>
  {
    set c | c in cats :: c.id
  }

  // ---------------------------------------------------------------------
  // What the two loops compute

  /** The map after the first loop: the last category listed under each id. */
  function LastById(cats: seq<Category>): map<int, Category>
    decreases |cats|
  {
    if cats == [] then map[] else LastById(cats[..|cats| - 1])[cats[|cats| - 1].id := cats[|cats| - 1]]
  }

  /** The ids of the parentless categories, in list order. */
  function TopLevelIds(cats: seq<Category>): seq<int>
    decreases |cats|
  {
    if cats == [] then []
    else TopLevelIds(cats[..|cats| - 1]) + (if HasParent(cats[|cats| - 1]) then [] else [cats[|cats| - 1].id])
  }

  /** The ids of the categories whose parent is `p`, in list order. */
  function ChildIds(cats: seq<Category>, p: int): seq<int>
    decreases |cats|
  {
    if cats == [] then []
    else
      var c := cats[|cats| - 1];
      ChildIds(cats[..|cats| - 1], p) + (if HasParent(c) && c.parent.value == p then [c.id] else [])
  }

  /** loadProducts' first loop: one copy of each category, under its id,
      with an empty list of subcategories. */
  method IndexCategories(cats: seq<Category>) returns (byId: map<int, Category>, children: map<int, seq<int>>)
    ensures byId == LastById(cats)
    ensures children.Keys == IdSet(cats)
    ensures forall p :: p in children ==> children[p] == []
  {
    byId := map[];
    children := map[];
    var i := 0;
    while i < |cats|
      invariant 0 <= i <= |cats|
      invariant byId == LastById(cats[..i])
      invariant children.Keys == IdSet(cats[..i])
      invariant forall p :: p in children ==> children[p] == []
    {
      IdSetStep(cats, i);
      byId := byId[cats[i].id := cats[i]];
      children := children[cats[i].id := []];
      i := i + 1;
    }
    assert cats[..i] == cats;
  }

  lemma IdSetStep(cats: seq<Category>, i: int)
    requires 0 <= i < |cats|
    ensures cats[..i + 1][..i] == cats[..i]
    ensures IdSet(cats[..i + 1]) == IdSet(cats[..i]) + {cats[i].id}
  {
    assert cats[..i + 1] == cats[..i] + [cats[i]];
  }

  /** loadProducts' second loop: a category with a parent goes onto that
      parent's subcategories when the parent is listed, and is dropped
      otherwise; one without a parent goes to the top level. */
  method LinkCategories(cats: seq<Category>, empty: map<int, seq<int>>)
    returns (top: seq<int>, children: map<int, seq<int>>)
    requires forall p :: p in empty ==> empty[p] == []
    ensures top == TopLevelIds(cats)
    ensures children.Keys == empty.Keys
    ensures forall p :: p in children ==> children[p] == ChildIds(cats, p)
  {
    top := [];
    children := empty;
    var i := 0;
    while i < |cats|
      invariant 0 <= i <= |cats|
      invariant top == TopLevelIds(cats[..i])
      invariant children.Keys == empty.Keys
      invariant forall p :: p in children ==> children[p] == ChildIds(cats[..i], p)
    {
      var c := cats[i];
      assert cats[..i + 1][..i] == cats[..i];
      if HasParent(c) {
        var p := c.parent.value;
        if p in children {
          children := children[p := children[p] + [c.id]];
        }
      } else {
        top := top + [c.id];
      }
      i := i + 1;
    }
    assert cats[..i] == cats;
  }

  /** loadProducts' two loops. */
  method BuildTree(cats: seq<Category>) returns (tree: Tree)
    ensures tree.byId == LastById(cats)
    ensures tree.top == TopLevelIds(cats)
    ensures tree.children.Keys == IdSet(cats)
    ensures forall p :: p in tree.children ==> tree.children[p] == ChildIds(cats, p)
  {
    var byId, empty := IndexCategories(cats);
    var top, children := LinkCategories(cats, empty);
    tree := Tree(top, byId, children);
  }

  // ---------------------------------------------------------------------
  // Where each category ends up

  /** Every listed id has a copy in the map, and no other id does. */
  lemma {:induction false} LastByIdKeys(cats: seq<Category>)
    ensures LastById(cats).Keys == IdSet(cats)
    decreases |cats|
  {
    if cats != [] {
      var n := |cats| - 1;
      LastByIdKeys(cats[..n]);
      IdSetStep(cats, n);
      assert cats[..n + 1] == cats;
    }
  }

  /** The copy kept under an id is the last category listed with it. */
  lemma {:induction false} LastByIdAt(cats: seq<Category>, k: int)
    requires 0 <= k < |cats|
    requires forall j :: k < j < |cats| ==> cats[j].id != cats[k].id
    ensures cats[k].id in LastById(cats) && LastById(cats)[cats[k].id] == cats[k]
    decreases |cats|
  {
    var n := |cats| - 1;
    if k < n {
      var init := cats[..n];
      assert init[k] == cats[k];
      forall j | k < j < n
        ensures init[j].id != init[k].id
      {
        assert init[j] == cats[j];
      }
      LastByIdAt(init, k);
      assert cats[n].id != cats[k].id;
    }
  }

  lemma {:induction false} TopLevelMembers(cats: seq<Category>, x: int)
    ensures x in TopLevelIds(cats) <==> exists k :: 0 <= k < |cats| && cats[k].id == x && !HasParent(cats[k])
    decreases |cats|
  {
    if cats != [] {
      var init := cats[..|cats| - 1];
      TopLevelMembers(init, x);
      forall k | 0 <= k < |init| ensures init[k] == cats[k] {
      }
    }
  }

  lemma {:induction false} ChildMembers(cats: seq<Category>, p: int, x: int)
    ensures x in ChildIds(cats, p) <==>
      exists k :: 0 <= k < |cats| && cats[k].id == x && HasParent(cats[k]) && cats[k].parent.value == p
    decreases |cats|
  {
    if cats != [] {
      var init := cats[..|cats| - 1];
      ChildMembers(init, p, x);
      forall k | 0 <= k < |init| ensures init[k] == cats[k] {
      }
    }
  }

  /** No two categories share an id. */
  predicate UniqueIds(cats: seq<Category>)
  {
    forall i, j :: 0 <= i < j < |cats| ==> cats[i].id != cats[j].id
  }

  /** Where each category of a list with distinct ids ends up: a parentless
      one at the top level, one whose parent is listed under that parent,
      and one whose parent is not listed nowhere. */
  lemma Placement(cats: seq<Category>, tree: Tree, k: int)
    requires UniqueIds(cats)
    requires tree.top == TopLevelIds(cats)
    requires tree.children.Keys == IdSet(cats)
    requires forall p :: p in tree.children ==> tree.children[p] == ChildIds(cats, p)
    requires 0 <= k < |cats|
    ensures !HasParent(cats[k]) ==> cats[k].id in tree.top && forall p :: p in tree.children ==> cats[k].id !in tree.children[p]
    ensures HasParent(cats[k]) ==> cats[k].id !in tree.top
    ensures HasParent(cats[k]) && cats[k].parent.value in IdSet(cats) ==>
      cats[k].id in tree.children[cats[k].parent.value] &&
      forall p :: p in tree.children && p != cats[k].parent.value ==> cats[k].id !in tree.children[p]
    ensures HasParent(cats[k]) && cats[k].parent.value !in IdSet(cats) ==>
      forall p :: p in tree.children ==> cats[k].id !in tree.children[p]
  {
    var c := cats[k];
    TopLevelMembers(cats, c.id);
    forall p | p in tree.children
      ensures c.id in tree.children[p] <==> HasParent(c) && c.parent.value == p
    {
      ChildMembers(cats, p, c.id);
    }
  }

  // ---------------------------------------------------------------------
  // Gathering packages

  function PackagesOf(tree: Tree, id: int): seq<Package>
  {
    if id in tree.byId then tree.byId[id].packages else []
  }

  function SubIds(tree: Tree, id: int): seq<int>
  {
    if id in tree.children then tree.children[id] else []
  }

  /** The packages of the listed categories, concatenated in order. */
  function PackagesOfIds(tree: Tree, ids: seq<int>): seq<Package>
    decreases |ids|
  {
    if ids == [] then [] else PackagesOfIds(tree, ids[..|ids| - 1]) + PackagesOf(tree, ids[|ids| - 1])
  }

  /** The order the page offers categories in: each top-level category
      followed by its direct subcategories (the flatMap of the selected view). */
  function ViewIds(tree: Tree, tops: seq<int>): seq<int>
    decreases |tops|
  {
    if tops == [] then [] else ViewIds(tree, tops[..|tops| - 1]) + GroupIds(tree, tops[|tops| - 1])
  }

  /** A top-level category followed by its direct subcategories. */
  function GroupIds(tree: Tree, t: int): seq<int>
  {
    [t] + SubIds(tree, t)
  }

  function ViewOrder(tree: Tree): seq<int>
  {
    ViewIds(tree, tree.top)
  }

  /** The packages of the group headed by top-level category `t`. */
  function GroupPackages(tree: Tree, t: int): seq<Package>
  {
    PackagesOf(tree, t) + PackagesOfIds(tree, SubIds(tree, t))
  }

  function GroupsOf(tree: Tree, tops: seq<int>): seq<Package>
    decreases |tops|
  {
    if tops == [] then [] else GroupsOf(tree, tops[..|tops| - 1]) + GroupPackages(tree, tops[|tops| - 1])
  }

  /** The "all" view: the nested concat loops of displayedPackages. */
  method GatherAll(tree: Tree) returns (packages: seq<Package>)
    ensures packages == GroupsOf(tree, tree.top)
  {
    packages := [];
    var i := 0;
    while i < |tree.top|
      invariant 0 <= i <= |tree.top|
      invariant packages == GroupsOf(tree, tree.top[..i])
    {
      assert tree.top[..i + 1][..i] == tree.top[..i];
      packages := AppendGroup(tree, tree.top[i], packages);
      i := i + 1;
    }
    assert tree.top[..i] == tree.top;
  }

  /** One pass of the outer loop: the category's packages, then each
      subcategory's, onto the end of `acc`. */
  method AppendGroup(tree: Tree, t: int, acc: seq<Package>) returns (packages: seq<Package>)
    ensures packages == acc + GroupPackages(tree, t)
  {
    var subs := SubIds(tree, t);
    var head := acc + PackagesOf(tree, t);
    packages := head;
    var j := 0;
    while j < |subs|
      invariant 0 <= j <= |subs|
      invariant packages == head + PackagesOfIds(tree, subs[..j])
    {
      assert subs[..j + 1][..j] == subs[..j];
      var next := PackagesOf(tree, subs[j]);
      assert packages + next == head + (PackagesOfIds(tree, subs[..j]) + next);
      packages := packages + next;
      j := j + 1;
    }
    assert subs[..j] == subs;
  }

  /** A specific category: looked up among the top-level categories and
      their direct subcategories; an unknown id shows nothing. */
  function CategoryView(tree: Tree, id: int): seq<Package>
  {
    if id in ViewOrder(tree) then PackagesOf(tree, id) else []
  }

  lemma {:induction false} PackagesOfIdsAppend(tree: Tree, a: seq<int>, b: seq<int>)
    ensures PackagesOfIds(tree, a + b) == PackagesOfIds(tree, a) + PackagesOfIds(tree, b)
    decreases |b|
  {
    if b != [] {
      PackagesOfIdsAppend(tree, a, b[..|b| - 1]);
      assert (a + b)[..|a + b| - 1] == a + b[..|b| - 1];
    } else {
      assert a + b == a;
    }
  }

  /** The "all" view is the concatenation of every offered category's own
      packages, in the order the categories are offered. */
  lemma {:induction false} GroupsAreViewOrder(tree: Tree, tops: seq<int>)
    ensures GroupsOf(tree, tops) == PackagesOfIds(tree, ViewIds(tree, tops))
    decreases |tops|
  {
    if tops != [] {
      var init, t := tops[..|tops| - 1], tops[|tops| - 1];
      GroupsAreViewOrder(tree, init);
      PackagesOfIdsAppend(tree, ViewIds(tree, init), GroupIds(tree, t));
      PackagesOfGroupIds(tree, t);
    }
  }

  /** The ids of a group hold exactly the group's packages. */
  lemma PackagesOfGroupIds(tree: Tree, t: int)
    ensures PackagesOfIds(tree, GroupIds(tree, t)) == GroupPackages(tree, t)
  {
    PackagesOfIdsAppend(tree, [t], SubIds(tree, t));
    PackagesOfIdsSingle(tree, t);
  }

  lemma PackagesOfIdsSingle(tree: Tree, t: int)
    ensures PackagesOfIds(tree, [t]) == PackagesOf(tree, t)
  {
    assert [t][..0] == [];
  }

  lemma {:induction false} PackagesOfIdsMembers(tree: Tree, ids: seq<int>, p: Package)
    ensures p in PackagesOfIds(tree, ids) <==> exists k :: 0 <= k < |ids| && p in PackagesOf(tree, ids[k])
    decreases |ids|
  {
    if ids != [] {
      var init := ids[..|ids| - 1];
      PackagesOfIdsMembers(tree, init, p);
      forall k | 0 <= k < |init| ensures init[k] == ids[k] {
      }
    }
  }

  /** A package is in the "all" view exactly when it is in the view of some
      category the page offers. */
  lemma AllViewMembers(tree: Tree, p: Package)
    ensures p in GroupsOf(tree, tree.top) <==> exists id :: id in ViewOrder(tree) && p in CategoryView(tree, id)
  {
    var v := ViewOrder(tree);
    GroupsAreViewOrder(tree, tree.top);
    PackagesOfIdsMembers(tree, v, p);
    if p in GroupsOf(tree, tree.top) {
      var k :| 0 <= k < |v| && p in PackagesOf(tree, v[k]);
      assert p in CategoryView(tree, v[k]);
    }
    if exists id :: id in v && p in CategoryView(tree, id) {
      var id :| id in v && p in CategoryView(tree, id);
      var k :| 0 <= k < |v| && v[k] == id;
      assert p in PackagesOf(tree, v[k]);
    }
  }
}
