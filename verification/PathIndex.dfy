/** app/files/models.py, Node.build_path, save and move: a tree of files whose
    nodes store their full path. */
module PathIndex {
  import opened Wrappers
  import opened Texts

  datatype Node = Node(name: string, parent: Option<int>, folder: bool, workspace: int, path: string)

  type Nodes = map<int, Node>

  /** str.rstrip("/") */
  function RStrip(s: string): string {
    if s != "" && s[|s| - 1] == '/' then RStrip(s[..|s| - 1]) else s
  }

  /** build_path over the parent's path, "" for no parent. */
  function BuildPath(base: string, name: string): string {
    RStrip(base) + "/" + name
  }

  /** A usable file or folder name. */
  predicate NameOk(name: string) {
    name != "" && '/' !in name
  }

  function Base(nodes: Nodes, parent: Option<int>): string
    requires parent.Some? ==> parent.value in nodes
  {
    if parent.None? then "" else nodes[parent.value].path
  }

  /** The node has a usable name, sits in a folder of its workspace or at the
      root, and stores the path of its parent chain. */
  predicate NodeOk(nodes: Nodes, n: Node) {
    && NameOk(n.name)
    && (n.parent.Some? ==>
          n.parent.value in nodes && nodes[n.parent.value].folder && nodes[n.parent.value].workspace == n.workspace)
    && n.path == BuildPath(Base(nodes, n.parent), n.name)
  }

  /** The unique constraint on (workspace, path). */
  predicate Unique(nodes: Nodes) {
    forall i, j :: i in nodes && j in nodes && i != j ==>
      (nodes[i].workspace != nodes[j].workspace || nodes[i].path != nodes[j].path)
  }

  ghost predicate Valid(nodes: Nodes) {
    Unique(nodes) && forall i :: i in nodes ==> NodeOk(nodes, nodes[i])
  }

  // ------------------------------------------------------------ path shapes

  lemma RStripKeeps(s: string)
    requires s == "" || s[|s| - 1] != '/'
    ensures RStrip(s) == s
  {
  }

  lemma PathEnds(nodes: Nodes, n: Node)
    requires NodeOk(nodes, n)
    ensures n.path != "" && n.path[|n.path| - 1] != '/'
    ensures RStrip(n.path) == n.path
  {
  }

  /** In a valid tree the path is the parent's path, a slash and the name. */
  lemma PathIs(nodes: Nodes, i: int)
    requires Valid(nodes) && i in nodes
    ensures nodes[i].path == Base(nodes, nodes[i].parent) + "/" + nodes[i].name
    ensures nodes[i].path != "" && RStrip(nodes[i].path) == nodes[i].path
    ensures nodes[i].parent.Some? ==> |nodes[nodes[i].parent.value].path| < |nodes[i].path|
  {
    assert NodeOk(nodes, nodes[i]);
    PathEnds(nodes, nodes[i]);
    if nodes[i].parent.Some? {
      var q := nodes[i].parent.value;
      assert q in nodes && NodeOk(nodes, nodes[q]);
      PathEnds(nodes, nodes[q]);
    }
  }

  /** y is a proper descendant of x: the parent chain of y leads to x. */
  ghost predicate Below(nodes: Nodes, y: int, x: int)
    requires Valid(nodes) && y in nodes
    decreases |nodes[y].path|
  {
    PathIs(nodes, y);
    nodes[y].parent.Some? && (nodes[y].parent.value == x || Below(nodes, nodes[y].parent.value, x))
  }

  /** The last slash of a path is the one in front of the name. */
  lemma PrefixShape(base: string, name: string, p: string)
    requires NameOk(name) && HasPrefix(base + "/" + name, p + "/")
    ensures p == base || HasPrefix(base, p + "/")
  {
    var s := base + "/" + name;
    assert s[|p|] == '/' by { assert s[..|p| + 1][|p|] == (p + "/")[|p|]; }
    if |p| == |base| {
      assert s[..|p|] == base && s[..|p| + 1][..|p|] == p;
      assert s[..|p|] == s[..|p| + 1][..|p|];
    } else if |p| < |base| {
      assert base[..|p| + 1] == s[..|p| + 1];
    }
  }

  /** MAIN RESULT. In a valid tree a path starts with x's path and a slash exactly
      for the proper descendants of x in the same workspace. */
  lemma {:induction false} PrefixIsDescent(nodes: Nodes, y: int, x: int)
    requires Valid(nodes) && y in nodes && x in nodes
    ensures Below(nodes, y, x) <==>
      nodes[y].workspace == nodes[x].workspace && HasPrefix(nodes[y].path, nodes[x].path + "/")
    decreases |nodes[y].path|
  {
    hide HasPrefix, RStrip, Unique;
    PathIs(nodes, y);
    var n, p := nodes[y], nodes[x].path;
    assert NodeOk(nodes, n);
    if n.parent.Some? {
      PrefixIsDescent(nodes, n.parent.value, x);
      PrefixExtends(nodes[n.parent.value].path, n.name, p);
      if nodes[n.parent.value].path == p {
        SamePath(nodes, n.parent.value, x);
      }
    }
    if HasPrefix(n.path, p + "/") {
      PrefixShape(Base(nodes, n.parent), n.name, p);
      PathIs(nodes, x);
      NoPrefixOfNothing(p);
    }
  }

  lemma NoPrefixOfNothing(p: string)
    ensures !HasPrefix("", p + "/")
  {
  }

  lemma SamePath(nodes: Nodes, i: int, j: int)
    requires Valid(nodes) && i in nodes && j in nodes && nodes[i].path == nodes[j].path
    ensures nodes[i].workspace == nodes[j].workspace ==> i == j
  {
  }

  lemma PrefixExtends(base: string, name: string, p: string)
    ensures HasPrefix(base, p + "/") ==> HasPrefix(base + "/" + name, p + "/")
    ensures HasPrefix(base + "/" + name, base + "/")
  {
  }

  /** MAIN RESULT. No node of a valid tree is its own ancestor. */
  lemma NoCycles(nodes: Nodes, x: int)
    requires Valid(nodes) && x in nodes
    ensures !Below(nodes, x, x)
  {
    PrefixIsDescent(nodes, x, x);
  }

  lemma RestOf(nodes: Nodes, y: int, x: int)
    requires Valid(nodes) && y in nodes && x in nodes && Below(nodes, y, x)
    ensures |nodes[y].path| > |nodes[x].path|
    ensures nodes[y].path == nodes[x].path + "/" + nodes[y].path[|nodes[x].path| + 1..]
    ensures nodes[y].workspace == nodes[x].workspace
  {
    PrefixIsDescent(nodes, y, x);
    hide Valid, Below, HasPrefix;
    SplitAtPrefix(nodes[y].path, nodes[x].path);
  }

  lemma SplitAtPrefix(s: string, p: string)
    requires HasPrefix(s, p + "/")
    ensures |s| > |p| && s == p + "/" + s[|p| + 1..]
  {
  }

  // -------------------------------------------------------------------- move

  /** The checks move makes on its destination. */
  predicate Movable(nodes: Nodes, id: int, target: Option<int>)
    requires id in nodes && (target.Some? ==> target.value in nodes)
  {
    target.Some? ==>
      && nodes[target.value].workspace == nodes[id].workspace && target.value != id
      && !HasPrefix(nodes[target.value].path, nodes[id].path + "/")
  }

  function NewPath(nodes: Nodes, name: string, target: Option<int>): string
    requires target.Some? ==> target.value in nodes
  {
    BuildPath(Base(nodes, target), name)
  }

  /** The rows the bulk update touches: by path prefix, within the workspace. */
  predicate Touched(nodes: Nodes, id: int, y: int, path: string)
    requires id in nodes && y in nodes
  {
    && nodes[id].folder && nodes[id].path != path
    && nodes[y].workspace == nodes[id].workspace && HasPrefix(nodes[y].path, nodes[id].path + "/")
  }

  function Rewrite(path: string, from: string, to: string): string {
    Replace(path, from + "/", to + "/")
  }

  /** UPDATE ... SET path = REPLACE(path, ...) WHERE path starts with ..., on one row. */
  function Updated(n: Node, workspace: int, from: string, to: string): Node {
    if n.workspace == workspace && HasPrefix(n.path, from + "/") then n.(path := Rewrite(n.path, from, to)) else n
  }

  /** The rows after the transaction. */
  function Moved(nodes: Nodes, id: int, name: string, target: Option<int>): Nodes
    requires id in nodes && (target.Some? ==> target.value in nodes)
  {
    var path := NewPath(nodes, name, target);
    map y | y in nodes ::
      if y == id then nodes[id].(name := name, parent := target, path := path)
      else if Touched(nodes, id, y, path) then nodes[y].(path := Rewrite(nodes[y].path, nodes[id].path, path))
      else nodes[y]
  }

  /** Behind the moved prefix, no descendant's path spells it out once more. */
  ghost predicate NeverRecurs(nodes: Nodes, id: int)
    requires Valid(nodes) && id in nodes
  {
    forall y :: y in nodes && Below(nodes, y, id) ==> !Recurs(nodes, y, id)
  }

  predicate Recurs(nodes: Nodes, y: int, id: int)
    requires y in nodes && id in nodes
  {
    |nodes[y].path| > |nodes[id].path| && Occurs(nodes[y].path[|nodes[id].path| + 1..], nodes[id].path + "/")
  }

  lemma RewriteBelow(nodes: Nodes, y: int, id: int, path: string)
    requires Valid(nodes) && id in nodes && y in nodes && Below(nodes, y, id)
    ensures |nodes[y].path| > |nodes[id].path|
    ensures Rewrite(nodes[y].path, nodes[id].path, path) == path + "/" + nodes[y].path[|nodes[id].path| + 1..]
      <==> path == nodes[id].path || !Recurs(nodes, y, id)
  {
    RestOf(nodes, y, id);
    var rest := nodes[y].path[|nodes[id].path| + 1..];
    ReplaceIsPrefixRewrite(rest, nodes[id].path + "/", path + "/");
    assert nodes[id].path + "/" + rest == nodes[y].path;
    if path + "/" == nodes[id].path + "/" {
      assert (path + "/")[..|path|] == path && (nodes[id].path + "/")[..|nodes[id].path|] == nodes[id].path;
      assert |path| == |nodes[id].path|;
    }
  }

  lemma DescendantsAreTouched(nodes: Nodes, id: int, y: int, path: string)
    requires Valid(nodes) && id in nodes && y in nodes
    ensures Touched(nodes, id, y, path) ==> Below(nodes, y, id) && y != id
    ensures Below(nodes, y, id) && nodes[id].path != path ==> Touched(nodes, id, y, path)
  {
    PrefixIsDescent(nodes, y, id);
    NoCycles(nodes, id);
    if Below(nodes, y, id) {
      FolderAbove(nodes, y, id);
    }
  }

  lemma {:induction false} FolderAbove(nodes: Nodes, y: int, x: int)
    requires Valid(nodes) && y in nodes && Below(nodes, y, x)
    ensures x in nodes && nodes[x].folder
    decreases |nodes[y].path|
  {
    PathIs(nodes, y);
    assert NodeOk(nodes, nodes[y]);
    if nodes[y].parent.value != x {
      FolderAbove(nodes, nodes[y].parent.value, x);
    }
  }

  /** What the caller can check: a usable name, a folder to move into, and no
      second spelling of the old path. */
  ghost predicate MoveIsClean(nodes: Nodes, id: int, name: string, target: Option<int>)
    requires Valid(nodes) && id in nodes && (target.Some? ==> target.value in nodes)
  {
    && NameOk(name) && (target.Some? ==> nodes[target.value].folder)
    && (NewPath(nodes, name, target) == nodes[id].path || NeverRecurs(nodes, id))
  }

  /** The moved tree, node by node. */
  lemma MovedAt(nodes: Nodes, id: int, name: string, target: Option<int>, y: int)
    requires Valid(nodes) && id in nodes && (target.Some? ==> target.value in nodes) && y in nodes
    ensures y in Moved(nodes, id, name, target)
    ensures
      var path := NewPath(nodes, name, target);
      Moved(nodes, id, name, target)[y] ==
        if y == id then nodes[id].(name := name, parent := target, path := path)
        else if Below(nodes, y, id) then nodes[y].(path := Rewrite(nodes[y].path, nodes[id].path, path))
        else nodes[y]
  {
    DescendantsAreTouched(nodes, id, y, NewPath(nodes, name, target));
    if nodes[id].path == NewPath(nodes, name, target) {
      ReplaceBySame(nodes[y].path, nodes[id].path + "/");
    }
  }

  lemma RestStep(base: string, name: string, k: nat)
    requires k <= |base|
    ensures (base + "/" + name)[k..] == base[k..] + "/" + name
    ensures (base + "/" + name)[|base| + 1..] == name
  {
  }

  /** What follows the moved node's path in the path of a node below it. */
  lemma RestGrows(nodes: Nodes, y: int, id: int)
    requires Valid(nodes) && id in nodes && y in nodes && Below(nodes, y, id)
    ensures nodes[y].parent.Some? && nodes[y].parent.value in nodes && |nodes[y].path| > |nodes[id].path|
    ensures
      var q, k := nodes[y].parent.value, |nodes[id].path| + 1;
      if q == id then nodes[y].path[k..] == nodes[y].name
      else Below(nodes, q, id) && |nodes[q].path| >= k && nodes[y].path[k..] == nodes[q].path[k..] + "/" + nodes[y].name
  {
    assert NodeOk(nodes, nodes[y]);
    PathIs(nodes, y);
    RestOf(nodes, y, id);
    var q, k := nodes[y].parent.value, |nodes[id].path| + 1;
    if q == id {
      RestStep(nodes[q].path, nodes[y].name, 0);
    } else {
      RestOf(nodes, q, id);
      RestStep(nodes[q].path, nodes[y].name, k);
    }
  }

  /** In a moved tree with the right paths, a descendant of the moved node has the
      new prefix in place of the old one. */
  lemma {:induction false} PathsFollow(nodes: Nodes, id: int, name: string, target: Option<int>, y: int)
    requires Valid(nodes) && id in nodes && (target.Some? ==> target.value in nodes) && Movable(nodes, id, target)
    requires Valid(Moved(nodes, id, name, target)) && y in nodes && Below(nodes, y, id)
    ensures |nodes[y].path| > |nodes[id].path|
    ensures Moved(nodes, id, name, target)[y].path ==
      NewPath(nodes, name, target) + "/" + nodes[y].path[|nodes[id].path| + 1..]
    decreases |nodes[y].path|
  {
    hide Moved, Touched, Rewrite, Movable, NodeOk, NewPath, Valid, Below;
    var after := Moved(nodes, id, name, target);
    NoCycles(nodes, id);
    RestGrows(nodes, y, id);
    PathIs(nodes, y);
    var q := nodes[y].parent.value;
    MovedAt(nodes, id, name, target, y);
    MovedAt(nodes, id, name, target, q);
    PathIs(after, y);
    assert after[y].parent == nodes[y].parent && after[y].name == nodes[y].name;
    if q == id {
      assert after[y].path == after[id].path + "/" + nodes[y].name;
    } else {
      PathsFollow(nodes, id, name, target, q);
      assert after[y].path == after[q].path + "/" + nodes[y].name;
      Reassociate(NewPath(nodes, name, target), nodes[q].path[|nodes[id].path| + 1..], nodes[y].name);
    }
  }

  /** A clean move leaves every node where its parent chain says. */
  lemma CleanMoveNodes(nodes: Nodes, id: int, name: string, target: Option<int>, y: int)
    requires Valid(nodes) && id in nodes && (target.Some? ==> target.value in nodes) && Movable(nodes, id, target)
    requires MoveIsClean(nodes, id, name, target) && y in nodes
    ensures NodeOk(Moved(nodes, id, name, target), Moved(nodes, id, name, target)[y])
  {
    assert NodeOk(nodes, nodes[y]) && NodeOk(nodes, nodes[id]);
    MovedAt(nodes, id, name, target, y);
    NoCycles(nodes, id);
    if y == id {
      if target.Some? {
        PrefixIsDescent(nodes, target.value, id);
        MovedAt(nodes, id, name, target, target.value);
      }
    } else if nodes[y].parent.Some? {
      MovedAt(nodes, id, name, target, nodes[y].parent.value);
      MovedUnder(nodes, id, name, target, y);
    }
    hide Moved, Touched, Rewrite, Movable, Below, NeverRecurs;
  }

  /** The step from a node's parent to the node in the moved tree. */
  lemma MovedUnder(nodes: Nodes, id: int, name: string, target: Option<int>, y: int)
    requires Valid(nodes) && id in nodes && (target.Some? ==> target.value in nodes) && Movable(nodes, id, target)
    requires MoveIsClean(nodes, id, name, target) && y in nodes && y != id && nodes[y].parent.Some?
    ensures nodes[y].parent.value in nodes
    ensures Moved(nodes, id, name, target)[y].path ==
      BuildPath(Moved(nodes, id, name, target)[nodes[y].parent.value].path, nodes[y].name)
  {
    var after, path := Moved(nodes, id, name, target), NewPath(nodes, name, target);
    assert NodeOk(nodes, nodes[y]);
    var q := nodes[y].parent.value;
    MovedAt(nodes, id, name, target, y);
    MovedAt(nodes, id, name, target, q);
    PathIs(nodes, y);
    PathIs(nodes, q);
    NewPathEnds(nodes, name, target);
    if Below(nodes, y, id) {
      CleanRewrite(nodes, id, name, target, y);
      RestGrows(nodes, y, id);
      var k := |nodes[id].path| + 1;
      if q != id {
        CleanRewrite(nodes, id, name, target, q);
        NoCycles(nodes, id);
        if q == id || Below(nodes, q, id) {
          RestOf(nodes, q, id);
        }
        LongerThanPrefix(nodes, q, id);
        RestEnds(path, nodes[q].path, k);
        Reassociate(path, nodes[q].path[k..], nodes[y].name);
      }
    }
    hide Moved, Touched, Rewrite, Movable, Below, NeverRecurs, NewPath, NodeOk;
  }

  lemma Reassociate(path: string, rest: string, name: string)
    ensures path + "/" + (rest + "/" + name) == (path + "/" + rest) + "/" + name
  {
  }

  lemma LongerThanPrefix(nodes: Nodes, q: int, id: int)
    requires Valid(nodes) && id in nodes && q in nodes && Below(nodes, q, id)
    ensures |nodes[id].path| + 1 < |nodes[q].path|
  {
    RestGrows(nodes, q, id);
    assert NodeOk(nodes, nodes[q]);
    assert nodes[q].path[|nodes[id].path| + 1..] != "";
  }

  lemma CleanRewrite(nodes: Nodes, id: int, name: string, target: Option<int>, y: int)
    requires Valid(nodes) && id in nodes && (target.Some? ==> target.value in nodes)
    requires MoveIsClean(nodes, id, name, target) && y in nodes && Below(nodes, y, id)
    ensures |nodes[y].path| > |nodes[id].path|
    ensures Rewrite(nodes[y].path, nodes[id].path, NewPath(nodes, name, target))
      == NewPath(nodes, name, target) + "/" + nodes[y].path[|nodes[id].path| + 1..]
  {
    RewriteBelow(nodes, y, id, NewPath(nodes, name, target));
  }

  lemma NewPathEnds(nodes: Nodes, name: string, target: Option<int>)
    requires NameOk(name) && (target.Some? ==> target.value in nodes)
    ensures RStrip(NewPath(nodes, name, target)) == NewPath(nodes, name, target)
  {
  }

  lemma RestEnds(path: string, was: string, k: nat)
    requires k < |was| && RStrip(was) == was
    ensures RStrip(path + "/" + was[k..]) == path + "/" + was[k..]
  {
    var s := path + "/" + was[k..];
    assert s[|s| - 1] == was[|was| - 1];
    if was[|was| - 1] == '/' {
      ShorterStrip(was[..|was| - 1]);
    }
    RStripKeeps(s);
  }

  lemma ShorterStrip(s: string)
    ensures |RStrip(s)| <= |s|
  {
  }

  /** MAIN RESULT. A move the database accepts keeps the tree valid exactly when
      the name is usable, the destination is a folder and the old path does not
      recur further down: then SQL REPLACE is the prefix rewrite. */
  lemma MoveKeepsValid(nodes: Nodes, id: int, name: string, target: Option<int>)
    requires Valid(nodes) && id in nodes && (target.Some? ==> target.value in nodes) && Movable(nodes, id, target)
    requires Unique(Moved(nodes, id, name, target))
    ensures Valid(Moved(nodes, id, name, target)) <==> MoveIsClean(nodes, id, name, target)
  {
    hide Replace, Recurs, NodeOk, Movable, Touched;
    var after, path := Moved(nodes, id, name, target), NewPath(nodes, name, target);
    if MoveIsClean(nodes, id, name, target) {
      forall y | y in after ensures NodeOk(after, after[y]) {
        CleanMoveNodes(nodes, id, name, target, y);
      }
    }
    if Valid(after) {
      ValidSaysClean(nodes, id, name, target);
    }
  }

  lemma ValidSaysClean(nodes: Nodes, id: int, name: string, target: Option<int>)
    requires Valid(nodes) && id in nodes && (target.Some? ==> target.value in nodes) && Movable(nodes, id, target)
    requires Valid(Moved(nodes, id, name, target))
    ensures MoveIsClean(nodes, id, name, target)
  {
    hide Replace, Recurs;
    var after, path := Moved(nodes, id, name, target), NewPath(nodes, name, target);
    assert NodeOk(after, after[id]);
    if target.Some? {
      DescendantsAreTouched(nodes, id, target.value, path);
      assert after[target.value].folder == nodes[target.value].folder;
    }
    if path != nodes[id].path {
      forall y | y in nodes && Below(nodes, y, id) ensures !Recurs(nodes, y, id) {
        PathsFollow(nodes, id, name, target, y);
        DescendantsAreTouched(nodes, id, y, path);
        RewriteBelow(nodes, y, id, path);
      }
    }
  }

  /** MAIN RESULT. A move changes no row outside the moved subtree, and inside it
      nothing but paths below the moved node. */
  lemma MoveFrame(nodes: Nodes, id: int, name: string, target: Option<int>, y: int)
    requires Valid(nodes) && id in nodes && (target.Some? ==> target.value in nodes) && y in nodes && y != id
    ensures Moved(nodes, id, name, target).Keys == nodes.Keys
    ensures !Below(nodes, y, id) ==> Moved(nodes, id, name, target)[y] == nodes[y]
    ensures Moved(nodes, id, name, target)[y] == nodes[y].(path := Moved(nodes, id, name, target)[y].path)
  {
    DescendantsAreTouched(nodes, id, y, NewPath(nodes, name, target));
  }

  /** What the caller can check in front of a create. */
  predicate CreateIsClean(nodes: Nodes, name: string, parent: Option<int>)
    requires parent.Some? ==> parent.value in nodes
  {
    NameOk(name) && (parent.Some? ==> nodes[parent.value].folder)
  }

  lemma CreateKeepsValid(nodes: Nodes, id: int, n: Node)
    requires Valid(nodes) && id !in nodes && (n.parent.Some? ==> n.parent.value in nodes)
    requires n.path == NewPath(nodes, n.name, n.parent) && Unique(nodes[id := n])
    requires n.parent.Some? ==> nodes[n.parent.value].workspace == n.workspace
    ensures Valid(nodes[id := n]) <==> CreateIsClean(nodes, n.name, n.parent)
  {
    hide BuildPath, Unique;
    var after := nodes[id := n];
    forall i | i in nodes ensures NodeOk(after, after[i]) {
      assert NodeOk(nodes, nodes[i]);
    }
    assert NodeOk(after, after[id]) <==> CreateIsClean(nodes, n.name, n.parent);
  }

  // ---------------------------------------------------------- whole histories

  datatype Change =
    | CreateNode(id: int, name: string, parent: Option<int>, folder: bool, workspace: int)
    | MoveNode(id: int, name: string, target: Option<int>)

  /** The database accepts the change, and this comes of it. */
  ghost predicate Accepted(nodes: Nodes, c: Change, after: Nodes) {
    && Unique(after)
    && match c
       case CreateNode(id, name, parent, folder, workspace) =>
         && id !in nodes && (parent.Some? ==> parent.value in nodes && nodes[parent.value].workspace == workspace)
         && after == nodes[id := Node(name, parent, folder, workspace, NewPath(nodes, name, parent))]
       case MoveNode(id, name, target) =>
         && id in nodes && (target.Some? ==> target.value in nodes) && Movable(nodes, id, target)
         && after == Moved(nodes, id, name, target)
  }

  ghost predicate ChangeIsClean(nodes: Nodes, c: Change, after: Nodes)
    requires Valid(nodes) && Accepted(nodes, c, after)
  {
    match c
    case CreateNode(_, name, parent, _, _) => CreateIsClean(nodes, name, parent)
    case MoveNode(id, name, target) => MoveIsClean(nodes, id, name, target)
  }

  /** From the empty table through accepted creates and moves. */
  ghost predicate History(trees: seq<Nodes>, changes: seq<Change>) {
    && |trees| == |changes| + 1 && trees[0] == map[]
    && forall k :: 0 <= k < |changes| ==> Accepted(trees[k], changes[k], trees[k + 1])
  }

  lemma ChangeKeepsValid(nodes: Nodes, c: Change, after: Nodes)
    requires Valid(nodes) && Accepted(nodes, c, after)
    ensures Valid(after) <==> ChangeIsClean(nodes, c, after)
  {
    hide Valid, Unique, Movable, MoveIsClean, CreateIsClean, NewPath, Moved;
    match c
    case CreateNode(id, name, parent, folder, workspace) =>
      CreateKeepsValid(nodes, id, Node(name, parent, folder, workspace, NewPath(nodes, name, parent)));
    case MoveNode(id, name, target) => MoveKeepsValid(nodes, id, name, target);
  }

  /** MAIN RESULT. In every history the first changes leave valid trees, where
      paths spell parent chains, exactly as far as each of them was clean. */
  lemma {:induction false} HistoryIsValid(trees: seq<Nodes>, changes: seq<Change>, n: nat)
    requires History(trees, changes) && n <= |changes|
    ensures (forall k :: 0 <= k <= n ==> Valid(trees[k]))
      <==> forall k :: 0 <= k < n && Valid(trees[k]) ==> ChangeIsClean(trees[k], changes[k], trees[k + 1])
  {
    hide Valid, Accepted, ChangeIsClean;
    if n == 0 {
      assert Valid(map[]) by { NothingStored(); }
    } else {
      HistoryIsValid(trees, changes, n - 1);
      if Valid(trees[n - 1]) {
        ChangeKeepsValid(trees[n - 1], changes[n - 1], trees[n]);
      }
    }
  }

  lemma NothingStored()
    ensures Valid(map[])
  {
  }

  /** MAIN RESULT. After any clean history the path prefix test finds exactly the
      proper descendants, and no node is above itself. */
  lemma ReachableTrees(trees: seq<Nodes>, changes: seq<Change>, k: nat, y: int, x: int)
    requires History(trees, changes) && k < |trees| && x in trees[k] && y in trees[k]
    requires forall j :: 0 <= j < |changes| && Valid(trees[j]) ==> ChangeIsClean(trees[j], changes[j], trees[j + 1])
    ensures Valid(trees[k]) && !Below(trees[k], x, x)
    ensures Below(trees[k], y, x) <==>
      trees[k][y].workspace == trees[k][x].workspace && HasPrefix(trees[k][y].path, trees[k][x].path + "/")
  {
    HistoryIsValid(trees, changes, |changes|);
    hide Valid, Accepted, ChangeIsClean;
    PrefixIsDescent(trees[k], y, x);
    NoCycles(trees[k], x);
  }

  // --------------------------------------------------------------- the table

  /** The stored nodes. Each method is one request; the database may refuse any
      write for reasons of its own. */
  class FileTree {
    var nodes: Nodes

    constructor ()
      ensures nodes == map[] && Valid(nodes)
    {
      nodes := map[];
    }

    /** save on a new node */
    method Create(id: int, name: string, parent: Option<int>, folder: bool, workspace: int, refused: bool)
      returns (ok: bool)
      requires id !in nodes && (parent.Some? ==> parent.value in nodes)
      modifies this
      ensures
        var node := Node(name, parent, folder, workspace, NewPath(old(nodes), name, parent));
        && (ok <==>
             && !refused && (parent.Some? ==> old(nodes)[parent.value].workspace == workspace)
             && Unique(old(nodes)[id := node]))
        && nodes == (if ok then old(nodes)[id := node] else old(nodes))
      ensures ok && Valid(old(nodes)) ==> (Valid(nodes) <==> CreateIsClean(old(nodes), name, parent))
    {
      if parent.Some? && nodes[parent.value].workspace != workspace {
        return false;
      }
      var node := Node(name, parent, folder, workspace, BuildPath(Base(nodes, parent), name));
      if refused || !Unique(nodes[id := node]) {
        return false;
      }
      if Valid(nodes) {
        CreateKeepsValid(nodes, id, node);
      }
      nodes := nodes[id := node];
      ok := true;
    }

    /** move: bulk update of the descendants' paths and save of the node in one
        transaction, rolled back as a whole. */
    method Move(id: int, newName: Option<string>, newParent: Option<int>, toRoot: bool, refused: bool)
      returns (ok: bool)
      requires id in nodes && (newParent.Some? ==> newParent.value in nodes)
      requires nodes[id].parent.Some? ==> nodes[id].parent.value in nodes
      modifies this
      ensures
        var node := old(nodes)[id];
        var name := if newName.Some? then newName.value else node.name;
        var target := if toRoot then None else if newParent.Some? then newParent else node.parent;
        && (ok <==> Movable(old(nodes), id, target) && Unique(Moved(old(nodes), id, name, target)) && !refused)
        && nodes == (if ok then Moved(old(nodes), id, name, target) else old(nodes))
        && (ok && Valid(old(nodes)) ==> (Valid(nodes) <==> MoveIsClean(old(nodes), id, name, target)))
    {
      hide Valid, MoveIsClean;
      var node := nodes[id];
      var name := if newName.Some? then newName.value else node.name;
      var target := if toRoot then None else if newParent.Some? then newParent else node.parent;
      if !Movable(nodes, id, target) {
        return false;
      }
      var path := BuildPath(Base(nodes, target), name);
      var before := nodes;
      if node.folder && node.path != path {
        nodes := map y | y in nodes :: Updated(nodes[y], node.workspace, node.path, path);
      }
      nodes := nodes[id := node.(name := name, parent := target, path := path)];
      assert nodes == Moved(before, id, name, target) by {
        SavedIsMoved(before, nodes, id, name, target);
      }
      if Valid(before) && Unique(nodes) {
        MoveKeepsValid(before, id, name, target);
      }
      if refused || !Unique(nodes) {
        nodes := before;
        return false;
      }
      ok := true;
    }
  }

  lemma SavedIsMoved(before: Nodes, after: Nodes, id: int, name: string, target: Option<int>)
    requires id in before && (target.Some? ==> target.value in before) && after.Keys == before.Keys
    requires after[id] == before[id].(name := name, parent := target, path := NewPath(before, name, target))
    requires
      var path := NewPath(before, name, target);
      forall y :: y in after && y != id ==>
        after[y] == if before[id].folder && before[id].path != path
                    then Updated(before[y], before[id].workspace, before[id].path, path) else before[y]
    ensures after == Moved(before, id, name, target)
  {
  }

  // ------------------------------------------------------- the recurring name

  /** /a, /a/b, /a/b/a and /a/b/a/c. */
  function Nested(): Nodes {
    map[1 := Node("a", None, true, 0, "/a"), 2 := Node("b", Some(1), true, 0, "/a/b"),
        3 := Node("a", Some(2), true, 0, "/a/b/a"), 4 := Node("c", Some(3), false, 0, "/a/b/a/c")]
  }

  /** MAIN RESULT. Renaming the outer folder also renames the inner one's segment
      in the path of the file below it, though not the inner folder itself. */
  lemma RenameCorrupts()
    ensures Valid(Nested())
    ensures Moved(Nested(), 1, "x", None)[3].path == "/x/b/a"
    ensures Moved(Nested(), 1, "x", None)[4].path == "/x/b/x/c"
    ensures !Valid(Moved(Nested(), 1, "x", None))
  {
    NestedIsValid();
    hide Valid, NodeOk, Nested, Moved, NewPath;
    MovedNested();
    MovedNestedBreaks();
  }

  lemma MovedNestedBreaks()
    requires Moved(Nested(), 1, "x", None)[3].path == "/x/b/a" && Moved(Nested(), 1, "x", None)[4].path == "/x/b/x/c"
    ensures !Valid(Moved(Nested(), 1, "x", None))
  {
    hide Rewrite;
    var after := Moved(Nested(), 1, "x", None);
    assert BuildPath("/x/b/a", "c") == "/x/b/a/c";
    assert "/x/b/x/c"[5] != "/x/b/a/c"[5];
    assert after[4].parent == Some(3) && after[4].name == "c";
    assert !NodeOk(after, after[4]);
  }

  lemma MovedNested()
    ensures Moved(Nested(), 1, "x", None)[3].path == "/x/b/a"
    ensures Moved(Nested(), 1, "x", None)[4].path == "/x/b/x/c"
  {
    StepsOfThree();
    StepsOfFour();
    assert "/a" + "/" == "/a/" && "/x" + "/" == "/x/";
    assert HasPrefix("/a/b/a", "/a/") && HasPrefix("/a/b/a/c", "/a/");
    assert BuildPath("", "x") == "/x";
    hide Replace, HasPrefix, BuildPath;
    assert NewPath(Nested(), "x", None) == "/x";
  }

  lemma StepsOfThree()
    ensures Replace("/a/b/a", "/a/", "/x/") == "/x/b/a"
  {
    assert HasPrefix("/a/b/a", "/a/") && "/a/b/a"[3..] == "b/a";
    assert Replace("/a", "/a/", "/x/") == "/a" by {
      assert Replace("a", "/a/", "/x/") == "a";
    }
    assert "b/a"[1..] == "/a";
    assert Replace("b/a", "/a/", "/x/") == ['b'] + Replace("/a", "/a/", "/x/");
  }

  lemma StepsOfFour()
    ensures Replace("/a/b/a/c", "/a/", "/x/") == "/x/b/x/c"
  {
    assert HasPrefix("/a/b/a/c", "/a/") && "/a/b/a/c"[3..] == "b/a/c";
    assert HasPrefix("/a/c", "/a/") && "/a/c"[3..] == "c";
    assert Replace("c", "/a/", "/x/") == "c";
    assert "b/a/c"[1..] == "/a/c";
    assert Replace("b/a/c", "/a/", "/x/") == ['b'] + Replace("/a/c", "/a/", "/x/");
  }

  lemma NestedIsValid()
    ensures Valid(Nested())
  {
  }
}
