/** app/capabilities/modules.py, resolve_modules: depth-first resolution of module
    dependencies. */
module Modules {
  /** Each registered module with its dependencies. */
  type Graph = map<string, seq<string>>

  /** chain[k] depends on chain[k + 1]; only the last may be unregistered. */
  predicate Chain(graph: Graph, chain: seq<string>) {
    && chain != []
    && forall k :: 0 <= k < |chain| - 1 ==> chain[k] in graph && chain[k + 1] in graph[chain[k]]
  }

  /** The chain ends in an unregistered module, or where it has been before. */
  predicate BadEnd(graph: Graph, chain: seq<string>)
    requires chain != []
  {
    chain[|chain| - 1] !in graph || chain[|chain| - 1] in chain[..|chain| - 1]
  }

  ghost predicate Defect(graph: Graph, root: string) {
    exists chain :: Chain(graph, chain) && chain[0] == root && BadEnd(graph, chain)
  }

  ghost predicate Reaches(graph: Graph, root: string, module_: string) {
    exists chain :: Chain(graph, chain) && chain[0] == root && chain[|chain| - 1] == module_
  }

  /** No module twice, and each one behind everything it depends on. */
  ghost predicate DependencyFirst(graph: Graph, order: seq<string>) {
    && (forall i, j :: 0 <= i < j < |order| ==> order[i] != order[j])
    && forall k :: 0 <= k < |order| ==> order[k] in graph && forall d :: d in graph[order[k]] ==> d in order[..k]
  }

  lemma Append(graph: Graph, order: seq<string>, m: string)
    requires DependencyFirst(graph, order) && m in graph && m !in order
    requires forall d :: d in graph[m] ==> d in order
    ensures DependencyFirst(graph, order + [m])
  {
    var longer := order + [m];
    forall k | 0 <= k < |longer| ensures longer[k] in graph && forall d :: d in graph[longer[k]] ==> d in longer[..k] {
      assert longer[..k] == order[..k];
      if k == |order| {
        assert order[..k] == order;
      } else {
        assert longer[k] == order[k];
      }
    }
  }

  lemma Extend(graph: Graph, path: seq<string>, d: string)
    requires Chain(graph, path) && path[|path| - 1] in graph && d in graph[path[|path| - 1]]
    ensures Chain(graph, path + [d])
  {
  }

  lemma AtPosition(order: seq<string>, m: string) returns (k: nat)
    requires m in order
    ensures k < |order| && order[k] == m
  {
    k :| 0 <= k < |order| && order[k] == m;
  }

  /** Along a chain that starts inside a dependency-first order, positions fall. */
  lemma {:induction false} ChainFalls(graph: Graph, order: seq<string>, chain: seq<string>, k: nat)
    requires DependencyFirst(graph, order) && Chain(graph, chain) && k < |order| && order[k] == chain[0]
    ensures chain[|chain| - 1] in order[..k + 1]
    ensures |chain| > 1 ==> chain[|chain| - 1] in order[..k]
  {
    if |chain| > 1 {
      assert chain[1] in order[..k];
      var j := AtPosition(order[..k], chain[1]);
      ChainFalls(graph, order, chain[1..], j);
      assert order[..j + 1] <= order[..k];
    }
  }

  /** A dependency-first order rules defects out. */
  lemma OrderedHasNoDefect(graph: Graph, order: seq<string>, root: string)
    requires DependencyFirst(graph, order) && root in order
    ensures !Defect(graph, root)
  {
    forall chain | Chain(graph, chain) && chain[0] == root ensures !BadEnd(graph, chain) {
      var k := AtPosition(order, root);
      ChainFalls(graph, order, chain, k);
      var m := AtPosition(order, chain[|chain| - 1]);
      NoLoop(graph, order, chain, k);
    }
  }

  lemma NoLoop(graph: Graph, order: seq<string>, chain: seq<string>, k: nat)
    requires DependencyFirst(graph, order) && Chain(graph, chain) && k < |order| && order[k] == chain[0]
    ensures chain[|chain| - 1] !in chain[..|chain| - 1]
  {
    forall i | 0 <= i < |chain| - 1 ensures chain[i] != chain[|chain| - 1] {
      var front, rest := chain[..i + 1], chain[i..];
      ChainFalls(graph, order, front, k);
      var j := AtPosition(order[..k + 1], front[i]);
      assert order[j] == chain[i];
      ChainFalls(graph, order, rest, j);
      var m := AtPosition(order[..j], rest[|rest| - 1]);
      assert order[m] == chain[|chain| - 1] && m < j;
    }
  }

  class Resolver {
    const graph: Graph
    var visiting: set<string>
    var resolved: seq<string>

    constructor (graph: Graph)
      ensures this.graph == graph && visiting == {} && resolved == []
    {
      this.graph, visiting, resolved := graph, {}, [];
    }

    /** visit; `path` leads from the requested module to this one over the ones
        being visited. */
    method Visit(id: string, ghost path: seq<string>) returns (ok: bool)
      requires id in graph && Chain(graph, path) && path[|path| - 1] == id
      requires visiting <= graph.Keys && forall x :: x in visiting <==> x in path[..|path| - 1]
      requires DependencyFirst(graph, resolved) && forall x :: x in visiting ==> x !in resolved
      modifies this
      ensures old(resolved) <= resolved && DependencyFirst(graph, resolved)
      ensures ok ==> visiting == old(visiting) && id in resolved && forall x :: x in visiting ==> x !in resolved
      ensures ok ==> forall x :: x in resolved && x !in old(resolved) ==> Reaches(graph, path[0], x)
      ensures !ok ==> Defect(graph, path[0])
      decreases graph.Keys - visiting
    {
      if id in resolved {
        return true;
      }
      if id in visiting {
        assert BadEnd(graph, path);
        return false;
      }
      visiting := visiting + {id};
      var i := 0;
      while i < |graph[id]|
        invariant 0 <= i <= |graph[id]| && visiting == old(visiting) + {id}
        invariant old(resolved) <= resolved && DependencyFirst(graph, resolved)
        invariant forall x :: x in visiting ==> x !in resolved
        invariant forall k :: 0 <= k < i ==> graph[id][k] in resolved
        invariant forall x :: x in resolved && x !in old(resolved) ==> Reaches(graph, path[0], x)
      {
        var d := graph[id][i];
        Extend(graph, path, d);
        if d !in graph {
          assert BadEnd(graph, path + [d]);
          assert (path + [d])[0] == path[0];
          return false;
        }
        assert (path + [d])[..|path + [d]| - 1] == path;
        assert path == path[..|path| - 1] + [id];
        ok := Visit(d, path + [d]);
        if !ok {
          return;
        }
        i := i + 1;
      }
      visiting := visiting - {id};
      assert visiting == old(visiting);
      forall d | d in graph[id] ensures d in resolved {
        var k :| 0 <= k < |graph[id]| && graph[id][k] == d;
      }
      Append(graph, resolved, id);
      resolved := resolved + [id];
      ok := true;
    }
  }

  /** resolve_modules */
  method ResolveModules(graph: Graph, requested: seq<string>) returns (ok: bool, order: seq<string>)
    ensures ok <==> forall r :: r in requested ==> r in graph && !Defect(graph, r)
    ensures ok ==> DependencyFirst(graph, order) && forall r :: r in requested ==> r in order
    ensures ok ==> forall m :: m in order ==> exists r :: r in requested && Reaches(graph, r, m)
  {
    order := [];
    if exists r | r in requested :: r !in graph {
      return false, order;
    }
    var resolver := new Resolver(graph);
    for i := 0 to |requested|
      invariant resolver.graph == graph && resolver.visiting == {} && fresh(resolver)
      invariant DependencyFirst(graph, resolver.resolved)
      invariant forall k :: 0 <= k < i ==> requested[k] in resolver.resolved
      invariant forall m :: m in resolver.resolved ==> exists r :: r in requested && Reaches(graph, r, m)
    {
      ghost var before := resolver.resolved;
      ok := resolver.Visit(requested[i], [requested[i]]);
      if !ok {
        assert Defect(graph, requested[i]);
        return;
      }
    }
    order := resolver.resolved;
    forall r | r in requested ensures r in order && !Defect(graph, r) {
      var k :| 0 <= k < |requested| && requested[k] == r;
      OrderedHasNoDefect(graph, order, r);
    }
    ok := true;
  }
}
