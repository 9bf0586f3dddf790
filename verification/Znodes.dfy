/** How one call to the API server or to ZooKeeper may end. */
module Calls {
  /** `Refused`: an error and no effect. `Unacknowledged`: the effect, and still an error. */
  datatype Fate = Done | Refused | Unacknowledged
}

/** The versioned store behind the operator's ZooKeeper client (pkg/zk/zookeeper_client.go). */
module Znodes {
  import opened Text
  import opened Calls

  datatype Znode = Znode(data: string, version: int)

  type Tree = map<string, Znode>

  function FateOf(fates: map<string, Fate>, path: string): Fate {
    if path in fates then fates[path] else Done
  }

  /** One `conn.Create`: an existing node is an error. */
  function Create(tree: Tree, path: string, data: string, fate: Fate): (Tree, bool) {
    if path in tree || fate.Refused? then (tree, false) else (tree[path := Znode(data, 0)], fate.Done?)
  }

  /** One `conn.Set`: the version must be the current one. */
  function UpdateNode(tree: Tree, path: string, data: string, version: int, fate: Fate): (Tree, bool) {
    if path !in tree || tree[path].version != version || fate.Refused? then (tree, false)
    else (tree[path := Znode(data, version + 1)], fate.Done?)
  }

  /** The node paths `CreateNode` builds below `parent`, in order. */
  function Prefixes(parent: string, parts: seq<string>): (paths: seq<string>)
    ensures |paths| == |parts|
    decreases |parts|
  {
    if parts == [] then [] else [parent + "/" + parts[0]] + Prefixes(parent + "/" + parts[0], parts[1..])
  }

  /** Create the given nodes in order, the data going to the last, stopping at the first error. */
  function CreateAll(tree: Tree, paths: seq<string>, data: string, fates: map<string, Fate>): (Tree, bool)
    decreases |paths|
  {
    if paths == [] then (tree, true)
    else
      var (next, ok) := Create(tree, paths[0], if |paths| == 1 then data else "", FateOf(fates, paths[0]));
      if ok then CreateAll(next, paths[1..], data, fates) else (next, false)
  }

  function NodePaths(path: string): (paths: seq<string>)
    ensures |paths| >= 1
  {
    var parts := Split(path, '/');
    if |parts| == 1 then Prefixes("", parts) else Prefixes("", parts[1..])
  }

  class ZookeeperClient {
    var tree: Tree

    constructor (t: Tree)
      ensures tree == t
    {
      tree := t;
    }

    method CreateOne(path: string, data: string, fate: Fate) returns (ok: bool)
      modifies this
      ensures (tree, ok) == Create(old(tree), path, data, fate)
    {
      if path in tree || fate == Refused {
        return false;
      }
      tree := tree[path := Znode(data, 0)];
      return fate == Done;
    }

    /** `CreateNode`: the parents one by one, then the node itself with the cluster size. */
    method CreateNode(zNodePath: string, data: string, fates: map<string, Fate>) returns (ok: bool)
      modifies this
      ensures (tree, ok) == CreateAll(old(tree), NodePaths(zNodePath), data, fates)
    {
      var paths := Split(zNodePath, '/');
      var n := |paths|;
      var parentPath := "";
      var i := if n == 1 then 0 else 1;
      while i < n - 1
        invariant i < n
        invariant CreateAll(tree, Prefixes(parentPath, paths[i..]), data, fates)
                  == CreateAll(old(tree), NodePaths(zNodePath), data, fates)
      {
        parentPath := parentPath + "/" + paths[i];
        assert paths[i..][1..] == paths[i + 1..];
        ok := CreateOne(parentPath, "", FateOf(fates, parentPath));
        if !ok {
          return;
        }
        i := i + 1;
      }
      var childNode := parentPath + "/" + paths[n - 1];
      assert Prefixes(parentPath, paths[i..]) == [childNode];
      ok := CreateOne(childNode, data, FateOf(fates, childNode));
    }
  }

  // ----- What CreateNode achieves -----

  function Joined(parts: seq<string>): string {
    if parts == [] then "" else "/" + parts[0] + Joined(parts[1..])
  }

  lemma {:induction false} JoinedSplit(s: string)
    ensures Joined(Split(s, '/')) == "/" + s
    decreases |s|
  {
    var k := IndexOf(s, '/');
    if k < |s| {
      var rest := Split(s[k + 1..], '/');
      assert Split(s, '/') == [s[..k]] + rest;
      JoinedSplit(s[k + 1..]);
      JoinedFirst(s[..k], rest);
      SlashJoins(s, k);
    } else {
      assert Split(s, '/') == [s];
      JoinedOne(s);
    }
  }

  lemma JoinedOne(s: string)
    ensures Joined([s]) == "/" + s
  {
    assert [s][1..] == [] && "/" + s + "" == "/" + s;
  }

  lemma JoinedFirst(a: string, parts: seq<string>)
    ensures Joined([a] + parts) == "/" + a + Joined(parts)
  {
    assert ([a] + parts)[1..] == parts;
  }

  lemma SlashJoins(s: string, k: nat)
    requires k < |s| && s[k] == '/'
    ensures "/" + s[..k] + ("/" + s[k + 1..]) == "/" + s
  {
    assert s == s[..k] + [s[k]] + s[k + 1..];
  }

  lemma OneJoined(parent: string, part: string, rest: string)
    ensures parent + ("/" + part + rest) == parent + "/" + part + rest
  {
  }

  lemma {:induction false} PrefixesEnd(parent: string, parts: seq<string>)
    requires parts != []
    ensures Prefixes(parent, parts)[|parts| - 1] == parent + Joined(parts)
    decreases |parts|
  {
    var next := parent + "/" + parts[0];
    if |parts| > 1 {
      PrefixesEnd(next, parts[1..]);
      OneJoined(parent, parts[0], Joined(parts[1..]));
    } else {
      assert Joined(parts[1..]) == "";
    }
  }

  lemma {:induction false} PrefixesGrow(parent: string, parts: seq<string>)
    ensures forall i | 0 <= i < |parts| :: Extends(parent, Prefixes(parent, parts)[i])
    ensures forall i, j | 0 <= i < j < |parts| :: Extends(Prefixes(parent, parts)[i], Prefixes(parent, parts)[j])
    decreases |parts|
  {
    if parts != [] {
      var next := parent + "/" + parts[0];
      var rest := Prefixes(next, parts[1..]);
      PrefixesGrow(next, parts[1..]);
      assert Prefixes(parent, parts) == [next] + rest;
      assert Extends(parent, next);
      forall i | 0 <= i < |rest|
        ensures Extends(parent, rest[i])
      {
        ExtendsTransitive(parent, next, rest[i]);
      }
    }
  }

  /** `s` is a longer path than `p`, starting with it. */
  predicate Extends(p: string, s: string) {
    |p| < |s| && s[..|p|] == p
  }

  lemma ExtendsTransitive(a: string, b: string, c: string)
    requires Extends(a, b) && Extends(b, c)
    ensures Extends(a, c)
  {
    assert c[..|a|] == c[..|b|][..|a|];
  }

  lemma SplitAbsolute(path: string)
    requires path != "" && path[0] == '/'
    ensures Split(path, '/')[1..] == Split(path[1..], '/') && NodePaths(path) == Prefixes("", Split(path[1..], '/'))
  {
    var tail := path[1..];
    assert path == "" + ['/'] + tail;
    SplitSeparator("", '/', tail);
    assert Split(path, '/')[1..] == Split(tail, '/');
  }

  /** For an absolute path the nodes created are ever longer prefixes, the last being the path itself:
      the one later reads and updates use. */
  lemma AbsolutePath(path: string)
    requires path != "" && path[0] == '/'
    ensures var paths := NodePaths(path);
            && paths[|paths| - 1] == path
            && (forall i, j | 0 <= i < j < |paths| :: Extends(paths[i], paths[j]))
  {
    var parts := Split(path[1..], '/');
    SplitAbsolute(path);
    JoinedSplit(path[1..]);
    PrefixesEnd("", parts);
    PrefixesGrow("", parts);
    assert "" + ("/" + path[1..]) == path;
  }

  /** The tree after every node of `paths` was created. */
  function Extended(tree: Tree, paths: seq<string>, data: string): Tree
    decreases |paths|
  {
    if paths == [] then tree
    else Extended(tree[paths[0] := Znode(if |paths| == 1 then data else "", 0)], paths[1..], data)
  }

  /** Creation succeeds exactly when none of the nodes existed and no call failed; then every node is
      there, the data at the last. */
  lemma {:induction false} CreateExactly(tree: Tree, paths: seq<string>, data: string, fates: map<string, Fate>)
    requires forall i, j | 0 <= i < j < |paths| :: paths[i] != paths[j]
    ensures var (after, ok) := CreateAll(tree, paths, data, fates);
            && (ok <==> forall i | 0 <= i < |paths| :: paths[i] !in tree && FateOf(fates, paths[i]) == Done)
            && (ok ==> after == Extended(tree, paths, data))
            && (forall p | p in tree :: p in after && after[p] == tree[p])
            && (paths != [] && ok ==> paths[|paths| - 1] in after && after[paths[|paths| - 1]] == Znode(data, 0))
    decreases |paths|
  {
    if paths != [] {
      var (next, ok) := Create(tree, paths[0], if |paths| == 1 then data else "", FateOf(fates, paths[0]));
      CreateExactly(next, paths[1..], data, fates);
      if ok {
        var rest := CreateAll(next, paths[1..], data, fates);
        assert rest.1 <==> forall i | 1 <= i < |paths| :: paths[1..][i - 1] !in next && FateOf(fates, paths[i]) == Done;
        assert forall i | 1 <= i < |paths| :: paths[i] in next <==> paths[i] in tree;
      }
    }
  }

  /** A node is set only at the version given, which then moves on by one; other nodes are never touched. */
  lemma UpdateExactly(tree: Tree, path: string, data: string, version: int, fate: Fate)
    ensures var (after, ok) := UpdateNode(tree, path, data, version, fate);
            var found := path in tree && tree[path].version == version;
            && (ok <==> found && fate == Done)
            && (if found && fate != Refused then path in after && after[path] == Znode(data, version + 1)
                else after == tree)
            && after.Keys == tree.Keys && forall p | p in tree && p != path :: after[p] == tree[p]
  {
  }

  /** Creation is not repeatable: once a call has left the first node behind, acknowledged or not,
      every later call fails, whatever happened in between to the other nodes. */
  lemma CreateNotRepeatable(tree: Tree, paths: seq<string>, data: string, fates: map<string, Fate>)
    requires paths != [] && paths[0] in tree
    ensures CreateAll(tree, paths, data, fates) == (tree, false)
  {
  }
}
