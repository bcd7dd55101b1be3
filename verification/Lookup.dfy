/** Object lookups on the path tree (`__ubusd_handle_lookup` in `ubusd_proto.c`): by name, by
    wildcard prefix, and the full list, which is interrupted whenever the client's queue fills
    and resumed later on a tree that may have changed. */
module Lookup {
  import opened CStrings
  import opened Options
  import opened Ubus
  import Seqs

  datatype Node = Node(path: CStr, obj: nat)

  /** The path tree walked from first to last; a path occurs once. */
  ghost predicate Tree(t: seq<Node>) {
    forall i, j {:trigger Less(t[i].path, t[j].path)} :: 0 <= i < j < |t| ==> Less(t[i].path, t[j].path)
  }

  lemma LessThanLater(t: seq<Node>, i: nat, j: nat)
    requires Tree(t) && i <= j < |t|
    ensures Leq(t[i].path, t[j].path)
  {
    if i == j { LeqReflexive(t[i].path); } else { assert Less(t[i].path, t[j].path); }
  }

  /** `avl_find_ge_element`: the first node not below the key, or the end. */
  method FindGe(t: seq<Node>, key: CStr) returns (i: nat)
    requires Tree(t)
    ensures i == Start(t, Some(key))
  {
    i := 0;
    while i < |t| && !NotAfter(key, t[i].path)
      invariant i <= |t|
      invariant forall k :: 0 <= k < i ==> !Leq(key, t[k].path)
    {
      i := i + 1;
    }
    StartUnique(t, key, i);
  }

  /** The position a walk starts at: the beginning, or the first node not below a key. */
  ghost function Start(t: seq<Node>, from: Option<CStr>): (i: nat)
    ensures i <= |t|
  {
    match from
    case None => 0
    case Some(key) => if t == [] || Leq(key, t[0].path) then 0 else 1 + Start(t[1..], from)
  }

  lemma {:induction false} StartUnique(t: seq<Node>, key: CStr, i: nat)
    requires i <= |t|
    requires forall k :: 0 <= k < i ==> !Leq(key, t[k].path)
    requires i < |t| ==> Leq(key, t[i].path)
    ensures i == Start(t, Some(key))
  {
    hide Leq;
    if 0 < i {
      StartUnique(t[1..], key, i - 1);
    }
  }

  lemma {:induction false} StartSplits(t: seq<Node>, key: CStr)
    requires Tree(t)
    ensures var g := Start(t, Some(key));
      && (forall k :: 0 <= k < g ==> !Leq(key, t[k].path))
      && (forall k :: g <= k < |t| ==> Leq(key, t[k].path))
  {
    hide Leq;
    if t == [] {
    } else if Leq(key, t[0].path) {
      forall k | 0 <= k < |t| ensures Leq(key, t[k].path) {
        LessThanLater(t, 0, k);
        LeqTransitive(key, t[0].path, t[k].path);
      }
    } else {
      assert Tree(t[1..]) by {
        forall i, j | 0 <= i < j < |t[1..]| ensures Less(t[1..][i].path, t[1..][j].path) {
          assert Less(t[i + 1].path, t[j + 1].path);
        }
      }
      StartSplits(t[1..], key);
      forall k | 0 <= k < |t|
        ensures k < Start(t, Some(key)) ==> !Leq(key, t[k].path)
        ensures Start(t, Some(key)) <= k ==> Leq(key, t[k].path)
      {
        assert 0 < k ==> t[k] == t[1..][k - 1];
      }
    }
  }

  // ----- lookup by pattern -----

  /** The plain rule: the nodes whose path has the prefix, in tree order. */
  function WithPrefix(t: seq<Node>, prefix: CStr): seq<Node> {
    if t == [] then [] else Kept(t[0], prefix) + WithPrefix(t[1..], prefix)
  }

  function Kept(n: Node, prefix: CStr): seq<Node> {
    if HasPrefix(n.path, prefix) then [n] else []
  }

  /** `!strncmp(prefix, path, len)`. */
  predicate HasPrefix(path: CStr, prefix: CStr)
    ensures HasPrefix(path, prefix) <==> IsPrefix(prefix, path)
  {
    |prefix| <= |path| && path[..|prefix|] == prefix
  }

  /** Paths with a common prefix are neighbours. */
  lemma PrefixConvex(prefix: CStr, a: CStr, b: CStr)
    requires Leq(prefix, a) && Leq(a, b) && IsPrefix(prefix, b)
    ensures IsPrefix(prefix, a)
  {
    PrefixIsLcp(prefix, b);
    LcpMonotone(prefix, a, b);
    assert a[..|prefix|] == a[..Lcp(a, b)][..|prefix|] == b[..Lcp(a, b)][..|prefix|];
  }

  lemma {:induction false} PrefixSplit(a: seq<Node>, b: seq<Node>, prefix: CStr)
    ensures WithPrefix(a + b, prefix) == WithPrefix(a, prefix) + WithPrefix(b, prefix)
  {
    hide Kept;
    if a == [] {
      assert a + b == b;
    } else {
      PrefixSplit(a[1..], b, prefix);
      assert (a + b)[0] == a[0] && (a + b)[1..] == a[1..] + b;
      Seqs.Assoc(Kept(a[0], prefix), WithPrefix(a[1..], prefix), WithPrefix(b, prefix));
    }
  }

  lemma {:induction false} AllOrNone(t: seq<Node>, prefix: CStr, all: bool)
    requires forall k :: 0 <= k < |t| ==> HasPrefix(t[k].path, prefix) == all
    ensures WithPrefix(t, prefix) == if all then t else []
  {
    hide HasPrefix;
    if t != [] {
      AllOrNone(t[1..], prefix, all);
    }
  }

  /** Everything before the first key not below the prefix, and everything from the first key
      after it without the prefix, is outside. */
  lemma OutsideWalk(t: seq<Node>, prefix: CStr, g: nat, k: nat)
    requires Tree(t) && g == Start(t, Some(prefix)) && g <= k <= |t|
    requires k < |t| ==> !HasPrefix(t[k].path, prefix)
    ensures forall i :: 0 <= i < g || k <= i < |t| ==> !HasPrefix(t[i].path, prefix)
  {
    hide Leq;
    StartSplits(t, prefix);
    forall i | 0 <= i < g ensures !HasPrefix(t[i].path, prefix) {
      if HasPrefix(t[i].path, prefix) { PrefixLeq(prefix, t[i].path); }
    }
    forall i | k <= i < |t| ensures !HasPrefix(t[i].path, prefix) {
      LessThanLater(t, k, i);
      if HasPrefix(t[i].path, prefix) { PrefixConvex(prefix, t[k].path, t[i].path); }
    }
  }

  lemma WalkIsFilter(t: seq<Node>, prefix: CStr, g: nat, k: nat)
    requires Tree(t) && g == Start(t, Some(prefix)) && g <= k <= |t|
    requires forall i :: g <= i < k ==> HasPrefix(t[i].path, prefix)
    requires k < |t| ==> !HasPrefix(t[k].path, prefix)
    ensures WithPrefix(t, prefix) == t[g..k]
  {
    hide Leq, Tree, WithPrefix, HasPrefix;
    OutsideWalk(t, prefix, g, k);
    AllOrNone(t[..g], prefix, false);
    AllOrNone(t[g..k], prefix, true);
    AllOrNone(t[k..], prefix, false);
    PrefixSplit(t[..g], t[g..k], prefix);
    PrefixSplit(t[..g] + t[g..k], t[k..], prefix);
    assert t == t[..g] + t[g..k] + t[k..];
  }

  /** A lookup with a path attribute: `avl_find_element` for a plain name, a seek and a walk for a
      wildcard.  The answer is the plain filter, and NOT_FOUND exactly when that is empty. */
  method ByPattern(t: seq<Node>, pattern: CStr) returns (rc: int, visited: seq<Node>)
    requires Tree(t)
    ensures pattern == "" ==> rc == INVALID_ARGUMENT && visited == []
    ensures pattern != "" && IsWildcard(pattern) ==>
      && visited == WithPrefix(t, Key(pattern))
      && rc == if visited == [] then NOT_FOUND else OK
    ensures pattern != "" && !IsWildcard(pattern) ==>
      && (rc == OK || rc == NOT_FOUND)
      && (rc == OK ==> |visited| == 1 && visited[0] in t && visited[0].path == pattern)
      && (rc == NOT_FOUND ==> visited == [] && forall n :: n in t ==> n.path != pattern)
  {
    hide Leq, WithPrefix;
    visited := [];
    var len := |pattern|;
    if len == 0 { return INVALID_ARGUMENT, []; }
    if pattern[len - 1] != '*' {
      var i := FindGe(t, pattern);
      StartSplits(t, pattern);
      if i < |t| && t[i].path == pattern { return OK, [t[i]]; }
      forall n | n in t ensures n.path != pattern {
        var k :| 0 <= k < |t| && t[k] == n;
        if n.path == pattern { NotFoundAt(t, pattern, i, k); }
      }
      return NOT_FOUND, [];
    }
    len := len - 1;
    var prefix := pattern[..len];
    var g := FindGe(t, prefix);
    var k := g;
    if g == |t| {
      WalkIsFilter(t, prefix, g, k);
      return NOT_FOUND, [];
    }
    while k < |t| && HasPrefix(t[k].path, prefix)
      invariant g <= k <= |t|
      invariant visited == t[g..k]
      invariant forall i :: g <= i < k ==> HasPrefix(t[i].path, prefix)
    {
      Seqs.SliceMore(t, g, k);
      visited := visited + [t[k]];
      k := k + 1;
    }
    WalkIsFilter(t, prefix, g, k);
    rc := if visited == [] then NOT_FOUND else OK;
  }

  lemma NotFoundAt(t: seq<Node>, key: CStr, g: nat, k: nat)
    requires Tree(t) && g == Start(t, Some(key)) && k < |t| && t[k].path == key
    ensures g < |t| && t[g].path == key
  {
    hide Leq;
    StartSplits(t, key);
    LeqReflexive(key);
    LessThanLater(t, g, k);
    LeqAntisymmetric(t[g].path, key);
  }

  // ----- the full list, interrupted and resumed -----

  /** One round of a full list: the tree at that moment, and how many objects can be sent before
      the client's queue holds data. */
  datatype Round = Round(tree: seq<Node>, room: nat)

  /** The walk of `__ubusd_handle_lookup` without a path: it sends objects while the queue is
      empty; if objects are left it returns the path of the first of them as the place to resume. */
  method ListRound(r: Round, resume: Option<CStr>) returns (visited: seq<Node>, next: Option<CStr>)
    requires Tree(r.tree)
    ensures visited == Visited(r, resume) && next == Next(r, resume)
  {
    hide Leq, Tree;
    visited, next := [], None;
    var i := 0;
    if resume.Some? {
      i := FindGe(r.tree, resume.value);
    }
    ghost var start := i;
    while i < |r.tree|
      invariant start <= i <= |r.tree|
      invariant |visited| == i - start <= r.room
      invariant visited == r.tree[start..i]
    {
      if |visited| < r.room {
        Seqs.SliceMore(r.tree, start, i);
        visited := visited + [r.tree[i]];
      } else {
        return visited, Some(r.tree[i].path);
      }
      i := i + 1;
    }
  }

  ghost function Visited(r: Round, resume: Option<CStr>): seq<Node> {
    var s := Start(r.tree, resume);
    if |r.tree| - s <= r.room then r.tree[s..] else r.tree[s..s + r.room]
  }

  ghost function Next(r: Round, resume: Option<CStr>): Option<CStr> {
    var s := Start(r.tree, resume);
    if |r.tree| - s <= r.room then None else Some(r.tree[s + r.room].path)
  }

  /** All objects visited over the rounds, up to the one that reaches the end of its tree. */
  ghost function AllVisited(rounds: seq<Round>, resume: Option<CStr>): seq<Node> {
    if rounds == [] then []
    else
      var next := Next(rounds[0], resume);
      Visited(rounds[0], resume) + if next.None? then [] else AllVisited(rounds[1..], next)
  }

  ghost predicate Completed(rounds: seq<Round>, resume: Option<CStr>) {
    && rounds != []
    && (Next(rounds[0], resume).None? || Completed(rounds[1..], Next(rounds[0], resume)))
  }

  /** A list request from its receipt on: `ubusd_handle_lookup`, and then `ubusd_cmd_lookup` whenever the client's queue has
      become empty, each time from the path that was kept. */
  method List(rounds: seq<Round>) returns (visited: seq<Node>, done: bool)
    requires AllTrees(rounds)
    ensures visited == AllVisited(rounds, None) && done == Completed(rounds, None)
  {
    hide Visited, Next, Tree;
    visited, done := [], false;
    var resume := None;
    for i := 0 to |rounds|
      invariant !done
      invariant visited + AllVisited(rounds[i..], resume) == AllVisited(rounds, None)
      invariant Completed(rounds[i..], resume) == Completed(rounds, None)
    {
      var sent, next := ListRound(rounds[i], resume);
      assert rounds[i..][0] == rounds[i] && rounds[i..][1..] == rounds[i + 1..];
      visited := visited + sent;
      if next.None? {
        return visited, true;
      }
      Seqs.Assoc(visited[..|visited| - |sent|], sent, AllVisited(rounds[i + 1..], next));
      resume := next;
    }
    assert rounds[|rounds|..] == [];
  }

  ghost predicate AllTrees(rounds: seq<Round>) {
    forall i :: 0 <= i < |rounds| ==> Tree(rounds[i].tree)
  }

  ghost predicate NotBelow(path: CStr, from: Option<CStr>) {
    from.None? || Leq(from.value, path)
  }

  lemma VisitedBounds(r: Round, resume: Option<CStr>)
    requires Tree(r.tree)
    ensures Tree(Visited(r, resume))
    ensures forall n :: n in Visited(r, resume) ==> n in r.tree && NotBelow(n.path, resume)
    ensures Next(r, resume).Some? ==> NotBelow(Next(r, resume).value, resume)
    ensures Next(r, resume).Some? ==>
      forall n :: n in Visited(r, resume) ==> Less(n.path, Next(r, resume).value)
  {
    hide Leq;
    var t, s, v := r.tree, Start(r.tree, resume), Visited(r, resume);
    if resume.Some? { StartSplits(t, resume.value); }
    forall i, j | 0 <= i < j < |v| ensures Less(v[i].path, v[j].path) {
      assert Less(t[s + i].path, t[s + j].path);
    }
    forall n | n in v
      ensures n in t && NotBelow(n.path, resume)
      ensures Next(r, resume).Some? ==> Less(n.path, Next(r, resume).value)
    {
      var i :| 0 <= i < |v| && v[i] == n;
      assert t[s + i] == n;
      if Next(r, resume).Some? { assert Less(t[s + i].path, t[s + r.room].path); }
    }
  }

  /** Over any number of interruptions, with any changes to the tree in between, the paths come
      in strictly ascending order: no path is listed twice. */
  lemma {:induction false} ListAscends(rounds: seq<Round>, resume: Option<CStr>)
    requires AllTrees(rounds)
    ensures Tree(AllVisited(rounds, resume))
    ensures forall n :: n in AllVisited(rounds, resume) ==> NotBelow(n.path, resume)
  {
    hide Leq, Less, Visited, Next;
    if rounds != [] {
      var v, next := Visited(rounds[0], resume), Next(rounds[0], resume);
      VisitedBounds(rounds[0], resume);
      if next.Some? {
        var w := AllVisited(rounds[1..], next);
        ListAscends(rounds[1..], next);
        var vw: seq<Node> := v + w;
        forall i, j | 0 <= i < j < |vw| ensures Less(vw[i].path, vw[j].path) {
          if j < |v| {
            assert Less(v[i].path, v[j].path);
          } else if |v| <= i {
            assert Less(w[i - |v|].path, w[j - |v|].path);
          } else {
            assert v[i] in v && w[j - |v|] in w;
            LessLeq(v[i].path, next.value, w[j - |v|].path);
          }
        }
        forall n | n in w ensures NotBelow(n.path, resume) {
          if resume.Some? { LeqTransitive(resume.value, next.value, n.path); }
        }
      } else {
        assert v + [] == v;
      }
    }
  }

  lemma LessLeq(a: CStr, b: CStr, c: CStr)
    requires Less(a, b) && Leq(b, c)
    ensures Less(a, c)
  {
    LeqTransitive(a, b, c);
    if a == c { LeqAntisymmetric(a, b); }
  }

  /** An object that is in the tree in every round is listed once the list completes; with
      `ListAscends`, exactly once. */
  lemma {:induction false} ListComplete(rounds: seq<Round>, resume: Option<CStr>, n: Node)
    requires AllTrees(rounds) && Completed(rounds, resume)
    requires forall i :: 0 <= i < |rounds| ==> n in rounds[i].tree
    requires NotBelow(n.path, resume)
    ensures n in AllVisited(rounds, resume)
  {
    hide Leq;
    var t, s := rounds[0].tree, Start(rounds[0].tree, resume);
    var k :| 0 <= k < |t| && t[k] == n;
    if resume.Some? { StartSplits(t, resume.value); }
    var e := if |t| - s <= rounds[0].room then |t| else s + rounds[0].room;
    if k < e {
      assert Visited(rounds[0], resume)[k - s] == n;
    } else {
      LessThanLater(t, e, k);
      ListComplete(rounds[1..], Next(rounds[0], resume), n);
    }
  }

  /** The promise for a whole list request, which starts with no resume key. */
  lemma ListedExactlyOnce(rounds: seq<Round>, n: Node)
    requires AllTrees(rounds) && Completed(rounds, None)
    requires forall i :: 0 <= i < |rounds| ==> n in rounds[i].tree
    ensures var all := AllVisited(rounds, None);
      exists k :: 0 <= k < |all| && all[k] == n &&
        forall j :: 0 <= j < |all| && j != k ==> all[j].path != n.path
  {
    var all := AllVisited(rounds, None);
    ListAscends(rounds, None);
    ListComplete(rounds, None, n);
    var k :| 0 <= k < |all| && all[k] == n;
    forall j | 0 <= j < |all| && j != k ensures all[j].path != n.path {
      assert j < k ==> Less(all[j].path, all[k].path);
      assert k < j ==> Less(all[k].path, all[j].path);
    }
  }
}
