/**
 * Path resolution: the depth-first enumeration of every migration chain
 * from the current state to a target state (findPaths). An absent id stands
 * for "resource does not exist", and two absent ids count as equal.
 *
 * The enumeration is parameterised by the test that selects the migrations
 * leaving the frontier. `Intended` compares the migration's fromStateId
 * with the frontier by value. `AsWritten` is what both copies of findPaths
 * compute: their test for a present fromStateId compares an Optional with a
 * UUID through equals, which never holds, so only migrations from "does not
 * exist" are ever followed.
 */
module Paths {
  import opened Wrappers
  import opened Model
  import opened Lookup

  /** Every migration names a toStateId, and that id is a declared state. */
  ghost predicate TargetsDeclared(g: Graph) {
    forall m :: m in g.migrations ==> m.toStateId.Some? && Declared(g.states, m.toStateId.value)
  }

  /** `rank` strictly decreases along every migration: the graph has no cycle. */
  ghost predicate Ranked(g: Graph, rank: map<Option<Uuid>, nat>) {
    forall m :: m in g.migrations ==>
      m.fromStateId in rank && m.toStateId in rank && rank[m.toStateId] < rank[m.fromStateId]
  }

  /** What findPaths needs of a resource so that it neither crashes nor runs forever. */
  ghost predicate WellFormed(g: Graph, rank: map<Option<Uuid>, nat>) {
    TargetsDeclared(g) && Ranked(g, rank)
  }

  /** The state findPaths moves to after `m` is the one m's toStateId names. */
  lemma NextIsToState(g: Graph, m: Migration)
    requires TargetsDeclared(g) && m in g.migrations
    ensures m.toStateId.Some? && FirstWithId(g.states, m.toStateId.value).Some?
    ensures m.toStateId == Some(FirstWithId(g.states, m.toStateId.value).value.stateId)
  {
    var k :| 0 <= k < |g.states| && g.states[k].stateId == m.toStateId.value;
  }

  /** The termination measure of the search from `frontier`. */
  ghost function Height(rank: map<Option<Uuid>, nat>, frontier: Option<Uuid>): nat {
    if frontier in rank then rank[frontier] else 0
  }

  /** Which filter findPaths applies to the migrations leaving the frontier. */
  datatype Filter = AsWritten | Intended

  /** Whether the search follows `m` out of `frontier`. */
  predicate Leaves(filter: Filter, m: Migration, frontier: Option<Uuid>) {
    match filter
    case AsWritten => m.fromStateId.None? && frontier.None?
    case Intended => m.fromStateId == frontier
  }

  /**
   * The paths findPaths records, in order, when called with the prefix
   * `prefix` at `frontier`: the prefix itself once the frontier is the
   * target, otherwise the paths through each leaving migration in
   * declaration order. The search moves on to the migration's toStateId;
   * findPaths moves to the id of the state it looks up by that id, which
   * is the same id (NextIsToState).
   */
  ghost function Explore(g: Graph, rank: map<Option<Uuid>, nat>, filter: Filter,
                         prefix: Path, frontier: Option<Uuid>, target: Option<Uuid>): seq<Path>
    requires Ranked(g, rank)
    decreases Height(rank, frontier), 1, 0
  {
    if frontier == target then [prefix]
    else Branches(g, rank, filter, prefix, frontier, target, |g.migrations|)
  }

  /** The paths through the leaving migrations among the first `n` declared ones. */
  ghost function Branches(g: Graph, rank: map<Option<Uuid>, nat>, filter: Filter,
                          prefix: Path, frontier: Option<Uuid>, target: Option<Uuid>, n: nat): seq<Path>
    requires Ranked(g, rank)
    requires n <= |g.migrations|
    decreases Height(rank, frontier), 0, n
  {
    if n == 0 then []
    else
      var m := g.migrations[n - 1];
      Branches(g, rank, filter, prefix, frontier, target, n - 1) +
      (if Leaves(filter, m, frontier) then Explore(g, rank, filter, prefix + [m], m.toStateId, target) else [])
  }

  /** The paths migrate chooses from: the search from the current state with an empty prefix. */
  ghost function PathsBetween(g: Graph, rank: map<Option<Uuid>, nat>, from: Option<Uuid>, target: Option<Uuid>): seq<Path>
    requires Ranked(g, rank)
  {
    Explore(g, rank, Intended, [], from, target)
  }

  /**
   * `p` leads from `from` to `target` along declared migrations, each one
   * leaving the id the previous one reached, and reaches the target only at
   * its end (the search stops there).
   */
  ghost predicate IsRoute(g: Graph, p: Path, from: Option<Uuid>, target: Option<Uuid>)
    decreases |p|
  {
    if p == [] then from == target
    else
      && from != target
      && p[0] in g.migrations
      && p[0].fromStateId == from
      && IsRoute(g, p[1..], p[0].toStateId, target)
  }

  /** The same connectedness, stated position by position. */
  ghost predicate IsChain(g: Graph, p: Path, from: Option<Uuid>, target: Option<Uuid>) {
    && (p == [] ==> from == target)
    && (p != [] ==> p[0].fromStateId == from && p[|p| - 1].toStateId == target)
    && (forall i :: 0 < i < |p| ==> p[i].fromStateId == p[i - 1].toStateId)
    && (forall i :: 0 <= i < |p| ==> p[i] in g.migrations && p[i].fromStateId != target)
  }

  /** A route is a connected chain of declared migrations, and conversely. */
  lemma {:induction false} RouteIffChain(g: Graph, p: Path, from: Option<Uuid>, target: Option<Uuid>)
    ensures IsRoute(g, p, from, target) <==> IsChain(g, p, from, target)
    decreases |p|
  {
    if p != [] {
      RouteIffChain(g, p[1..], p[0].toStateId, target);
      if IsChain(g, p, from, target) {
        assert IsChain(g, p[1..], p[0].toStateId, target) by {
          forall i | 0 < i < |p[1..]| ensures p[1..][i].fromStateId == p[1..][i - 1].toStateId {
            assert p[1..][i] == p[i + 1];
          }
        }
      }
    }
  }

  /** Every path recorded below `prefix` extends it with a route from the frontier to the target. */
  lemma {:induction false} ExploreSound(g: Graph, rank: map<Option<Uuid>, nat>, filter: Filter,
                                        prefix: Path, frontier: Option<Uuid>, target: Option<Uuid>)
    requires Ranked(g, rank)
    ensures forall p :: p in Explore(g, rank, filter, prefix, frontier, target) ==>
      |prefix| <= |p| && p[..|prefix|] == prefix && IsRoute(g, p[|prefix|..], frontier, target)
    decreases Height(rank, frontier), 1, 0
  {
    if frontier != target {
      BranchesSound(g, rank, filter, prefix, frontier, target, |g.migrations|);
    }
  }

  lemma {:induction false} BranchesSound(g: Graph, rank: map<Option<Uuid>, nat>, filter: Filter,
                                         prefix: Path, frontier: Option<Uuid>, target: Option<Uuid>, n: nat)
    requires Ranked(g, rank)
    requires n <= |g.migrations|
    requires frontier != target
    ensures forall p :: p in Branches(g, rank, filter, prefix, frontier, target, n) ==>
      |prefix| < |p| && p[..|prefix|] == prefix && IsRoute(g, p[|prefix|..], frontier, target)
    decreases Height(rank, frontier), 0, n
  {
    if n > 0 {
      BranchesSound(g, rank, filter, prefix, frontier, target, n - 1);
      var m := g.migrations[n - 1];
      if Leaves(filter, m, frontier) {
        ExploreSound(g, rank, filter, prefix + [m], m.toStateId, target);
        forall p | p in Explore(g, rank, filter, prefix + [m], m.toStateId, target)
          ensures |prefix| < |p| && p[..|prefix|] == prefix && IsRoute(g, p[|prefix|..], frontier, target)
        {
          RouteThrough(g, prefix, m, p, frontier, target);
        }
      }
    }
  }

  /** A route below `prefix + [m]` is, below `prefix`, a route that starts with `m`. */
  lemma RouteThrough(g: Graph, prefix: Path, m: Migration, p: Path, frontier: Option<Uuid>, target: Option<Uuid>)
    requires frontier != target && m in g.migrations && m.fromStateId == frontier
    requires |prefix + [m]| <= |p| && p[..|prefix + [m]|] == prefix + [m]
    requires IsRoute(g, p[|prefix + [m]|..], m.toStateId, target)
    ensures |prefix| < |p| && p[..|prefix|] == prefix && IsRoute(g, p[|prefix|..], frontier, target)
  {
    var k := |prefix|;
    assert p[..k] == p[..k + 1][..k];
    assert p[k..][0] == p[..k + 1][k];
    assert p[k..][1..] == p[k + 1..];
  }

  /** Every route from the frontier to the target is recorded (below `prefix`). */
  lemma {:induction false} ExploreComplete(g: Graph, rank: map<Option<Uuid>, nat>,
                                           prefix: Path, frontier: Option<Uuid>, target: Option<Uuid>, q: Path)
    requires Ranked(g, rank)
    requires IsRoute(g, q, frontier, target)
    ensures prefix + q in Explore(g, rank, Intended, prefix, frontier, target)
    decreases |q|
  {
    if q == [] {
      assert prefix + q == prefix;
    } else {
      var m := q[0];
      var j :| 0 <= j < |g.migrations| && g.migrations[j] == m;
      ExploreComplete(g, rank, prefix + [m], m.toStateId, target, q[1..]);
      assert prefix + q == (prefix + [m]) + q[1..];
      BranchesInclude(g, rank, prefix, frontier, target, j, |g.migrations|, prefix + q);
    }
  }

  /** Branches only grow as more migrations are considered. */
  lemma {:induction false} BranchesInclude(g: Graph, rank: map<Option<Uuid>, nat>,
                                           prefix: Path, frontier: Option<Uuid>, target: Option<Uuid>,
                                           j: nat, n: nat, p: Path)
    requires Ranked(g, rank)
    requires j < n <= |g.migrations|
    requires Leaves(Intended, g.migrations[j], frontier)
    requires p in Explore(g, rank, Intended, prefix + [g.migrations[j]], g.migrations[j].toStateId, target)
    ensures p in Branches(g, rank, Intended, prefix, frontier, target, n)
    decreases n
  {
    if j < n - 1 {
      BranchesInclude(g, rank, prefix, frontier, target, j, n - 1, p);
    }
  }

  /** The paths findPaths records are exactly the routes from `from` to `target`. */
  lemma PathsBetweenExactly(g: Graph, rank: map<Option<Uuid>, nat>, from: Option<Uuid>, target: Option<Uuid>, p: Path)
    requires Ranked(g, rank)
    ensures p in PathsBetween(g, rank, from, target) <==> IsRoute(g, p, from, target)
  {
    ExploreSound(g, rank, Intended, [], from, target);
    if IsRoute(g, p, from, target) {
      ExploreComplete(g, rank, [], from, target, p);
      assert [] + p == p;
    }
    if p in PathsBetween(g, rank, from, target) {
      assert p[0..] == p;
    }
  }

  /**
   * The exactly-one-path gate: when one path is found it is the only route;
   * when none is found there is no route at all.
   */
  lemma UniquePathIsOnlyRoute(g: Graph, rank: map<Option<Uuid>, nat>, from: Option<Uuid>, target: Option<Uuid>)
    requires Ranked(g, rank)
    ensures |PathsBetween(g, rank, from, target)| == 1 ==>
      IsRoute(g, PathsBetween(g, rank, from, target)[0], from, target) &&
      forall q :: IsRoute(g, q, from, target) ==> q == PathsBetween(g, rank, from, target)[0]
    ensures |PathsBetween(g, rank, from, target)| == 0 ==> forall q :: !IsRoute(g, q, from, target)
  {
    var paths := PathsBetween(g, rank, from, target);
    forall q | IsRoute(g, q, from, target) ensures q in paths {
      PathsBetweenExactly(g, rank, from, target, q);
    }
    if |paths| == 1 {
      PathsBetweenExactly(g, rank, from, target, paths[0]);
    }
  }

  /** No migration is declared twice. */
  ghost predicate DistinctMigrations(g: Graph) {
    forall i, j :: 0 <= i < j < |g.migrations| ==> g.migrations[i] != g.migrations[j]
  }

  /** No path is recorded twice. */
  ghost predicate NoDuplicates(paths: seq<Path>) {
    forall i, j :: 0 <= i < j < |paths| ==> paths[i] != paths[j]
  }

  /** Two duplicate-free sequences with no path in common concatenate to a duplicate-free one. */
  lemma ConcatNoDuplicates(a: seq<Path>, b: seq<Path>)
    requires NoDuplicates(a) && NoDuplicates(b)
    requires forall p :: p in a ==> p !in b
    ensures NoDuplicates(a + b)
  {
    forall i, j | 0 <= i < j < |a + b| ensures (a + b)[i] != (a + b)[j] {
      if j < |a| {
        assert (a + b)[i] == a[i] && (a + b)[j] == a[j];
      } else if i < |a| {
        assert (a + b)[i] == a[i] && (a + b)[j] == b[j - |a|];
        assert a[i] in a;
      } else {
        assert (a + b)[i] == b[i - |a|] && (a + b)[j] == b[j - |a|];
      }
    }
  }

  lemma FirstTwoDiffer(paths: seq<Path>)
    requires NoDuplicates(paths)
    ensures |paths| <= 1 || paths[0] != paths[1]
  {
  }

  /**
   * When no migration is declared twice, the search records every path at
   * most once: paths through different leaving migrations differ right after
   * the prefix, and paths through the same one differ further on.
   */
  lemma {:induction false} ExploreNoDuplicates(g: Graph, rank: map<Option<Uuid>, nat>, filter: Filter,
                                               prefix: Path, frontier: Option<Uuid>, target: Option<Uuid>)
    requires Ranked(g, rank) && DistinctMigrations(g)
    ensures NoDuplicates(Explore(g, rank, filter, prefix, frontier, target))
    decreases Height(rank, frontier), 1, 0
  {
    if frontier != target {
      BranchesNoDuplicates(g, rank, filter, prefix, frontier, target, |g.migrations|);
    }
  }

  lemma {:induction false} BranchesNoDuplicates(g: Graph, rank: map<Option<Uuid>, nat>, filter: Filter,
                                                prefix: Path, frontier: Option<Uuid>, target: Option<Uuid>, n: nat)
    requires Ranked(g, rank) && DistinctMigrations(g)
    requires n <= |g.migrations|
    requires frontier != target
    ensures NoDuplicates(Branches(g, rank, filter, prefix, frontier, target, n))
    decreases Height(rank, frontier), 0, n
  {
    if n > 0 {
      var m := g.migrations[n - 1];
      var earlier := Branches(g, rank, filter, prefix, frontier, target, n - 1);
      BranchesNoDuplicates(g, rank, filter, prefix, frontier, target, n - 1);
      if Leaves(filter, m, frontier) {
        var later := Explore(g, rank, filter, prefix + [m], m.toStateId, target);
        ExploreNoDuplicates(g, rank, filter, prefix + [m], m.toStateId, target);
        ExploreSound(g, rank, filter, prefix + [m], m.toStateId, target);
        BranchesFirstStep(g, rank, filter, prefix, frontier, target, n - 1);
        forall p | p in later ensures p !in earlier && p[|prefix|] == m {
          assert p[|prefix|] == p[..|prefix| + 1][|prefix|];
        }
        ConcatNoDuplicates(earlier, later);
      } else {
        assert Branches(g, rank, filter, prefix, frontier, target, n) == earlier + [];
      }
    }
  }

  /**
   * The converse of the gate: when no migration is declared twice and
   * exactly one route leads from `from` to `target`, the search records
   * exactly that route, once.
   */
  lemma UniqueRouteIsFound(g: Graph, rank: map<Option<Uuid>, nat>, from: Option<Uuid>, target: Option<Uuid>, q: Path)
    requires Ranked(g, rank) && DistinctMigrations(g)
    requires IsRoute(g, q, from, target)
    requires forall q' :: IsRoute(g, q', from, target) ==> q' == q
    ensures PathsBetween(g, rank, from, target) == [q]
  {
    var paths := PathsBetween(g, rank, from, target);
    ExploreNoDuplicates(g, rank, Intended, [], from, target);
    PathsBetweenExactly(g, rank, from, target, q);
    forall i | 0 <= i < |paths| ensures paths[i] == q {
      PathsBetweenExactly(g, rank, from, target, paths[i]);
    }
    assert q in paths;
    FirstTwoDiffer(paths);
  }

  /** Once the frontier is the target the search records the prefix and explores no migration. */
  lemma AtTargetRecordsPrefix(g: Graph, rank: map<Option<Uuid>, nat>, filter: Filter, prefix: Path, id: Option<Uuid>)
    requires Ranked(g, rank)
    ensures Explore(g, rank, filter, prefix, id, id) == [prefix]
    ensures PathsBetween(g, rank, None, None) == [[]]
  {
  }

  /**
   * Branches are explored in declaration order: the paths found through the
   * first `k` migrations come before those found through later ones.
   */
  lemma {:induction false} BranchesInDeclarationOrder(g: Graph, rank: map<Option<Uuid>, nat>, filter: Filter,
                                                      prefix: Path, frontier: Option<Uuid>, target: Option<Uuid>,
                                                      k: nat, n: nat)
    requires Ranked(g, rank)
    requires k <= n <= |g.migrations|
    ensures Branches(g, rank, filter, prefix, frontier, target, k) <= Branches(g, rank, filter, prefix, frontier, target, n)
    decreases n
  {
    if k < n {
      BranchesInDeclarationOrder(g, rank, filter, prefix, frontier, target, k, n - 1);
    }
  }

  /** Each path found through the first `k` migrations continues the prefix with one of them. */
  lemma {:induction false} BranchesFirstStep(g: Graph, rank: map<Option<Uuid>, nat>, filter: Filter,
                                             prefix: Path, frontier: Option<Uuid>, target: Option<Uuid>, k: nat)
    requires Ranked(g, rank)
    requires k <= |g.migrations|
    requires frontier != target
    ensures forall p :: p in Branches(g, rank, filter, prefix, frontier, target, k) ==>
      |prefix| < |p| && exists j :: 0 <= j < k && p[|prefix|] == g.migrations[j]
  {
    if k > 0 {
      BranchesFirstStep(g, rank, filter, prefix, frontier, target, k - 1);
      var m := g.migrations[k - 1];
      if Leaves(filter, m, frontier) {
        ExploreSound(g, rank, filter, prefix + [m], m.toStateId, target);
        forall p | p in Explore(g, rank, filter, prefix + [m], m.toStateId, target)
          ensures |prefix| < |p| && p[|prefix|] == m
        {
          assert p[|prefix|] == p[..|prefix| + 1][|prefix|];
        }
      }
    }
  }

  /**
   * As written, findPaths records no path longer than one migration, and a
   * one-migration path only when the search starts from "does not exist".
   */
  lemma {:induction false} AsWrittenAtMostOneStep(g: Graph, rank: map<Option<Uuid>, nat>,
                                                  prefix: Path, frontier: Option<Uuid>, target: Option<Uuid>)
    requires Ranked(g, rank)
    ensures forall p :: p in Explore(g, rank, AsWritten, prefix, frontier, target) ==>
      |p| <= |prefix| + (if frontier.None? then 1 else 0)
    decreases Height(rank, frontier), 1, 0
  {
    if frontier != target {
      AsWrittenBranches(g, rank, prefix, frontier, target, |g.migrations|);
    }
  }

  lemma {:induction false} AsWrittenBranches(g: Graph, rank: map<Option<Uuid>, nat>,
                                             prefix: Path, frontier: Option<Uuid>, target: Option<Uuid>, n: nat)
    requires Ranked(g, rank)
    requires n <= |g.migrations|
    ensures forall p :: p in Branches(g, rank, AsWritten, prefix, frontier, target, n) ==>
      frontier.None? && |p| <= |prefix| + 1
    decreases Height(rank, frontier), 0, n
  {
    if n > 0 {
      AsWrittenBranches(g, rank, prefix, frontier, target, n - 1);
      var m := g.migrations[n - 1];
      if Leaves(AsWritten, m, frontier) {
        AsWrittenAtMostOneStep(g, rank, prefix + [m], m.toStateId, target);
      }
    }
  }

  /** Every migration on a recorded path is declared and leads to a declared state. */
  lemma RecordedPathsAreDeclared(g: Graph, rank: map<Option<Uuid>, nat>, from: Option<Uuid>, target: Option<Uuid>)
    requires WellFormed(g, rank)
    ensures forall p: Path, i :: p in PathsBetween(g, rank, from, target) && 0 <= i < |p| ==>
      p[i] in g.migrations && p[i].toStateId.Some? && Declared(g.states, p[i].toStateId.value)
  {
    forall p | p in PathsBetween(g, rank, from, target)
      ensures forall i :: 0 <= i < |p| ==> p[i] in g.migrations
    {
      PathsBetweenExactly(g, rank, from, target, p);
      RouteIffChain(g, p, from, target);
    }
  }
}
