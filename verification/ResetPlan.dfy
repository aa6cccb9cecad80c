/** Which tables an end-to-end reset keeps, and why truncating the rest cannot reach them. */
module ResetPlan {
  import opened Ranking

  /** A foreign key of `child` that references `parent`. */
  datatype Edge = Edge(child: string, parent: string)

  /** A kept table's references are kept. */
  ghost predicate Closed(tables: set<string>, edges: seq<Edge>) {
    forall i :: 0 <= i < |edges| && edges[i].child in tables ==> edges[i].parent in tables
  }

  function Parents(edges: seq<Edge>): set<string> {
    set i | 0 <= i < |edges| :: edges[i].parent
  }

  /** The least set that holds the seeded tables and is closed under references. */
  method Preserved(seeded: set<string>, edges: seq<Edge>) returns (preserve: set<string>)
    ensures seeded <= preserve && Closed(preserve, edges)
    ensures forall other :: seeded <= other && Closed(other, edges) ==> preserve <= other
  {
    preserve := seeded;
    var changed := true;
    while changed
      invariant seeded <= preserve
      invariant !changed ==> Closed(preserve, edges)
      invariant forall other :: seeded <= other && Closed(other, edges) ==> preserve <= other
      decreases |Parents(edges) - preserve|, changed
    {
      changed := false;
      ghost var before := preserve;
      for i := 0 to |edges|
        invariant before <= preserve && seeded <= preserve
        invariant !changed ==> preserve == before
        invariant !changed ==> forall j :: 0 <= j < i && edges[j].child in preserve ==> edges[j].parent in preserve
        invariant changed ==> |Parents(edges) - preserve| < |Parents(edges) - before|
        invariant forall other :: seeded <= other && Closed(other, edges) ==> preserve <= other
      {
        var Edge(child, parent) := edges[i];
        if child in preserve && parent !in preserve {
          FewerLeft(Parents(edges), before, preserve, parent);
          preserve := preserve + {parent};
          changed := true;
        }
      }
    }
  }

  lemma FewerLeft(all: set<string>, before: set<string>, preserve: set<string>, parent: string)
    requires before <= preserve && parent in all && parent !in preserve
    ensures |all - (preserve + {parent})| < |all - before|
  {
    SmallerSet(all - (preserve + {parent}), all - before, parent);
  }

  /** The tables that are not kept, in the order they are listed. */
  function NotKept(tables: seq<string>, preserve: set<string>): (rest: seq<string>)
    ensures forall t :: t in rest <==> t in tables && t !in preserve
  {
    if tables == [] then []
    else
      var before, last := NotKept(tables[..|tables| - 1], preserve), tables[|tables| - 1];
      if last in preserve then before else before + [last]
  }

  method TruncateTargets(tables: seq<string>, preserve: set<string>) returns (targets: seq<string>)
    ensures targets == NotKept(tables, preserve)
  {
    targets := [];
    for i := 0 to |tables|
      invariant targets == NotKept(tables[..i], preserve)
    {
      assert tables[..i + 1][..i] == tables[..i];
      if tables[i] !in preserve { targets := targets + [tables[i]]; }
    }
    assert tables[..|tables|] == tables;
  }

  // ----- CASCADE -----

  ghost predicate IsEdge(edges: seq<Edge>, child: string, parent: string) {
    exists i :: 0 <= i < |edges| && edges[i] == Edge(child, parent)
  }

  /** Truncating `path[0]` truncates, table by table, what references it. */
  ghost predicate CascadePath(edges: seq<Edge>, path: seq<string>) {
    |path| > 0 && forall i :: 0 <= i < |path| - 1 ==> IsEdge(edges, path[i + 1], path[i])
  }

  ghost predicate Emptied(edges: seq<Edge>, targets: seq<string>, table: string) {
    exists path :: CascadePath(edges, path) && path[0] in targets && path[|path| - 1] == table
  }

  lemma {:induction false} PathStaysOutside(edges: seq<Edge>, preserve: set<string>, path: seq<string>)
    requires Closed(preserve, edges) && CascadePath(edges, path) && path[0] !in preserve
    ensures path[|path| - 1] !in preserve
    decreases |path|
  {
    if |path| > 1 {
      assert IsEdge(edges, path[1], path[0]);
      assert CascadePath(edges, path[1..]) by {
        forall i | 0 <= i < |path[1..]| - 1 ensures IsEdge(edges, path[1..][i + 1], path[1..][i]) {
          assert IsEdge(edges, path[i + 2], path[i + 1]);
        }
      }
      PathStaysOutside(edges, preserve, path[1..]);
    }
  }

  /** `TRUNCATE ... CASCADE` empties every table that is not kept, and no table that is. */
  lemma CascadeEmptiesExactlyTheRest(
    edges: seq<Edge>, tables: seq<string>, preserve: set<string>, targets: seq<string>, table: string)
    requires Closed(preserve, edges) && table in tables
    requires forall t :: t in targets <==> t in tables && t !in preserve
    ensures Emptied(edges, targets, table) <==> table !in preserve
  {
    if table !in preserve {
      assert CascadePath(edges, [table]) && [table][0] in targets;
    }
    if Emptied(edges, targets, table) {
      var path :| CascadePath(edges, path) && path[0] in targets && path[|path| - 1] == table;
      PathStaysOutside(edges, preserve, path);
    }
  }

  // ----- why the closure is needed -----

  /** Keeping only the seeded tables would let a cascade empty one of them. */
  lemma SeededAloneIsNotSafe()
    ensures
      var edges, tables, seeded := [Edge("users", "teams")], ["teams", "users"], {"users"};
      && (forall t :: t in ["teams"] <==> t in tables && t !in seeded)
      && "users" in seeded && Emptied(edges, ["teams"], "users")
  {
    var edges := [Edge("users", "teams")];
    assert edges[0] == Edge("users", "teams");
    assert IsEdge(edges, "users", "teams");
    assert CascadePath(edges, ["teams", "users"]);
  }
}
