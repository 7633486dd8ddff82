/**
 Every table that belongs to one agent: the seeds, and whatever reaches one of them through
 its foreign keys, found by sweeping the tables until a sweep finds nothing new.
 */
module PerAgentTables {

  type Table = string

  /** A schema: the tables in iteration order, the foreign-key parents of each, and which are seeds. */
  datatype Schema = Schema(tables: seq<Table>, parents: map<Table, seq<Table>>, seeds: set<Table>)

  predicate WellFormed(s: Schema) {
    forall t :: t in s.tables ==> t in s.parents
  }

  /** Every step of the path follows a foreign key, and the path ends at a seed among the tables. */
  ghost predicate ReachesSeed(s: Schema, path: seq<Table>)
    requires WellFormed(s)
  {
    && path != []
    && (forall i :: 0 <= i < |path| ==> path[i] in s.tables)
    && (forall i :: 0 <= i < |path| - 1 ==> path[i + 1] in s.parents[path[i]])
    && path[|path| - 1] in s.seeds
  }

  ghost predicate PerAgent(s: Schema, t: Table)
    requires WellFormed(s)
  {
    exists path :: ReachesSeed(s, path) && path[0] == t
  }

  ghost predicate Closed(s: Schema, found: set<Table>)
    requires WellFormed(s)
  {
    && (forall t :: t in s.tables && t in s.seeds ==> t in found)
    && (forall t, parent :: t in s.tables && parent in s.parents[t] && parent in found ==> t in found)
  }

  lemma {:induction false} PathExtends(s: Schema, t: Table, parent: Table)
    requires WellFormed(s) && t in s.tables && parent in s.parents[t] && PerAgent(s, parent)
    ensures PerAgent(s, t)
  {
    var path :| ReachesSeed(s, path) && path[0] == parent;
    var longer := [t] + path;
    forall i | 0 <= i < |longer| - 1
      ensures longer[i + 1] in s.parents[longer[i]]
    {
      if i > 0 {
        assert path[(i - 1) + 1] in s.parents[path[i - 1]];
      }
    }
    assert ReachesSeed(s, longer);
  }

  lemma {:induction false} ClosedHasPaths(s: Schema, found: set<Table>, path: seq<Table>)
    requires WellFormed(s) && Closed(s, found) && ReachesSeed(s, path)
    ensures path[0] in found
    decreases |path|
  {
    if |path| > 1 {
      assert ReachesSeed(s, path[1..]) by {
        assert forall i {:trigger path[1..][i]} :: 0 <= i < |path| - 1 ==> path[1..][i] == path[i + 1];
      }
      ClosedHasPaths(s, found, path[1..]);
      assert path[0 + 1] in s.parents[path[0]];
    }
  }

  /** Being per-agent is the least property the seeds have and foreign keys pass on. */
  lemma {:induction false} PerAgentIsLeast(s: Schema, found: set<Table>)
    requires WellFormed(s) && Closed(s, found)
    ensures forall t :: PerAgent(s, t) ==> t in found
  {
    forall t | PerAgent(s, t)
      ensures t in found
    {
      var path :| ReachesSeed(s, path) && path[0] == t;
      ClosedHasPaths(s, found, path);
    }
  }

  method FindSeeds(s: Schema) returns (found: set<Table>)
    requires WellFormed(s)
    ensures forall t :: t in found <==> t in s.tables && t in s.seeds
  {
    found := {};
    for i := 0 to |s.tables|
      invariant forall t :: t in found <==> t in s.tables[..i] && t in s.seeds
    {
      assert s.tables[..i + 1] == s.tables[..i] + [s.tables[i]];
      if s.tables[i] in s.seeds {
        found := found + {s.tables[i]};
      }
    }
    assert s.tables[..|s.tables|] == s.tables;
  }

  predicate HasParentIn(parents: seq<Table>, found: set<Table>) {
    exists i :: 0 <= i < |parents| && parents[i] in found
  }

  /** One sweep: a table found early in it already counts for those after it. */
  method Sweep(s: Schema, before: set<Table>) returns (found: set<Table>, grew: bool)
    requires WellFormed(s)
    requires forall t :: t in before ==> t in s.tables && PerAgent(s, t)
    ensures before <= found
    ensures forall t :: t in found ==> t in s.tables && PerAgent(s, t)
    ensures grew <==> found != before
    ensures !grew ==> forall t :: t in s.tables && t !in found ==> !HasParentIn(s.parents[t], found)
  {
    found, grew := before, false;
    for i := 0 to |s.tables|
      invariant before <= found
      invariant forall t :: t in found ==> t in s.tables && PerAgent(s, t)
      invariant grew <==> found != before
      invariant !grew ==> forall j :: 0 <= j < i && s.tables[j] !in found ==> !HasParentIn(s.parents[s.tables[j]], found)
    {
      var t := s.tables[i];
      if t !in found && HasParentIn(s.parents[t], found) {
        var k :| 0 <= k < |s.parents[t]| && s.parents[t][k] in found;
        PathExtends(s, t, s.parents[t][k]);
        found, grew := found + {t}, true;
      }
    }
  }

  method PerAgentTables(s: Schema) returns (found: set<Table>)
    requires WellFormed(s)
    ensures forall t :: t in found <==> PerAgent(s, t)
    ensures Closed(s, found)
  {
    found := FindSeeds(s);
    ghost var all := set t | t in s.tables;
    forall t | t in found
      ensures PerAgent(s, t)
    {
      assert ReachesSeed(s, [t]);
    }
    var grew := true;
    while grew
      invariant forall t :: t in s.tables && t in s.seeds ==> t in found
      invariant forall t :: t in found ==> t in s.tables && PerAgent(s, t)
      invariant !grew ==> forall t :: t in s.tables && t !in found ==> !HasParentIn(s.parents[t], found)
      decreases all - found, if grew then 1 else 0
    {
      ghost var was := found;
      found, grew := Sweep(s, found);
      if grew {
        assert exists t :: t in found && t !in was;
        assert found <= all;
      }
    }
    forall t, parent | t in s.tables && parent in s.parents[t] && parent in found
      ensures t in found
    {
      var k :| 0 <= k < |s.parents[t]| && s.parents[t][k] == parent;
      assert HasParentIn(s.parents[t], found);
    }
    PerAgentIsLeast(s, found);
  }
}
