/**
  Memory consolidation, `internal/pond/memory/consolidator.go`.

  The `memories` table is a map from id to row.  Ids are UUIDs and only their order matters, so
  they are numbers here; importance is a real number.  The embeddings appear only through the
  list of id pairs whose similarity exceeds the threshold, in descending order of similarity.
*/
module Consolidator {
  import opened Common

  type Id = nat

  datatype Memory = Memory(agent: nat, kind: string, importance: real, access: nat, age: real)

  type Table = map<Id, Memory>

  /** One row of the similarity query: the values of both memories as they were when it ran. */
  datatype Pair = Pair(id1: Id, id2: Id, importance1: real, importance2: real, access1: nat, access2: nat)

  /** A merge that was carried out: `drop` was deleted in favour of `keep`. */
  datatype Merge = Merge(keep: Id, drop: Id)

  const PAIR_LIMIT := 50

  function Score(importance: real, access: nat): real {
    importance * (access + 1) as real
  }

  function RowScore(row: Memory): real {
    Score(row.importance, row.access)
  }

  /** Importance plus the 0.05 boost, at most 1. */
  function Raise(importance: real): real {
    if importance + 0.05 > 1.0 then 1.0 else importance + 0.05
  }

  // ---------------------------------------------------------------- the similarity query

  predicate Joins(rows: Table, agent: nat, a: Id, b: Id) {
    && a < b
    && a in rows && b in rows
    && rows[a].agent == agent == rows[b].agent
    && rows[a].kind == rows[b].kind
  }

  function PairOf(rows: Table, a: Id, b: Id): Pair
    requires a in rows && b in rows
  {
    Pair(a, b, rows[a].importance, rows[b].importance, rows[a].access, rows[b].access)
  }

  /** The rows of the query: the close pairs that join, in the order of their similarity. */
  function Join(rows: Table, agent: nat, close: seq<(Id, Id)>): (pairs: seq<Pair>)
    ensures FetchedFrom(pairs, rows, agent)
  {
    if close == [] then []
    else
      var (a, b) := close[0];
      var rest := Join(rows, agent, close[1..]);
      if Joins(rows, agent, a, b) then [PairOf(rows, a, b)] + rest else rest
  }

  /** The query returns exactly the close pairs that join. */
  lemma {:induction false} JoinIsExact(rows: Table, agent: nat, close: seq<(Id, Id)>, p: Pair)
    ensures p in Join(rows, agent, close) <==>
      (p.id1, p.id2) in close && Joins(rows, agent, p.id1, p.id2) && p == PairOf(rows, p.id1, p.id2)
  {
    if close == [] {
    } else {
      var (a, b) := close[0];
      JoinIsExact(rows, agent, close[1..], p);
      assert (p.id1, p.id2) in close <==> (p.id1, p.id2) == (a, b) || (p.id1, p.id2) in close[1..];
    }
  }

  function Fetch(rows: Table, agent: nat, close: seq<(Id, Id)>): (pairs: seq<Pair>)
    ensures FetchedFrom(pairs, rows, agent) && |pairs| <= PAIR_LIMIT
  {
    var all := Join(rows, agent, close);
    if |all| > PAIR_LIMIT then all[..PAIR_LIMIT] else all
  }

  /** The close pairs come in descending order of similarity. */
  predicate Descending(close: seq<(Id, Id)>, similarity: (Id, Id) -> real) {
    forall i, j | 0 <= i < j < |close| :: similarity(close[i].0, close[i].1) >= similarity(close[j].0, close[j].1)
  }

  function Similarity(p: Pair, similarity: (Id, Id) -> real): real {
    similarity(p.id1, p.id2)
  }

  predicate PairsDescend(pairs: seq<Pair>, similarity: (Id, Id) -> real) {
    forall i, j | 0 <= i < j < |pairs| :: Similarity(pairs[i], similarity) >= Similarity(pairs[j], similarity)
  }

  lemma MostSimilarInFront(first: Pair, rest: seq<Pair>, similarity: (Id, Id) -> real)
    requires PairsDescend(rest, similarity)
    requires forall p | p in rest :: Similarity(first, similarity) >= Similarity(p, similarity)
    ensures PairsDescend([first] + rest, similarity)
  {
  }

  lemma {:induction false} JoinIsDescending(rows: Table, agent: nat, close: seq<(Id, Id)>, similarity: (Id, Id) -> real)
    requires Descending(close, similarity)
    ensures PairsDescend(Join(rows, agent, close), similarity)
  {
    if close == [] {
    } else {
      var rest := Join(rows, agent, close[1..]);
      JoinIsDescending(rows, agent, close[1..], similarity);
      var (a, b) := close[0];
      if Joins(rows, agent, a, b) {
        forall p | p in rest ensures similarity(a, b) >= Similarity(p, similarity) {
          JoinIsExact(rows, agent, close[1..], p);
          var k :| 0 <= k < |close[1..]| && close[1..][k] == (p.id1, p.id2);
          assert close[k + 1] == (p.id1, p.id2);
        }
        MostSimilarInFront(PairOf(rows, a, b), rest, similarity);
      }
    }
  }

  /** All pairs that join are fetched if they are at most 50; otherwise the 50 fetched are the most similar ones. */
  lemma FetchKeepsMostSimilar(rows: Table, agent: nat, close: seq<(Id, Id)>, similarity: (Id, Id) -> real)
    requires Descending(close, similarity)
    ensures var all, fetched := Join(rows, agent, close), Fetch(rows, agent, close);
      && fetched == all[..if |all| <= 50 then |all| else 50]
      && forall p, q | p in fetched && q in all[|fetched|..] :: Similarity(p, similarity) >= Similarity(q, similarity)
  {
    JoinIsDescending(rows, agent, close, similarity);
    var all := Join(rows, agent, close);
    var n := if |all| <= PAIR_LIMIT then |all| else PAIR_LIMIT;
    assert all[..|all|] == all;
    FrontIsMostSimilar(all, similarity, n);
  }

  lemma FrontIsMostSimilar(all: seq<Pair>, similarity: (Id, Id) -> real, n: nat)
    requires PairsDescend(all, similarity) && n <= |all|
    ensures forall p, q | p in all[..n] && q in all[n..] :: Similarity(p, similarity) >= Similarity(q, similarity)
  {
    forall p, q | p in all[..n] && q in all[n..] ensures Similarity(p, similarity) >= Similarity(q, similarity) {
      var i :| 0 <= i < n && all[i] == p;
      var j :| n <= j < |all| && all[j] == q;
    }
  }

  /** Every pair carries the values its two memories have in `rows`. */
  ghost predicate FetchedFrom(pairs: seq<Pair>, rows: Table, agent: nat) {
    forall p | p in pairs ::
      && Joins(rows, agent, p.id1, p.id2)
      && p.importance1 == rows[p.id1].importance && p.access1 == rows[p.id1].access
      && p.importance2 == rows[p.id2].importance && p.access2 == rows[p.id2].access
  }

  // ---------------------------------------------------------------- merging, as a function

  predicate SecondWins(p: Pair) {
    Score(p.importance2, p.access2) > Score(p.importance1, p.access1)
  }

  function Decide(p: Pair): Merge {
    if SecondWins(p) then Merge(p.id2, p.id1) else Merge(p.id1, p.id2)
  }

  function Dropped(merges: seq<Merge>): set<Id> {
    set m | m in merges :: m.drop
  }

  /** The merges carried out for `pairs`: a pair with a deleted member is skipped. */
  function Executed(pairs: seq<Pair>): seq<Merge> {
    if pairs == [] then []
    else
      var merges, p := Executed(pairs[..|pairs| - 1]), pairs[|pairs| - 1];
      if p.id1 in Dropped(merges) || p.id2 in Dropped(merges) then merges else merges + [Decide(p)]
  }

  /** `UPDATE` of the kept row, then `DELETE` of the other one. */
  function MergeRows(rows: Table, p: Pair): Table {
    var Merge(keep, drop) := Decide(p);
    var importance := Raise(if SecondWins(p) then p.importance2 else p.importance1);
    var updated := if keep in rows
                   then rows[keep := rows[keep].(access := p.access1 + p.access2, importance := importance)]
                   else rows;
    updated - {drop}
  }

  /** The table after the loop over `pairs`. */
  function Merged(rows: Table, pairs: seq<Pair>): Table {
    if pairs == [] then rows
    else
      var before, p := pairs[..|pairs| - 1], pairs[|pairs| - 1];
      var dropped := Dropped(Executed(before));
      if p.id1 in dropped || p.id2 in dropped then Merged(rows, before)
      else MergeRows(Merged(rows, before), p)
  }

  // ---------------------------------------------------------------- the order and the graph

  /** Higher score first, then smaller id. */
  predicate Beats(rows: Table, a: Id, b: Id)
    requires a in rows && b in rows
  {
    RowScore(rows[a]) > RowScore(rows[b]) || (RowScore(rows[a]) == RowScore(rows[b]) && a < b)
  }

  ghost predicate Adjacent(pairs: seq<Pair>, a: Id, b: Id) {
    exists p :: p in pairs && ((p.id1 == a && p.id2 == b) || (p.id1 == b && p.id2 == a))
  }

  /** A walk along fetched pairs. */
  ghost predicate Walk(pairs: seq<Pair>, path: seq<Id>) {
    && path != []
    && forall i | 0 <= i < |path| - 1 :: Adjacent(pairs, path[i], path[i + 1])
  }

  ghost predicate Connected(pairs: seq<Pair>, a: Id, b: Id) {
    exists path :: Walk(pairs, path) && path[0] == a && path[|path| - 1] == b
  }

  /** A walk on which every memory beats the one before it. */
  ghost predicate Climbs(rows: Table, pairs: seq<Pair>, path: seq<Id>) {
    && Walk(pairs, path)
    && (forall i | 0 <= i < |path| :: path[i] in rows)
    && (forall i | 0 <= i < |path| - 1 :: Beats(rows, path[i + 1], path[i]))
  }

  // ---------------------------------------------------------------- which memories survive a merge

  /** Each merge deletes the strictly lower member of a fetched pair. */
  lemma {:induction false} DropIsBeatenByKeep(rows: Table, agent: nat, pairs: seq<Pair>, m: Merge)
    requires FetchedFrom(pairs, rows, agent)
    requires m in Executed(pairs)
    ensures m.keep in rows && m.drop in rows && Beats(rows, m.keep, m.drop) && Adjacent(pairs, m.drop, m.keep)
  {
    var before, p := pairs[..|pairs| - 1], pairs[|pairs| - 1];
    if m in Executed(before) {
      DropIsBeatenByKeep(rows, agent, before, m);
      assert Adjacent(before, m.drop, m.keep);
    } else {
      assert p in pairs && m == Decide(p);
    }
  }

  /** Importance weighted with one more than the accesses, compared. */
  predicate AsValuable(a: Memory, b: Memory) {
    a.importance * (a.access + 1) as real >= b.importance * (b.access + 1) as real
  }

  /**
    Each merge is of two memories of the agent and of one kind, keeps one whose importance times accesses
    plus one is at least the other's, and keeps the smaller id where they are equal.
  */
  lemma KeepIsAsValuable(rows: Table, agent: nat, pairs: seq<Pair>, m: Merge)
    requires FetchedFrom(pairs, rows, agent)
    requires m in Executed(pairs)
    ensures m.keep in rows && m.drop in rows && m.keep != m.drop
    ensures rows[m.keep].agent == agent == rows[m.drop].agent && rows[m.keep].kind == rows[m.drop].kind
    ensures AsValuable(rows[m.keep], rows[m.drop])
    ensures AsValuable(rows[m.drop], rows[m.keep]) ==> m.keep < m.drop
  {
    DropIsBeatenByKeep(rows, agent, pairs, m);
    var p :| p in pairs && ((p.id1 == m.drop && p.id2 == m.keep) || (p.id1 == m.keep && p.id2 == m.drop));
    assert Joins(rows, agent, p.id1, p.id2);
  }

  /** At least as important and as often accessed, and more of one or the other. */
  predicate Outranks(a: Memory, b: Memory) {
    && a.importance >= b.importance > 0.0 && a.access >= b.access
    && (a.importance > b.importance || a.access > b.access)
  }

  lemma OutrankedIsLessValuable(a: Memory, b: Memory)
    requires Outranks(a, b)
    ensures !AsValuable(b, a)
  {
    var m, n := (a.access + 1) as real, (b.access + 1) as real;
    Product(m, b.importance, a.importance);
    Product(b.importance, n, m);
    if a.access > b.access {
      Strictly(b.importance, n, m);
    } else {
      Strictly(m, b.importance, a.importance);
    }
  }

  lemma Strictly(x: real, a: real, b: real)
    requires x > 0.0 && a < b
    ensures x * a < x * b
  {
  }

  /** A memory that outranks another is never deleted for it. */
  lemma OutrankingIsNotDropped(rows: Table, agent: nat, pairs: seq<Pair>, x: Id, y: Id)
    requires FetchedFrom(pairs, rows, agent)
    requires x in rows && y in rows && Outranks(rows[x], rows[y])
    ensures Merge(y, x) !in Executed(pairs)
  {
    if Merge(y, x) in Executed(pairs) {
      KeepIsAsValuable(rows, agent, pairs, Merge(y, x));
      OutrankedIsLessValuable(rows[x], rows[y]);
    }
  }

  /** A deleted memory takes no part in any later merge. */
  lemma {:induction false} DroppedStaysOut(pairs: seq<Pair>)
    ensures var ms := Executed(pairs);
      forall i, j | 0 <= i < j < |ms| :: ms[j].keep != ms[i].drop && ms[j].drop != ms[i].drop
  {
    if pairs == [] {
    } else {
      var before := pairs[..|pairs| - 1];
      DroppedStaysOut(before);
      assert forall i | 0 <= i < |Executed(before)| :: Executed(before)[i].drop in Dropped(Executed(before));
    }
  }

  lemma {:induction false} PrefixIsDropped(pairs: seq<Pair>)
    requires pairs != []
    ensures Dropped(Executed(pairs[..|pairs| - 1])) <= Dropped(Executed(pairs))
  {
  }

  /** No fetched pair has both members left. */
  lemma {:induction false} NoPairSurvives(pairs: seq<Pair>, p: Pair)
    requires p in pairs
    ensures p.id1 in Dropped(Executed(pairs)) || p.id2 in Dropped(Executed(pairs))
  {
    var before, last := pairs[..|pairs| - 1], pairs[|pairs| - 1];
    if p == last {
      if !(p.id1 in Dropped(Executed(before)) || p.id2 in Dropped(Executed(before))) {
        var ms := Executed(pairs);
        assert ms[|ms| - 1] == Decide(p);
      }
    } else {
      assert p in before;
      NoPairSurvives(before, p);
      PrefixIsDropped(pairs);
    }
  }

  /** From every memory a climb along fetched pairs leads to one that is kept. */
  lemma ClimbsToSurvivor(rows: Table, agent: nat, pairs: seq<Pair>, x: Id) returns (path: seq<Id>)
    requires FetchedFrom(pairs, rows, agent) && x in rows
    ensures Climbs(rows, pairs, path) && path[0] == x
    ensures path[|path| - 1] !in Dropped(Executed(pairs))
  {
    var ms := Executed(pairs);
    if x in Dropped(ms) {
      var m :| m in ms && m.drop == x;
      var i :| 0 <= i < |ms| && ms[i] == m;
      path := ClimbFromMerge(rows, agent, pairs, i);
    } else {
      path := [x];
    }
  }

  lemma ClimbFromMerge(rows: Table, agent: nat, pairs: seq<Pair>, i: nat) returns (path: seq<Id>)
    requires FetchedFrom(pairs, rows, agent) && i < |Executed(pairs)|
    ensures Climbs(rows, pairs, path) && path[0] == Executed(pairs)[i].drop
    ensures path[|path| - 1] !in Dropped(Executed(pairs))
    decreases |Executed(pairs)| - i
  {
    var ms := Executed(pairs);
    var m := ms[i];
    DropIsBeatenByKeep(rows, agent, pairs, m);
    if m.keep in Dropped(ms) {
      var j :| 0 <= j < |ms| && ms[j].drop == m.keep;
      DroppedStaysOut(pairs);
      var rest := ClimbFromMerge(rows, agent, pairs, j);
      path := [m.drop] + rest;
      forall k | 0 <= k < |path| - 1
        ensures Adjacent(pairs, path[k], path[k + 1]) && path[k] in rows && Beats(rows, path[k + 1], path[k])
      {
        if k > 0 {
          assert path[k] == rest[k - 1] && path[k + 1] == rest[k];
        }
      }
    } else {
      path := [m.drop, m.keep];
    }
  }

  /** The best memory of a connected component is never deleted. */
  lemma BestOfComponentSurvives(rows: Table, agent: nat, pairs: seq<Pair>, best: Id)
    requires FetchedFrom(pairs, rows, agent) && best in rows
    requires forall y | y in rows && y != best && Connected(pairs, best, y) :: Beats(rows, best, y)
    ensures best !in Dropped(Executed(pairs))
  {
    if best in Dropped(Executed(pairs)) {
      var m :| m in Executed(pairs) && m.drop == best;
      DropIsBeatenByKeep(rows, agent, pairs, m);
      assert Walk(pairs, [best, m.keep]);
      assert Connected(pairs, best, m.keep);
      assert false;
    }
  }

  // ---------------------------------------------------------------- what a merge leaves in the table

  lemma {:induction false} MergedKeys(rows: Table, agent: nat, pairs: seq<Pair>)
    requires FetchedFrom(pairs, rows, agent)
    ensures Merged(rows, pairs).Keys == rows.Keys - Dropped(Executed(pairs))
  {
    if pairs == [] {
    } else {
      var before, p := pairs[..|pairs| - 1], pairs[|pairs| - 1];
      assert p in pairs;
      MergedKeys(rows, agent, before);
    }
  }

  // ---------------------------------------------------------------- access counts

  ghost function TotalAccess(rows: Table): nat {
    if rows == map[] then 0
    else
      var id :| id in rows;
      rows[id].access + TotalAccess(rows - {id})
  }

  lemma {:induction false} TotalWithout(rows: Table, id: Id)
    requires id in rows
    ensures TotalAccess(rows) == rows[id].access + TotalAccess(rows - {id})
    decreases |rows|
  {
    var first :| first in rows && TotalAccess(rows) == rows[first].access + TotalAccess(rows - {first});
    if first != id {
      TotalWithout(rows - {first}, id);
      TotalWithout(rows - {id}, first);
      assert rows - {first} - {id} == rows - {id} - {first};
    }
  }

  /** What `x` holds beyond its own count: the count of the last memory merged into it. */
  function Credit(rows: Table, merges: seq<Merge>, x: Id): nat
    requires forall m | m in merges :: m.drop in rows
  {
    if merges == [] then 0
    else
      var last := merges[|merges| - 1];
      if last.keep == x then rows[last.drop].access else Credit(rows, merges[..|merges| - 1], x)
  }

  /** The counts that merging forgets: each merge overwrites or deletes what its two memories had gained before. */
  function Lost(rows: Table, merges: seq<Merge>): nat
    requires forall m | m in merges :: m.drop in rows
  {
    if merges == [] then 0
    else
      var before, m := merges[..|merges| - 1], merges[|merges| - 1];
      Lost(rows, before) + Credit(rows, before, m.keep) + Credit(rows, before, m.drop)
  }

  lemma MergesAreInTable(rows: Table, agent: nat, pairs: seq<Pair>)
    requires FetchedFrom(pairs, rows, agent)
    ensures forall m | m in Executed(pairs) :: m.drop in rows && m.keep in rows
  {
    forall m | m in Executed(pairs) ensures m.drop in rows && m.keep in rows {
      DropIsBeatenByKeep(rows, agent, pairs, m);
    }
  }

  predicate KeptAnother(merges: seq<Merge>, x: Id) {
    exists m :: m in merges && m.keep == x
  }

  /**
    A surviving row: its own count plus its credit, and its importance raised once exactly if another
    memory was merged into it; all else is untouched.
  */
  lemma {:induction false} SurvivingRow(rows: Table, agent: nat, pairs: seq<Pair>, x: Id)
    requires FetchedFrom(pairs, rows, agent)
    requires x in Merged(rows, pairs)
    ensures x in rows && (forall m | m in Executed(pairs) :: m.drop in rows)
    ensures var row := Merged(rows, pairs)[x];
      && row.access == rows[x].access + Credit(rows, Executed(pairs), x)
      && row.agent == rows[x].agent && row.kind == rows[x].kind && row.age == rows[x].age
      && row.importance == (if !KeptAnother(Executed(pairs), x) then rows[x].importance
                            else if rows[x].importance <= 0.95 then rows[x].importance + 0.05 else 1.0)
      && (rows[x].agent != agent ==> row == rows[x])
  {
    MergedKeys(rows, agent, pairs);
    MergesAreInTable(rows, agent, pairs);
    if pairs == [] {
    } else {
      var before, p := pairs[..|pairs| - 1], pairs[|pairs| - 1];
      assert p in pairs;
      MergedKeys(rows, agent, before);
      SurvivingRow(rows, agent, before, x);
      var ms := Executed(before);
      if !(p.id1 in Dropped(ms) || p.id2 in Dropped(ms)) {
        assert Executed(pairs)[..|ms|] == ms;
        assert forall m :: m in Executed(pairs) <==> m in ms || m == Decide(p);
      }
    }
  }

  /** One merge: the table loses exactly what its two memories had gained. */
  lemma MergeRowsTotal(rows: Table, p: Pair)
    requires p.id1 in rows && p.id2 in rows && p.id1 != p.id2
    ensures TotalAccess(MergeRows(rows, p)) + rows[p.id1].access + rows[p.id2].access
         == TotalAccess(rows) + p.access1 + p.access2
  {
    var Merge(keep, drop) := Decide(p);
    var after := MergeRows(rows, p);
    TotalWithout(rows, drop);
    TotalWithout(rows - {drop}, keep);
    TotalWithout(after, keep);
    assert after - {keep} == rows - {drop} - {keep};
  }

  /** The accounts balance: what the table holds after merging plus what was lost is what it held before. */
  lemma {:induction false} MergeConservesAccess(rows: Table, agent: nat, pairs: seq<Pair>)
    requires FetchedFrom(pairs, rows, agent)
    ensures forall m | m in Executed(pairs) :: m.drop in rows
    ensures TotalAccess(Merged(rows, pairs)) + Lost(rows, Executed(pairs)) == TotalAccess(rows)
  {
    MergesAreInTable(rows, agent, pairs);
    if pairs == [] {
    } else {
      var before, p := pairs[..|pairs| - 1], pairs[|pairs| - 1];
      assert p in pairs;
      MergeConservesAccess(rows, agent, before);
      var ms := Executed(before);
      if !(p.id1 in Dropped(ms) || p.id2 in Dropped(ms)) {
        assert Executed(pairs)[..|ms|] == ms;
        MergedKeys(rows, agent, before);
        SurvivingRow(rows, agent, before, p.id1);
        SurvivingRow(rows, agent, before, p.id2);
        MergeRowsTotal(Merged(rows, before), p);
      }
    }
  }

  /** A later merge involves the memory that merge `i` kept. */
  ghost predicate Overwritten(merges: seq<Merge>, i: int) {
    0 <= i < |merges| && exists j :: i < j < |merges| && (merges[j].keep == merges[i].keep || merges[j].drop == merges[i].keep)
  }

  /** Nothing that a later merge overwrites was worth anything. */
  ghost predicate OnlyZeroesOverwritten(rows: Table, merges: seq<Merge>)
    requires forall m | m in merges :: m.drop in rows
  {
    forall i | Overwritten(merges, i) :: rows[merges[i].drop].access == 0
  }

  lemma {:induction false} CreditIsFromLastMerge(rows: Table, merges: seq<Merge>, x: Id)
    requires forall m | m in merges :: m.drop in rows
    ensures Credit(rows, merges, x) > 0 ==>
      exists i :: 0 <= i < |merges| && merges[i].keep == x && rows[merges[i].drop].access > 0
    ensures OnlyZeroesOverwritten(rows, merges) && Credit(rows, merges, x) == 0 ==>
      forall i | 0 <= i < |merges| && merges[i].keep == x :: rows[merges[i].drop].access == 0
  {
    if merges == [] {
    } else {
      var n := |merges| - 1;
      var before := merges[..n];
      CreditIsFromLastMerge(rows, before, x);
      if merges[n].keep == x {
        forall i | 0 <= i < n && merges[i].keep == x ensures Overwritten(merges, i) {
        }
      } else {
        ShorterStillOnlyZeroes(rows, merges);
      }
    }
  }

  lemma ShorterStillOnlyZeroes(rows: Table, merges: seq<Merge>)
    requires merges != [] && forall m | m in merges :: m.drop in rows
    ensures OnlyZeroesOverwritten(rows, merges) ==> OnlyZeroesOverwritten(rows, merges[..|merges| - 1])
  {
    var before := merges[..|merges| - 1];
    forall i | Overwritten(before, i) ensures Overwritten(merges, i) && before[i] == merges[i] {
      var j :| i < j < |before| && (before[j].keep == before[i].keep || before[j].drop == before[i].keep);
      assert merges[j] == before[j];
    }
  }

  lemma {:induction false} NothingLostIff(rows: Table, merges: seq<Merge>)
    requires forall m | m in merges :: m.drop in rows
    ensures Lost(rows, merges) == 0 <==> OnlyZeroesOverwritten(rows, merges)
  {
    if merges == [] {
    } else {
      var n := |merges| - 1;
      var before, m := merges[..n], merges[n];
      NothingLostIff(rows, before);
      ShorterStillOnlyZeroes(rows, merges);
      CreditIsFromLastMerge(rows, before, m.keep);
      CreditIsFromLastMerge(rows, before, m.drop);
      if Lost(rows, merges) == 0 {
        forall i | Overwritten(merges, i) ensures rows[merges[i].drop].access == 0 {
          assert merges[i] == before[i];
          var j :| i < j < |merges| && (merges[j].keep == merges[i].keep || merges[j].drop == merges[i].keep);
          if j < n {
            assert merges[j] == before[j];
            assert Overwritten(before, i);
          }
        }
      } else if Lost(rows, before) == 0 {
        var x := if Credit(rows, before, m.keep) > 0 then m.keep else m.drop;
        var i :| 0 <= i < n && before[i].keep == x && rows[before[i].drop].access > 0;
        assert merges[i] == before[i];
        assert Overwritten(merges, i);
      }
    }
  }

  /**
    Merging never inflates the total access count, and keeps it exactly when every merge whose
    kept memory takes part in a later merge had deleted a memory that was never accessed.
  */
  lemma MergeKeepsTotalIff(rows: Table, agent: nat, pairs: seq<Pair>)
    requires FetchedFrom(pairs, rows, agent)
    ensures forall m | m in Executed(pairs) :: m.drop in rows
    ensures TotalAccess(Merged(rows, pairs)) <= TotalAccess(rows)
    ensures TotalAccess(Merged(rows, pairs)) == TotalAccess(rows) <==> OnlyZeroesOverwritten(rows, Executed(pairs))
  {
    MergeConservesAccess(rows, agent, pairs);
    NothingLostIff(rows, Executed(pairs));
  }

  ghost predicate Disjoint(merges: seq<Merge>) {
    forall i, j | 0 <= i < j < |merges| :: {merges[i].keep, merges[i].drop} !! {merges[j].keep, merges[j].drop}
  }

  /** When every merged-away memory had been accessed, the total is kept exactly when no memory is in two merges. */
  lemma KeepsTotalIffDisjoint(rows: Table, agent: nat, pairs: seq<Pair>)
    requires FetchedFrom(pairs, rows, agent)
    requires forall m | m in Executed(pairs) && m.drop in rows :: rows[m.drop].access > 0
    ensures TotalAccess(Merged(rows, pairs)) == TotalAccess(rows) <==> Disjoint(Executed(pairs))
  {
    var ms := Executed(pairs);
    MergeKeepsTotalIff(rows, agent, pairs);
    DroppedStaysOut(pairs);
    if OnlyZeroesOverwritten(rows, ms) {
      forall i, j | 0 <= i < j < |ms| ensures {ms[i].keep, ms[i].drop} !! {ms[j].keep, ms[j].drop} {
        assert ms[i] in ms;
        assert !Overwritten(ms, i);
      }
    } else {
      var i :| Overwritten(ms, i) && rows[ms[i].drop].access != 0;
      var j :| i < j < |ms| && (ms[j].keep == ms[i].keep || ms[j].drop == ms[i].keep);
      assert ms[i].keep in {ms[i].keep, ms[i].drop} && ms[i].keep in {ms[j].keep, ms[j].drop};
    }
  }

  /** The combined count is not kept in general: a memory that absorbs two others forgets the first. */
  lemma ChainForgetsAccess(rows: Table, agent: nat, p: Pair, q: Pair)
    requires FetchedFrom([p, q], rows, agent)
    requires Decide(p).keep == Decide(q).keep && Decide(p).drop != Decide(q).drop
    requires Decide(p).drop in rows && rows[Decide(p).drop].access > 0
    ensures TotalAccess(Merged(rows, [p, q])) < TotalAccess(rows)
  {
    var m, n := Decide(p), Decide(q);
    assert [p, q][..1] == [p] && [p][..0] == [];
    assert Executed([p]) == [m];
    assert q.id1 !in Dropped([m]) && q.id2 !in Dropped([m]) by {
      assert p in [p, q] && q in [p, q];
    }
    assert Executed([p, q]) == [m] + [n];
    MergeKeepsTotalIff(rows, agent, [p, q]);
    assert Overwritten(Executed([p, q]), 0) by {
      assert Executed([p, q])[1].keep == Executed([p, q])[0].keep;
    }
  }

  lemma ChainForgetsAccessWitness()
    ensures exists rows, pairs ::
      FetchedFrom(pairs, rows, 0) && TotalAccess(Merged(rows, pairs)) < TotalAccess(rows)
  {
    var row := Memory(0, "semantic", 1.0, 1, 0.0);
    var rows: Table := map[1 := row, 2 := row, 3 := row];
    var p, q := Pair(1, 2, 1.0, 1.0, 1, 1), Pair(1, 3, 1.0, 1.0, 1, 1);
    ChainForgetsAccess(rows, 0, p, q);
  }

  // ---------------------------------------------------------------- the other steps

  function AgentIds(rows: Table, agent: nat): set<Id> {
    set id | id in rows && rows[id].agent == agent
  }

  predicate Frequent(row: Memory, agent: nat) {
    row.agent == agent && row.access >= 5 && row.importance < 0.9
  }

  /** `boostFrequentlyAccessed` */
  function Boosted(rows: Table, agent: nat): Table {
    map id | id in rows ::
      if Frequent(rows[id], agent) then rows[id].(importance := Raise(rows[id].importance)) else rows[id]
  }

  /** The boost touches the importance of the agent's frequently accessed rows only, and leaves it below 0.95. */
  lemma BoostRaisesFrequent(rows: Table, agent: nat)
    ensures var boosted := Boosted(rows, agent);
      && boosted.Keys == rows.Keys
      && (forall id | id in rows :: boosted[id] == rows[id].(importance := boosted[id].importance))
      && (forall id | id in rows :: rows[id].importance <= boosted[id].importance <= rows[id].importance + 0.05)
      && (forall id | id in rows :: boosted[id] != rows[id] <==>
            rows[id].agent == agent && rows[id].access >= 5 && rows[id].importance < 0.9)
      && (forall id | id in rows && boosted[id] != rows[id] :: boosted[id].importance < 0.95)
      && (InUnit(rows) ==> InUnit(boosted))
  {
  }

  /** Boosting exactly the frequent rows, in any order, is the boost, and changes exactly those rows. */
  lemma BoostIsComplete(before: Table, after: Table, agent: nat, frequent: set<Id>)
    requires forall id :: id in frequent <==> id in before && Frequent(before[id], agent)
    requires after.Keys == before.Keys
    requires forall id | id in frequent :: after[id] == Boosted(before, agent)[id]
    requires forall id | id in before && id !in frequent :: after[id] == before[id]
    ensures after == Boosted(before, agent)
    ensures frequent == set id | id in after && after[id] != before[id]
  {
    var changed := set id | id in after && after[id] != before[id];
    forall id ensures id in frequent <==> id in changed {
      if id in frequent {
        assert after[id].importance > before[id].importance;
      }
    }
    forall id | id in before ensures after[id] == Boosted(before, agent)[id] {
    }
    assert after.Keys == Boosted(before, agent).Keys;
  }

  /** `rounds` boosts in a row. */
  function BoostedTimes(rows: Table, agent: nat, rounds: nat): Table {
    if rounds == 0 then rows else Boosted(BoostedTimes(rows, agent, rounds - 1), agent)
  }

  lemma {:induction false} BoostsAddUp(rows: Table, agent: nat, rounds: nat, id: Id)
    requires id in rows && rows[id].agent == agent && rows[id].access >= 5 && rows[id].importance >= 0.0
    ensures var boosted := BoostedTimes(rows, agent, rounds);
      && id in boosted
      && boosted[id] == rows[id].(importance := boosted[id].importance)
      && (boosted[id].importance >= 0.9 || boosted[id].importance >= 0.05 * rounds as real)
  {
    if rounds == 0 {
    } else {
      BoostsAddUp(rows, agent, rounds - 1, id);
    }
  }

  lemma {:induction false} OthersAreNotBoosted(rows: Table, agent: nat, rounds: nat)
    ensures var boosted := BoostedTimes(rows, agent, rounds);
      && boosted.Keys == rows.Keys
      && forall id | id in rows && (rows[id].agent != agent || rows[id].access < 5) :: boosted[id] == rows[id]
  {
    if rounds == 0 {
    } else {
      OthersAreNotBoosted(rows, agent, rounds - 1);
    }
  }

  /** Repeated consolidations do not raise importances for ever: after 18 boosts another one changes nothing. */
  lemma BoostSettles(rows: Table, agent: nat, rounds: nat)
    requires InUnit(rows) && rounds >= 18
    ensures Boosted(BoostedTimes(rows, agent, rounds), agent) == BoostedTimes(rows, agent, rounds)
  {
    var boosted := BoostedTimes(rows, agent, rounds);
    OthersAreNotBoosted(rows, agent, rounds);
    forall id | id in boosted ensures Boosted(boosted, agent)[id] == boosted[id] {
      if rows[id].agent == agent && rows[id].access >= 5 {
        BoostsAddUp(rows, agent, rounds, id);
        assert 0.05 * rounds as real >= 0.05 * 18.0;
      }
    }
    assert Boosted(boosted, agent).Keys == boosted.Keys;
  }

  predicate Decayed(row: Memory, decay: real -> real, threshold: real) {
    row.kind == "episodic" && row.importance * decay(row.age) < threshold && row.access < 2
  }

  /** `pruneDecayedEpisodic`; `decay` stands for exp(-0.1 * days). */
  function Pruned(rows: Table, agent: nat, decay: real -> real, threshold: real): Table {
    map id | id in rows && !(rows[id].agent == agent && Decayed(rows[id], decay, threshold)) :: rows[id]
  }

  /**
    Pruning spares what matters: whatever it leaves, it also leaves any memory of the agent that is as
    important, as often accessed and no older; and it never touches other kinds and other agents.
  */
  lemma PruneSparesTheBetter(rows: Table, agent: nat, decay: real -> real, threshold: real, a: Id, b: Id)
    requires forall x, y :: x <= y ==> decay(x) >= decay(y) >= 0.0
    requires a in rows && b in rows && rows[a].agent == agent == rows[b].agent && rows[a].kind == "episodic"
    requires rows[b].importance >= rows[a].importance && rows[b].access >= rows[a].access && rows[b].age <= rows[a].age
    requires rows[b].importance >= 0.0
    ensures var pruned := Pruned(rows, agent, decay, threshold);
      && (a in pruned ==> b in pruned && pruned[b] == rows[b])
      && (forall id | id in rows && (rows[id].agent != agent || rows[id].kind != "episodic" || rows[id].access >= 2) ::
            id in pruned && pruned[id] == rows[id])
  {
    Product(decay(rows[a].age), rows[a].importance, rows[b].importance);
    Product(rows[b].importance, decay(rows[a].age), decay(rows[b].age));
  }

  /** The table after `days` in which nothing is accessed. */
  function Aged(rows: Table, days: real): Table {
    map id | id in rows :: rows[id].(age := rows[id].age + days)
  }

  /** What decays only gets closer to being pruned: pruning now as well does not change what a later run leaves. */
  lemma PruningEarlyLosesNothing(rows: Table, agent: nat, decay: real -> real, threshold: real, days: real)
    requires days >= 0.0 && InUnit(rows)
    requires forall x, y :: x <= y ==> decay(x) >= decay(y)
    ensures Pruned(Aged(Pruned(rows, agent, decay, threshold), days), agent, decay, threshold)
         == Pruned(Aged(rows, days), agent, decay, threshold)
  {
    var early := Pruned(Aged(Pruned(rows, agent, decay, threshold), days), agent, decay, threshold);
    var late := Pruned(Aged(rows, days), agent, decay, threshold);
    forall id ensures id in early <==> id in late {
      if id in rows {
        DecayGoesOn(rows[id], decay, threshold, days);
      }
    }
    assert early.Keys == late.Keys;
    forall id | id in early ensures early[id] == late[id] {
      assert early[id] == rows[id].(age := rows[id].age + days);
    }
  }

  lemma DecayGoesOn(row: Memory, decay: real -> real, threshold: real, days: real)
    requires days >= 0.0 && row.importance >= 0.0
    requires forall x, y :: x <= y ==> decay(x) >= decay(y)
    ensures Decayed(row, decay, threshold) ==> Decayed(row.(age := row.age + days), decay, threshold)
  {
    if Decayed(row, decay, threshold) {
      Product(row.importance, decay(row.age + days), decay(row.age));
    }
  }

  lemma Product(x: real, a: real, b: real)
    requires x >= 0.0 && a <= b
    ensures x * a <= x * b
  {
  }

  /** Everything `Consolidate` does before the cap. */
  function BeforeCap(rows: Table, agent: nat, close: seq<(Id, Id)>, decay: real -> real, threshold: real): Table {
    var boosted := Boosted(rows, agent);
    Pruned(Merged(boosted, Fetch(boosted, agent, close)), agent, decay, threshold)
  }

  /** `after` keeps the `limit` best memories of the agent, ties broken in any way. */
  ghost predicate Capped(before: Table, after: Table, agent: nat, limit: nat) {
    && after.Keys <= before.Keys
    && (forall id | id in after :: after[id] == before[id])
    && (forall id | id in before && before[id].agent != agent :: id in after)
    && |AgentIds(after, agent)| == (if |AgentIds(before, agent)| <= limit then |AgentIds(before, agent)| else limit)
    && (forall gone, kept | gone in before && gone !in after && kept in AgentIds(after, agent) ::
          RowScore(before[gone]) <= RowScore(before[kept]))
  }

  ghost predicate InUnit(rows: Table) {
    forall id | id in rows :: 0.0 <= rows[id].importance <= 1.0
  }

  /**
    The cap keeps as many of the agent's memories as it may, none of them less valuable than one it removed;
    so it never removes a memory and keeps one that this outranks.
  */
  lemma CapRemovesLeastValuable(before: Table, after: Table, agent: nat, limit: nat)
    requires Capped(before, after, agent, limit)
    ensures var had, has := |set id | id in before && before[id].agent == agent|, |set id | id in after && after[id].agent == agent|;
      has == if had <= limit then had else limit
    ensures forall gone, kept | gone in before && gone !in after && kept in after && before[kept].agent == agent ::
      before[gone].agent == agent && AsValuable(before[kept], before[gone]) && !Outranks(before[gone], before[kept])
  {
    assert AgentIds(before, agent) == set id | id in before && before[id].agent == agent;
    assert AgentIds(after, agent) == set id | id in after && after[id].agent == agent;
    forall gone, kept | gone in before && gone !in after && kept in after && before[kept].agent == agent
      ensures AsValuable(before[kept], before[gone]) && !Outranks(before[gone], before[kept])
    {
      assert kept in AgentIds(after, agent);
      assert RowScore(before[gone]) <= RowScore(before[kept]);
      if Outranks(before[gone], before[kept]) {
        OutrankedIsLessValuable(before[gone], before[kept]);
      }
    }
  }

  /** Capping twice is capping once. */
  lemma CapIsIdempotent(a: Table, b: Table, c: Table, agent: nat, limit: nat)
    requires Capped(a, b, agent, limit) && Capped(b, c, agent, limit)
    ensures b == c
  {
    CapWithinLimitKeepsAll(b, c, agent, limit);
  }

  /** Two ways of capping the same table differ only in memories of equal score. */
  lemma CapIsUniqueUpToTies(before: Table, a: Table, b: Table, agent: nat, limit: nat, x: Id, y: Id)
    requires Capped(before, a, agent, limit) && Capped(before, b, agent, limit)
    requires x in a && x !in b && y in b && y !in a
    ensures RowScore(before[x]) == RowScore(before[y])
  {
    assert before[x].agent == agent && before[y].agent == agent;
    assert x in AgentIds(a, agent) && y in AgentIds(b, agent);
  }

  lemma StepsKeepUnit(rows: Table, agent: nat, close: seq<(Id, Id)>, decay: real -> real, threshold: real)
    requires InUnit(rows)
    ensures InUnit(BeforeCap(rows, agent, close, decay, threshold))
  {
    var boosted := Boosted(rows, agent);
    var pairs := Fetch(boosted, agent, close);
    forall id | id in Merged(boosted, pairs)
      ensures 0.0 <= Merged(boosted, pairs)[id].importance <= 1.0
    {
      SurvivingRow(boosted, agent, pairs, id);
    }
  }

  /** Neither forgotten nor rarely needed: not an episodic memory of low decayed importance and few accesses. */
  predicate Fresh(row: Memory, decay: real -> real, threshold: real) {
    row.kind == "episodic" && row.access < 2 ==> row.importance * decay(row.age) >= threshold
  }

  /** Merging leaves the rows of other agents as they are, and makes no row change its agent. */
  lemma MergedLeavesOthers(rows: Table, agent: nat, pairs: seq<Pair>)
    requires FetchedFrom(pairs, rows, agent)
    ensures var merged := Merged(rows, pairs);
      && merged.Keys <= rows.Keys
      && (forall id | id in merged :: merged[id].agent == rows[id].agent)
      && (forall id | id in rows && rows[id].agent != agent :: id in merged && merged[id] == rows[id])
  {
    MergedKeys(rows, agent, pairs);
    forall id | id in Merged(rows, pairs)
      ensures Merged(rows, pairs)[id].agent == rows[id].agent && (rows[id].agent != agent ==> Merged(rows, pairs)[id] == rows[id])
    {
      SurvivingRow(rows, agent, pairs, id);
    }
    forall id | id in rows && rows[id].agent != agent ensures id !in Dropped(Executed(pairs)) {
      if id in Dropped(Executed(pairs)) {
        var m :| m in Executed(pairs) && m.drop == id;
        DropIsBeatenByKeep(rows, agent, pairs, m);
      }
    }
  }

  lemma BeforeCapLeavesOthers(rows: Table, agent: nat, close: seq<(Id, Id)>, decay: real -> real, threshold: real)
    ensures var before := BeforeCap(rows, agent, close, decay, threshold);
      && before.Keys <= rows.Keys
      && (forall id | id in before :: before[id].agent == rows[id].agent)
      && (forall id | id in rows && rows[id].agent != agent :: id in before && before[id] == rows[id])
      && (forall id | id in before && before[id].agent == agent :: Fresh(before[id], decay, threshold))
  {
    var boosted := Boosted(rows, agent);
    MergedLeavesOthers(boosted, agent, Fetch(boosted, agent, close));
  }

  lemma BreaksFetchedPairs(rows: Table, agent: nat, close: seq<(Id, Id)>, decay: real -> real, threshold: real)
    ensures forall p | p in Fetch(Boosted(rows, agent), agent, close) ::
      !(p.id1 in BeforeCap(rows, agent, close, decay, threshold) && p.id2 in BeforeCap(rows, agent, close, decay, threshold))
  {
    var boosted := Boosted(rows, agent);
    var pairs := Fetch(boosted, agent, close);
    MergedKeys(boosted, agent, pairs);
    forall p | p in pairs ensures p.id1 in Dropped(Executed(pairs)) || p.id2 in Dropped(Executed(pairs)) {
      NoPairSurvives(pairs, p);
    }
  }

  /**
    What one consolidation leaves behind: at most `limit` memories of the agent, every other
    agent's rows as they were, no new ids, importances still in [0, 1], no decayed episodic
    memory of the agent, and no pair with both members left among those the similarity query fetched.
  */
  lemma ConsolidationGuarantees(rows: Table, after: Table, agent: nat, close: seq<(Id, Id)>,
                                decay: real -> real, threshold: real, limit: nat)
    requires Capped(BeforeCap(rows, agent, close, decay, threshold), after, agent, limit)
    ensures |AgentIds(after, agent)| <= limit
    ensures after.Keys <= rows.Keys
    ensures forall id | id in rows && rows[id].agent != agent :: id in after && after[id] == rows[id]
    ensures forall id | id in after :: after[id].agent == rows[id].agent
    ensures InUnit(rows) ==> InUnit(after)
    ensures forall id | id in after && after[id].agent == agent :: Fresh(after[id], decay, threshold)
    ensures forall p | p in Fetch(Boosted(rows, agent), agent, close) :: !(p.id1 in after && p.id2 in after)
  {
    BeforeCapLeavesOthers(rows, agent, close, decay, threshold);
    BreaksFetchedPairs(rows, agent, close, decay, threshold);
    if InUnit(rows) {
      StepsKeepUnit(rows, agent, close, decay, threshold);
    }
  }

  /**
    A memory that a consolidation leaves is the one it was, with at least its accesses; its importance is
    0.05 higher if it was often accessed and below 0.9, and again if another memory was merged into it, up to 1.
  */
  lemma SurvivorIsEnriched(rows: Table, after: Table, agent: nat, close: seq<(Id, Id)>,
                           decay: real -> real, threshold: real, limit: nat, id: Id)
    requires Capped(BeforeCap(rows, agent, close, decay, threshold), after, agent, limit)
    requires id in after
    ensures id in rows && after[id] == rows[id].(access := after[id].access, importance := after[id].importance)
    ensures
      var merges, row := Executed(Fetch(Boosted(rows, agent), agent, close)), rows[id];
      var boosted := if row.agent == agent && row.access >= 5 && row.importance < 0.9 then row.importance + 0.05 else row.importance;
      && after[id].access >= row.access && (!KeptAnother(merges, id) ==> after[id].access == row.access)
      && after[id].importance == if !KeptAnother(merges, id) then boosted else if boosted <= 0.95 then boosted + 0.05 else 1.0
  {
    var boosted := Boosted(rows, agent);
    var pairs := Fetch(boosted, agent, close);
    SurvivingRow(boosted, agent, pairs, id);
    NoCredit(boosted, Executed(pairs), id);
  }

  lemma {:induction false} NoCredit(rows: Table, merges: seq<Merge>, x: Id)
    requires forall m | m in merges :: m.drop in rows
    ensures !KeptAnother(merges, x) ==> Credit(rows, merges, x) == 0
  {
    if merges == [] {
    } else {
      var before, last := merges[..|merges| - 1], merges[|merges| - 1];
      NoCredit(rows, before, x);
      assert last in merges;
      assert KeptAnother(before, x) ==> KeptAnother(merges, x);
    }
  }

  /** `close` lists the pairs of the table's memories more similar than the threshold. */
  predicate ListsClosePairs(close: seq<(Id, Id)>, rows: Table, similarity: (Id, Id) -> real, threshold: real) {
    forall a, b | a in rows && b in rows && a < b :: (a, b) in close <==> similarity(a, b) > threshold
  }

  /** Unless the query found more than 50 pairs, no two memories of the agent and of one kind remain that are too similar. */
  lemma NoSimilarPairIsLeft(rows: Table, after: Table, agent: nat, close: seq<(Id, Id)>, similarity: (Id, Id) -> real,
                            similarityThreshold: real, decay: real -> real, threshold: real, limit: nat, a: Id, b: Id)
    requires Capped(BeforeCap(rows, agent, close, decay, threshold), after, agent, limit)
    requires ListsClosePairs(close, rows, similarity, similarityThreshold)
    requires |Join(Boosted(rows, agent), agent, close)| <= 50
    requires a in after && b in after && a < b && after[a].agent == agent == after[b].agent && after[a].kind == after[b].kind
    ensures similarity(a, b) <= similarityThreshold
  {
    var boosted := Boosted(rows, agent);
    var pairs := Fetch(boosted, agent, close);
    SurvivingRow(boosted, agent, pairs, a);
    SurvivingRow(boosted, agent, pairs, b);
    if similarity(a, b) > similarityThreshold {
      ClosePairIsFetched(boosted, agent, close, a, b);
      ConsolidationGuarantees(rows, after, agent, close, decay, threshold, limit);
      assert false;
    }
  }

  lemma ClosePairIsFetched(rows: Table, agent: nat, close: seq<(Id, Id)>, a: Id, b: Id)
    requires (a, b) in close && Joins(rows, agent, a, b) && |Join(rows, agent, close)| <= PAIR_LIMIT
    ensures exists p :: p in Fetch(rows, agent, close) && p.id1 == a && p.id2 == b
  {
    JoinIsExact(rows, agent, close, PairOf(rows, a, b));
    assert PairOf(rows, a, b) in Fetch(rows, agent, close);
  }

  /**
    Nothing is removed without cause: a memory that is gone was merged into one that beats it, or
    had decayed, or fell to the cap, which was exceeded and kept only memories scoring as high.
  */
  lemma RemovalIsJustified(rows: Table, after: Table, agent: nat, close: seq<(Id, Id)>,
                           decay: real -> real, threshold: real, limit: nat, gone: Id)
    requires Capped(BeforeCap(rows, agent, close, decay, threshold), after, agent, limit)
    requires gone in rows && gone !in after
    ensures
      var boosted := Boosted(rows, agent);
      var pairs := Fetch(boosted, agent, close);
      var merged, before := Merged(boosted, pairs), BeforeCap(rows, agent, close, decay, threshold);
      || (exists m :: m in Executed(pairs) && m.drop == gone && m.keep in boosted && AsValuable(boosted[m.keep], boosted[gone]))
      || (gone in merged && merged[gone].kind == "episodic" && merged[gone].access < 2 &&
          merged[gone].importance * decay(merged[gone].age) < threshold)
      || (gone in before && |AgentIds(after, agent)| == limit < |AgentIds(before, agent)| &&
          forall kept | kept in AgentIds(after, agent) :: AsValuable(before[kept], before[gone]))
  {
    var boosted := Boosted(rows, agent);
    var pairs := Fetch(boosted, agent, close);
    MergedKeys(boosted, agent, pairs);
    var before := BeforeCap(rows, agent, close, decay, threshold);
    if gone in Dropped(Executed(pairs)) {
      var m :| m in Executed(pairs) && m.drop == gone;
      KeepIsAsValuable(boosted, agent, pairs, m);
    } else if gone in before {
      FallsToCap(before, after, agent, limit, gone);
    }
  }

  /** What is removed by the cap is removed because there was too much, and nothing kept was worth less. */
  lemma FallsToCap(before: Table, after: Table, agent: nat, limit: nat, gone: Id)
    requires Capped(before, after, agent, limit) && gone in before && gone !in after
    ensures |AgentIds(after, agent)| == limit < |AgentIds(before, agent)|
    ensures forall kept | kept in AgentIds(after, agent) :: AsValuable(before[kept], before[gone])
  {
    CapRemovesLeastValuable(before, after, agent, limit);
    if |AgentIds(before, agent)| <= limit {
      CapWithinLimitKeepsAll(before, after, agent, limit);
    }
  }

  lemma CapWithinLimitKeepsAll(before: Table, after: Table, agent: nat, limit: nat)
    requires Capped(before, after, agent, limit) && |AgentIds(before, agent)| <= limit
    ensures before == after
  {
    SubsetOfSameSize(AgentIds(after, agent), AgentIds(before, agent));
    forall id | id in before ensures id in after {
      if before[id].agent == agent {
        assert id in AgentIds(before, agent);
      }
    }
    assert before.Keys == after.Keys;
  }

  // ---------------------------------------------------------------- the selection behind `ORDER BY ... LIMIT`

  lemma {:induction false} LowestExists(rows: Table, ids: set<Id>)
    requires ids != {} && ids <= rows.Keys
    ensures exists m :: m in ids && forall x | x in ids :: RowScore(rows[m]) <= RowScore(rows[x])
  {
    var x :| x in ids;
    if ids != {x} {
      LowestExists(rows, ids - {x});
      var m :| m in ids - {x} && forall y | y in ids - {x} :: RowScore(rows[m]) <= RowScore(rows[y]);
      var low := if RowScore(rows[x]) < RowScore(rows[m]) then x else m;
      assert forall y | y in ids :: y == x || y in ids - {x};
      assert low in ids && forall y | y in ids :: RowScore(rows[low]) <= RowScore(rows[y]);
    }
  }

  /** The `n` lowest-scoring of `ids`, in any order among equals. */
  method LowestScoring(rows: Table, ids: set<Id>, n: nat) returns (lowest: set<Id>)
    requires ids <= rows.Keys && n <= |ids|
    ensures lowest <= ids && |lowest| == n
    ensures forall x, y | x in lowest && y in ids - lowest :: RowScore(rows[x]) <= RowScore(rows[y])
  {
    lowest := {};
    while |lowest| < n
      invariant lowest <= ids && |lowest| <= n
      invariant forall x, y | x in lowest && y in ids - lowest :: RowScore(rows[x]) <= RowScore(rows[y])
    {
      assert lowest != ids;
      var rest := ids - lowest;
      LowestExists(rows, rest);
      var m :| m in rest && forall x | x in rest :: RowScore(rows[m]) <= RowScore(rows[x]);
      lowest := lowest + {m};
    }
  }

  /** The loop's next pair. */
  lemma MergeOneMore(rows: Table, pairs: seq<Pair>, i: nat)
    requires i < |pairs|
    ensures
      var p, merges := pairs[i], Executed(pairs[..i]);
      var skip := p.id1 in Dropped(merges) || p.id2 in Dropped(merges);
      && Executed(pairs[..i + 1]) == (if skip then merges else merges + [Decide(p)])
      && Merged(rows, pairs[..i + 1]) == (if skip then Merged(rows, pairs[..i]) else MergeRows(Merged(rows, pairs[..i]), p))
      && Dropped(Executed(pairs[..i + 1])) == (if skip then Dropped(merges) else Dropped(merges) + {Decide(p).drop})
  {
    assert pairs[..i + 1][..i] == pairs[..i];
  }

  /** Every agent is one of `agents`; those no longer to do are within the limit and have fresh memories only. */
  ghost predicate Settled(rows: Table, agents: set<nat>, todo: set<nat>, limit: nat, decay: real -> real, threshold: real) {
    && todo <= agents
    && (forall id | id in rows :: rows[id].agent in agents)
    && (forall agent | agent in agents - todo :: |AgentIds(rows, agent)| <= limit)
    && (forall id | id in rows && rows[id].agent !in todo :: Fresh(rows[id], decay, threshold))
  }

  /** `stages` are the tables between the consolidations of the agents, each of which comes once in `order`. */
  ghost predicate Staged(order: seq<nat>, stages: seq<Table>, close: seq<(Id, Id)>, decay: real -> real, threshold: real, limit: nat) {
    && |stages| == |order| + 1
    && forall i | 0 <= i < |order| ::
         Capped(BeforeCap(stages[i], order[i], close, decay, threshold), stages[i + 1], order[i], limit)
  }

  lemma StagedOneMore(order: seq<nat>, stages: seq<Table>, close: seq<(Id, Id)>, decay: real -> real, threshold: real,
                      limit: nat, agent: nat, after: Table)
    requires Staged(order, stages, close, decay, threshold, limit)
    requires Capped(BeforeCap(stages[|order|], agent, close, decay, threshold), after, agent, limit)
    ensures Staged(order + [agent], stages + [after], close, decay, threshold, limit)
  {
    var more, tables := order + [agent], stages + [after];
    forall i | 0 <= i < |more| ensures Capped(BeforeCap(tables[i], more[i], close, decay, threshold), tables[i + 1], more[i], limit) {
      assert tables[i] == stages[i];
      if i < |order| {
        assert tables[i + 1] == stages[i + 1] && more[i] == order[i];
      }
    }
  }

  lemma AgentSettled(before: Table, after: Table, agents: set<nat>, todo: set<nat>, agent: nat, limit: nat,
                     decay: real -> real, threshold: real)
    requires Settled(before, agents, todo, limit, decay, threshold) && agent in todo
    requires |AgentIds(after, agent)| <= limit && after.Keys <= before.Keys
    requires forall id | id in before && before[id].agent != agent :: id in after && after[id] == before[id]
    requires forall id | id in after :: after[id].agent == before[id].agent
    requires forall id | id in after && after[id].agent == agent :: Fresh(after[id], decay, threshold)
    ensures Settled(after, agents, todo - {agent}, limit, decay, threshold)
  {
    forall other | other in agents - todo ensures |AgentIds(after, other)| <= limit {
      assert AgentIds(after, other) == AgentIds(before, other);
    }
  }

  lemma ConsolidatedIsSettled(before: Table, after: Table, agents: set<nat>, todo: set<nat>, agent: nat,
                              close: seq<(Id, Id)>, decay: real -> real, threshold: real, limit: nat)
    requires Settled(before, agents, todo, limit, decay, threshold) && agent in todo
    requires Capped(BeforeCap(before, agent, close, decay, threshold), after, agent, limit)
    ensures Settled(after, agents, todo - {agent}, limit, decay, threshold)
    ensures after.Keys <= before.Keys && (InUnit(before) ==> InUnit(after))
  {
    ConsolidationGuarantees(before, after, agent, close, decay, threshold, limit);
    AgentSettled(before, after, agents, todo, agent, limit, decay, threshold);
  }

  /** What a run over all agents works with. */
  datatype Sweep = Sweep(close: seq<(Id, Id)>, decay: real -> real, threshold: real, limit: nat)

  /** How a run over `agents` that began with `first` stands at `rows`, with `todo` still to come. */
  ghost predicate Swept(run: Sweep, first: Table, rows: Table, agents: set<nat>, todo: set<nat>, order: seq<nat>, stages: seq<Table>) {
    && rows.Keys <= first.Keys
    && (InUnit(first) ==> InUnit(rows))
    && Settled(rows, agents, todo, run.limit, run.decay, run.threshold)
    && Staged(order, stages, run.close, run.decay, run.threshold, run.limit)
    && stages[0] == first && stages[|order|] == rows
    && multiset(order) + multiset(todo) == multiset(agents)
  }

  lemma SweptOneMore(run: Sweep, first: Table, rows: Table, after: Table, agents: set<nat>, todo: set<nat>, agent: nat,
                     order: seq<nat>, stages: seq<Table>)
    requires Swept(run, first, rows, agents, todo, order, stages) && agent in todo
    requires Capped(BeforeCap(rows, agent, run.close, run.decay, run.threshold), after, agent, run.limit)
    ensures Swept(run, first, after, agents, todo - {agent}, order + [agent], stages + [after])
  {
    ConsolidatedIsSettled(rows, after, agents, todo, agent, run.close, run.decay, run.threshold, run.limit);
    StagedOneMore(order, stages, run.close, run.decay, run.threshold, run.limit, agent, after);
    OneLessToDo(order, todo, agent);
  }

  lemma OneLessToDo(order: seq<nat>, todo: set<nat>, agent: nat)
    requires agent in todo
    ensures multiset(order + [agent]) + multiset(todo - {agent}) == multiset(order) + multiset(todo)
  {
  }

  lemma AllSettled(rows: Table, agents: set<nat>, limit: nat, decay: real -> real, threshold: real)
    requires Settled(rows, agents, {}, limit, decay, threshold)
    ensures forall agent :: |AgentIds(rows, agent)| <= limit
    ensures forall id | id in rows :: Fresh(rows[id], decay, threshold)
  {
    forall agent: nat ensures |AgentIds(rows, agent)| <= limit {
      if agent !in agents {
        assert AgentIds(rows, agent) == {};
      }
    }
  }

  /** Cutting the excess with the lowest scores is a cap. */
  lemma CutIsCapped(before: Table, agent: nat, lowest: set<Id>, limit: nat)
    requires lowest <= AgentIds(before, agent) && |lowest| == |AgentIds(before, agent)| - limit
    requires forall x, y | x in lowest && y in AgentIds(before, agent) - lowest :: RowScore(before[x]) <= RowScore(before[y])
    ensures Capped(before, before - lowest, agent, limit)
    ensures AgentIds(before - lowest, agent) == AgentIds(before, agent) - lowest
  {
    assert AgentIds(before - lowest, agent) == AgentIds(before, agent) - lowest;
  }

  // ---------------------------------------------------------------- the consolidator

  class Consolidator {
    const maxPerAgent: nat
    const decayThreshold: real
    var memories: Table

    constructor (memories: Table, maxPerAgent: int, decayThreshold: real)
      ensures this.memories == memories
      ensures this.maxPerAgent > 0 && this.decayThreshold > 0.0
      ensures maxPerAgent > 0 ==> this.maxPerAgent == maxPerAgent
      ensures decayThreshold > 0.0 ==> this.decayThreshold == decayThreshold
      ensures maxPerAgent <= 0 ==> this.maxPerAgent == 500
      ensures decayThreshold <= 0.0 ==> this.decayThreshold == 0.05
    {
      this.memories := memories;
      this.maxPerAgent := if maxPerAgent <= 0 then 500 else maxPerAgent;
      this.decayThreshold := if decayThreshold <= 0.0 then 0.05 else decayThreshold;
    }

    /** The rows that the update reports as affected are exactly those it changes. */
    method BoostFrequentlyAccessed(agent: nat) returns (affected: nat)
      modifies this`memories
      ensures memories == Boosted(old(memories), agent)
      ensures affected == |set id | id in memories && memories[id] != old(memories)[id]|
    {
      var frequent := set id | id in memories && Frequent(memories[id], agent);
      affected := |frequent|;
      var left := frequent;
      while left != {}
        invariant left <= frequent && memories.Keys == old(memories).Keys
        invariant forall id | id in frequent - left :: memories[id] == Boosted(old(memories), agent)[id]
        invariant forall id | id in memories && id !in frequent - left :: memories[id] == old(memories)[id]
        decreases |left|
      {
        var id :| id in left;
        memories := memories[id := memories[id].(importance := Raise(memories[id].importance))];
        left := left - {id};
      }
      assert frequent - left == frequent;
      BoostIsComplete(old(memories), memories, agent, frequent);
    }

    /** The loop of `mergeSimilar`: the pairs are read once, then the rows are updated one pair at a time. */
    method MergeSimilar(agent: nat, close: seq<(Id, Id)>) returns (merged: nat)
      modifies this`memories
      ensures memories == Merged(old(memories), Fetch(old(memories), agent, close))
      ensures merged == |Executed(Fetch(old(memories), agent, close))|
    {
      var pairs := Fetch(memories, agent, close);
      var deleted: set<Id> := {};
      merged := 0;
      for i := 0 to |pairs|
        invariant memories == Merged(old(memories), pairs[..i])
        invariant deleted == Dropped(Executed(pairs[..i]))
        invariant merged == |Executed(pairs[..i])|
      {
        var p := pairs[i];
        MergeOneMore(old(memories), pairs, i);
        if p.id1 in deleted || p.id2 in deleted {
          continue;
        }
        var drop := MergePair(p);
        deleted := deleted + {drop};
        merged := merged + 1;
      }
      assert pairs[..|pairs|] == pairs;
    }

    /** Lines 152-188: keep the better memory of the pair with the combined count, delete the other. */
    method MergePair(p: Pair) returns (drop: Id)
      modifies this`memories
      ensures memories == MergeRows(old(memories), p)
      ensures drop == Decide(p).drop && drop !in memories
      ensures drop == if p.importance2 * (p.access2 + 1) as real > p.importance1 * (p.access1 + 1) as real then p.id1 else p.id2
      ensures var keep := if drop == p.id1 then p.id2 else p.id1;
        keep in old(memories) && keep != drop ==> keep in memories && memories[keep].access == p.access1 + p.access2
    {
      var score1, score2 := Score(p.importance1, p.access1), Score(p.importance2, p.access2);
      var keep, keepImportance := p.id1, p.importance1;
      drop := p.id2;
      var totalAccess := p.access1 + p.access2;
      if score2 > score1 {
        keep, drop, keepImportance := p.id2, p.id1, p.importance2;
      }
      var newImportance := keepImportance + 0.05;
      if newImportance > 1.0 {
        newImportance := 1.0;
      }
      if keep in memories {
        memories := memories[keep := memories[keep].(access := totalAccess, importance := newImportance)];
      }
      memories := memories - {drop};
    }

    /** The rows that the deletion reports as affected are those missing afterwards. */
    method PruneDecayedEpisodic(agent: nat, decay: real -> real) returns (affected: nat)
      modifies this`memories
      ensures memories == Pruned(old(memories), agent, decay, decayThreshold)
      ensures affected == |old(memories)| - |memories|
    {
      var decayed := set id | id in AgentIds(memories, agent) && Decayed(memories[id], decay, decayThreshold);
      affected := |decayed|;
      memories := memories - decayed;
      assert memories.Keys == old(memories).Keys - decayed;
      assert memories == Pruned(old(memories), agent, decay, decayThreshold);
    }

    method EnforceHardCap(agent: nat) returns (removed: nat)
      modifies this`memories
      ensures Capped(old(memories), memories, agent, maxPerAgent)
      ensures removed == |AgentIds(old(memories), agent)| - |AgentIds(memories, agent)|
      ensures forall gone, kept | gone in old(memories) && gone !in memories && kept in memories && memories[kept].agent == agent ::
        AsValuable(memories[kept], old(memories)[gone])
    {
      var ids := AgentIds(memories, agent);
      if |ids| <= maxPerAgent {
        return 0;
      }
      removed := |ids| - maxPerAgent;
      var lowest := LowestScoring(memories, ids, removed);
      memories := memories - lowest;
      CutIsCapped(old(memories), agent, lowest, maxPerAgent);
      CapRemovesLeastValuable(old(memories), memories, agent, maxPerAgent);
    }

    method Consolidate(agent: nat, close: seq<(Id, Id)>, decay: real -> real)
      modifies this`memories
      ensures Capped(BeforeCap(old(memories), agent, close, decay, decayThreshold), memories, agent, maxPerAgent)
    {
      var boosted := BoostFrequentlyAccessed(agent);
      var merged := MergeSimilar(agent, close);
      var pruned := PruneDecayedEpisodic(agent, decay);
      var removed := EnforceHardCap(agent);
    }

    /**
      A consolidation of every agent, once each, in some order; afterwards every agent is within the cap and
      no memory that has decayed is left.
    */
    method ConsolidateAllAgents(close: seq<(Id, Id)>, decay: real -> real) returns (ghost order: seq<nat>, ghost stages: seq<Table>)
      modifies this`memories
      ensures Staged(order, stages, close, decay, decayThreshold, maxPerAgent)
      ensures stages[0] == old(memories) && stages[|order|] == memories
      ensures multiset(order) == multiset(set id | id in old(memories) :: old(memories)[id].agent)
      ensures forall agent :: |AgentIds(memories, agent)| <= maxPerAgent
      ensures forall id | id in memories :: Fresh(memories[id], decay, decayThreshold)
      ensures memories.Keys <= old(memories).Keys
      ensures InUnit(old(memories)) ==> InUnit(memories)
    {
      var agents := set id | id in memories :: memories[id].agent;
      var todo := agents;
      order, stages := [], [memories];
      ghost var run := Sweep(close, decay, decayThreshold, maxPerAgent);
      while todo != {}
        invariant Swept(run, old(memories), memories, agents, todo, order, stages)
        decreases |todo|
      {
        var agent :| agent in todo;
        ghost var before := memories;
        Consolidate(agent, close, decay);
        SweptOneMore(run, old(memories), before, memories, agents, todo, agent, order, stages);
        order, stages := order + [agent], stages + [memories];
        todo := todo - {agent};
      }
      AllSettled(memories, agents, maxPerAgent, decay, decayThreshold);
    }
  }
}
