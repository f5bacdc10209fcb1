/**
  The per-district summaries printed at the end of both drivers: a dict from
  district to counts, filled in record order (so districts keep the order
  they were first seen), then `sorted(..., key=count, reverse=True)[:N]`.
  Python's sort is stable, also with `reverse=True`, so ties keep that order.
 */
module Report {
  import opened Wrappers

  /** One entry of the dict: a district, its number of records, and how many of them are complete. */
  datatype GroupStat = GroupStat(name: string, total: nat, completed: nat)

  /** What the summary reads from one record: its district, and whether it counts as complete. */
  datatype Entry = Entry(group: string, done: bool)

  /** Position of `name` among the districts seen so far. */
  function IndexOf(stats: seq<GroupStat>, name: string): (r: Option<nat>)
    ensures r.Some? ==> r.value < |stats| && stats[r.value].name == name
    ensures r.None? <==> forall i :: 0 <= i < |stats| ==> stats[i].name != name
  {
    if stats == [] then None
    else if stats[|stats| - 1].name == name then Some(|stats| - 1)
    else IndexOf(stats[..|stats| - 1], name)
  }

  /** One step of the loop: create the district's entry on first sight, then count the record. */
  function Bump(stats: seq<GroupStat>, e: Entry): seq<GroupStat>
  {
    var one := if e.done then 1 else 0;
    match IndexOf(stats, e.group)
    case Some(i) => stats[i := GroupStat(e.group, stats[i].total + 1, stats[i].completed + one)]
    case None => stats + [GroupStat(e.group, 1, one)]
  }

  /** The dict after the loop over all records, in insertion order. */
  function Tally(entries: seq<Entry>): seq<GroupStat>
  {
    if entries == [] then [] else Bump(Tally(entries[..|entries| - 1]), entries[|entries| - 1])
  }

  /** Number of records of district `name`. */
  function CountOf(entries: seq<Entry>, name: string): nat
  {
    if entries == [] then 0
    else CountOf(entries[..|entries| - 1], name) + (if entries[|entries| - 1].group == name then 1 else 0)
  }

  /** Number of complete records of district `name`. */
  function DoneOf(entries: seq<Entry>, name: string): nat
  {
    if entries == [] then 0
    else
      var e := entries[|entries| - 1];
      DoneOf(entries[..|entries| - 1], name) + (if e.group == name && e.done then 1 else 0)
  }

  /** Number of complete records. */
  function DoneCount(entries: seq<Entry>): nat
  {
    if entries == [] then 0
    else DoneCount(entries[..|entries| - 1]) + (if entries[|entries| - 1].done then 1 else 0)
  }

  predicate UniqueNames(stats: seq<GroupStat>)
  {
    forall i, j :: 0 <= i < j < |stats| ==> stats[i].name != stats[j].name
  }

  function NameSet(stats: seq<GroupStat>): set<string>
  {
    set i | 0 <= i < |stats| :: stats[i].name
  }

  function GroupSet(entries: seq<Entry>): set<string>
  {
    set j | 0 <= j < |entries| :: entries[j].group
  }

  lemma BumpNames(stats: seq<GroupStat>, e: Entry)
    ensures NameSet(Bump(stats, e)) == NameSet(stats) + {e.group}
    ensures UniqueNames(stats) ==> UniqueNames(Bump(stats, e))
  {
    var r := Bump(stats, e);
    match IndexOf(stats, e.group)
    case Some(k) =>
      forall name | name in NameSet(stats) + {e.group} ensures name in NameSet(r) {
        if name == e.group {
          assert r[k].name == name;
        } else {
          var i :| 0 <= i < |stats| && stats[i].name == name;
          assert r[i].name == name;
        }
      }
    case None =>
      assert r[|stats|].name == e.group;
      forall name | name in NameSet(stats) ensures name in NameSet(r) {
        var i :| 0 <= i < |stats| && stats[i].name == name;
        assert r[i].name == name;
      }
  }

  lemma {:induction false} TallyNames(entries: seq<Entry>)
    ensures UniqueNames(Tally(entries))
    ensures NameSet(Tally(entries)) == GroupSet(entries)
  {
    if entries != [] {
      var prefix := entries[..|entries| - 1];
      TallyNames(prefix);
      BumpNames(Tally(prefix), entries[|entries| - 1]);
      GroupSetStep(entries);
    }
  }

  lemma GroupSetStep(entries: seq<Entry>)
    requires entries != []
    ensures GroupSet(entries) == GroupSet(entries[..|entries| - 1]) + {entries[|entries| - 1].group}
  {
    var prefix := entries[..|entries| - 1];
    forall g | g in GroupSet(entries) ensures g in GroupSet(prefix) + {entries[|entries| - 1].group} {
      var j :| 0 <= j < |entries| && entries[j].group == g;
      if j < |prefix| {
        assert prefix[j].group == g;
      }
    }
    forall g | g in GroupSet(prefix) ensures g in GroupSet(entries) {
      var j :| 0 <= j < |prefix| && prefix[j].group == g;
      assert entries[j].group == g;
    }
  }

  lemma {:induction false} AbsentCountsZero(entries: seq<Entry>, name: string)
    requires name !in GroupSet(entries)
    ensures CountOf(entries, name) == 0 && DoneOf(entries, name) == 0
  {
    if entries != [] {
      var prefix := entries[..|entries| - 1];
      assert GroupSet(prefix) <= GroupSet(entries) by {
        forall g | g in GroupSet(prefix) ensures g in GroupSet(entries) {
          var j :| 0 <= j < |prefix| && prefix[j].group == g;
          assert entries[j].group == g;
        }
      }
      AbsentCountsZero(prefix, name);
    }
  }

  lemma {:induction false} TallyCounts(entries: seq<Entry>)
    ensures var stats := Tally(entries);
      forall i :: 0 <= i < |stats| ==>
        stats[i].total == CountOf(entries, stats[i].name) && stats[i].completed == DoneOf(entries, stats[i].name)
  {
    if entries != [] {
      var prefix := entries[..|entries| - 1];
      var e := entries[|entries| - 1];
      TallyCounts(prefix);
      TallyNames(prefix);
      var before := Tally(prefix);
      if IndexOf(before, e.group).None? {
        assert e.group !in GroupSet(prefix);
        AbsentCountsZero(prefix, e.group);
      }
    }
  }

  /**
    The dict holds one entry per district that occurs and no other, and each
    entry's counts are that district's record count and complete count.
   */
  lemma TallyCountsEachDistrict(entries: seq<Entry>)
    ensures var stats := Tally(entries);
      && UniqueNames(stats)
      && NameSet(stats) == GroupSet(entries)
      && (forall i :: 0 <= i < |stats| ==> stats[i].total == CountOf(entries, stats[i].name))
      && (forall i :: 0 <= i < |stats| ==> stats[i].completed == DoneOf(entries, stats[i].name))
      && (forall i :: 0 <= i < |stats| ==> stats[i].completed <= stats[i].total)
  {
    TallyNames(entries);
    TallyCounts(entries);
    DoneAtMostCount(entries);
  }

  lemma {:induction false} DoneAtMostCount(entries: seq<Entry>)
    ensures forall name :: DoneOf(entries, name) <= CountOf(entries, name)
  {
    if entries != [] {
      DoneAtMostCount(entries[..|entries| - 1]);
    }
  }

  function TotalOf(stats: seq<GroupStat>): nat
  {
    if stats == [] then 0 else TotalOf(stats[..|stats| - 1]) + stats[|stats| - 1].total
  }

  function CompletedOf(stats: seq<GroupStat>): nat
  {
    if stats == [] then 0 else CompletedOf(stats[..|stats| - 1]) + stats[|stats| - 1].completed
  }

  lemma {:induction false} SumsAfterUpdate(stats: seq<GroupStat>, i: nat, s: GroupStat)
    requires i < |stats|
    ensures TotalOf(stats[i := s]) == TotalOf(stats) - stats[i].total + s.total
    ensures CompletedOf(stats[i := s]) == CompletedOf(stats) - stats[i].completed + s.completed
    decreases |stats|
  {
    var n := |stats| - 1;
    if i < n {
      assert stats[i := s][..n] == stats[..n][i := s];
      SumsAfterUpdate(stats[..n], i, s);
    } else {
      assert stats[i := s][..n] == stats[..n];
    }
  }

  /** Over all districts the totals add up to the number of records, and the completed counts to the complete ones. */
  lemma {:induction false} TallySumsToRecordCount(entries: seq<Entry>)
    ensures TotalOf(Tally(entries)) == |entries|
    ensures CompletedOf(Tally(entries)) == DoneCount(entries)
  {
    if entries != [] {
      var prefix := entries[..|entries| - 1];
      var e := entries[|entries| - 1];
      TallySumsToRecordCount(prefix);
      BumpSums(Tally(prefix), e);
      assert Tally(entries) == Bump(Tally(prefix), e);
      assert DoneCount(entries) == DoneCount(prefix) + (if e.done then 1 else 0);
    }
  }

  /** Counting one record adds one to the totals and, when it is complete, one to the completed counts. */
  lemma BumpSums(stats: seq<GroupStat>, e: Entry)
    ensures TotalOf(Bump(stats, e)) == TotalOf(stats) + 1
    ensures CompletedOf(Bump(stats, e)) == CompletedOf(stats) + (if e.done then 1 else 0)
  {
    var one := if e.done then 1 else 0;
    match IndexOf(stats, e.group)
    case Some(i) =>
      SumsAfterUpdate(stats, i, GroupStat(e.group, stats[i].total + 1, stats[i].completed + one));
    case None =>
      var after := stats + [GroupStat(e.group, 1, one)];
      assert after[..|after| - 1] == stats;
  }

  /** The value a summary is sorted on. */
  datatype SortKey = ByTotal | ByCompleted

  function KeyOf(s: GroupStat, key: SortKey): nat
  {
    match key
    case ByTotal => s.total
    case ByCompleted => s.completed
  }

  predicate NonIncreasing(stats: seq<GroupStat>, key: SortKey)
  {
    forall i, j :: 0 <= i < j < |stats| ==> KeyOf(stats[i], key) >= KeyOf(stats[j], key)
  }

  /** Insert `x` after every entry whose key is at least its own, so ties keep their order. */
  function Insert(x: GroupStat, sorted: seq<GroupStat>, key: SortKey): (r: seq<GroupStat>)
    ensures multiset(r) == multiset(sorted) + multiset{x}
    ensures |r| == |sorted| + 1
  {
    if sorted == [] then [x]
    else if KeyOf(sorted[0], key) >= KeyOf(x, key) then
      assert sorted == [sorted[0]] + sorted[1..];
      [sorted[0]] + Insert(x, sorted[1..], key)
    else [x] + sorted
  }

  lemma {:induction false} InsertKeepsOrder(x: GroupStat, sorted: seq<GroupStat>, key: SortKey)
    requires NonIncreasing(sorted, key)
    ensures NonIncreasing(Insert(x, sorted, key), key)
  {
    if sorted != [] && KeyOf(sorted[0], key) >= KeyOf(x, key) {
      var tail := Insert(x, sorted[1..], key);
      InsertKeepsOrder(x, sorted[1..], key);
      InsertKeepsBound(x, sorted[1..], key, KeyOf(sorted[0], key));
      assert Insert(x, sorted, key) == [sorted[0]] + tail;
    }
  }

  /** Inserting an entry whose key is at most `b` into entries whose keys are at most `b` keeps every key at most `b`. */
  lemma {:induction false} InsertKeepsBound(x: GroupStat, sorted: seq<GroupStat>, key: SortKey, b: nat)
    requires KeyOf(x, key) <= b
    requires forall i :: 0 <= i < |sorted| ==> KeyOf(sorted[i], key) <= b
    ensures forall i :: 0 <= i < |Insert(x, sorted, key)| ==> KeyOf(Insert(x, sorted, key)[i], key) <= b
  {
    if sorted != [] && KeyOf(sorted[0], key) >= KeyOf(x, key) {
      InsertKeepsBound(x, sorted[1..], key, b);
      var tail := Insert(x, sorted[1..], key);
      assert Insert(x, sorted, key) == [sorted[0]] + tail;
    }
  }

  /** `sorted(stats, key=..., reverse=True)` as a stable insertion sort. */
  function Rank(stats: seq<GroupStat>, key: SortKey): (r: seq<GroupStat>)
    ensures multiset(r) == multiset(stats)
    ensures |r| == |stats|
  {
    if stats == [] then []
    else
      assert stats == stats[..|stats| - 1] + [stats[|stats| - 1]];
      Insert(stats[|stats| - 1], Rank(stats[..|stats| - 1], key), key)
  }

  lemma {:induction false} RankIsSorted(stats: seq<GroupStat>, key: SortKey)
    ensures NonIncreasing(Rank(stats, key), key)
  {
    if stats != [] {
      RankIsSorted(stats[..|stats| - 1], key);
      InsertKeepsOrder(stats[|stats| - 1], Rank(stats[..|stats| - 1], key), key);
    }
  }

  /**
    The printed lines: the first `n` entries of the ranking. They are in
    non-increasing key order, come from the dict, and no entry left out has a
    larger key than any entry shown.
   */
  function Top(stats: seq<GroupStat>, key: SortKey, n: nat): (r: seq<GroupStat>)
    ensures |r| == if |stats| < n then |stats| else n
    ensures NonIncreasing(r, key)
    ensures multiset(r) <= multiset(stats)
    ensures forall s, i :: s in stats && s !in r && 0 <= i < |r| ==> KeyOf(s, key) <= KeyOf(r[i], key)
  {
    var m := if |stats| < n then |stats| else n;
    RankedPrefix(stats, key, m);
    Rank(stats, key)[..m]
  }

  /** Any prefix of the ranking is sorted, drawn from the entries, and outranks the entries after it. */
  lemma RankedPrefix(stats: seq<GroupStat>, key: SortKey, m: nat)
    requires m <= |stats|
    ensures var r := Rank(stats, key)[..m];
      && NonIncreasing(r, key)
      && multiset(r) <= multiset(stats)
      && forall s, i :: s in stats && s !in r && 0 <= i < |r| ==> KeyOf(s, key) <= KeyOf(r[i], key)
  {
    var ranked := Rank(stats, key);
    RankIsSorted(stats, key);
    assert ranked == ranked[..m] + ranked[m..];
    PrefixOutranksRest(stats, ranked, key, m);
  }

  /** In a sorted permutation of `stats`, an entry outside the first `m` has no larger key than any inside. */
  lemma PrefixOutranksRest(stats: seq<GroupStat>, ranked: seq<GroupStat>, key: SortKey, m: nat)
    requires m <= |ranked|
    requires multiset(ranked) == multiset(stats)
    requires NonIncreasing(ranked, key)
    ensures forall s, i :: s in stats && s !in ranked[..m] && 0 <= i < m ==> KeyOf(s, key) <= KeyOf(ranked[i], key)
  {
    forall s, i | s in stats && s !in ranked[..m] && 0 <= i < m ensures KeyOf(s, key) <= KeyOf(ranked[i], key) {
      assert s in multiset(ranked);
      var j :| 0 <= j < |ranked| && ranked[j] == s;
    }
  }

  /** The "... and K more districts" line: how many entries the summary leaves out. */
  function Hidden(stats: seq<GroupStat>, n: nat): (k: nat)
    ensures k == |stats| - (if |stats| < n then |stats| else n)
    ensures forall key :: k + |Top(stats, key, n)| == |stats|
  {
    if |stats| > n then |stats| - n else 0
  }

  /** Distinct names: the dict has as many entries as there are districts. */
  lemma {:induction false} UniqueNamesCount(stats: seq<GroupStat>)
    requires UniqueNames(stats)
    ensures |NameSet(stats)| == |stats|
  {
    if stats != [] {
      var prefix := stats[..|stats| - 1];
      var last := stats[|stats| - 1];
      UniqueNamesCount(prefix);
      assert NameSet(stats) == NameSet(prefix) + {last.name} by {
        forall g | g in NameSet(stats) ensures g in NameSet(prefix) + {last.name} {
          var i :| 0 <= i < |stats| && stats[i].name == g;
          if i < |stats| - 1 {
            assert prefix[i] == stats[i];
          }
        }
        forall g | g in NameSet(prefix) ensures g in NameSet(stats) {
          var i :| 0 <= i < |prefix| && prefix[i].name == g;
          assert stats[i] == prefix[i];
        }
      }
      assert last.name !in NameSet(prefix) by {
        forall i | 0 <= i < |prefix| ensures prefix[i].name != last.name {
          assert prefix[i] == stats[i];
        }
      }
    }
  }

  /** A printed summary: the rows shown, and how many districts it leaves out. */
  datatype Summary = Summary(shown: seq<GroupStat>, hidden: nat)

  /** Tally the entries, rank by `key` and keep the first `n`. */
  function Summarize(entries: seq<Entry>, key: SortKey, n: nat): Summary
  {
    var stats := Tally(entries);
    Summary(Top(stats, key, n), Hidden(stats, n))
  }

  /** The key a district is ranked on, computed from the entries directly. */
  function GroupKey(entries: seq<Entry>, name: string, key: SortKey): nat
  {
    match key
    case ByTotal => CountOf(entries, name)
    case ByCompleted => DoneOf(entries, name)
  }

  /**
    The summary shows `min(n, #districts)` rows in non-increasing key order,
    and the rows shown and the rows hidden together cover every district.
   */
  lemma SummarySize(entries: seq<Entry>, key: SortKey, n: nat)
    ensures var s := Summarize(entries, key, n);
      && |s.shown| == (if |GroupSet(entries)| < n then |GroupSet(entries)| else n)
      && |s.shown| + s.hidden == |GroupSet(entries)|
      && NonIncreasing(s.shown, key)
  {
    TallyNames(entries);
    UniqueNamesCount(Tally(entries));
  }

  /** Each row shown is a district that occurs, with its record count and complete count. */
  lemma SummaryRowsAreCounts(entries: seq<Entry>, key: SortKey, n: nat)
    ensures var s := Summarize(entries, key, n);
      forall i :: 0 <= i < |s.shown| ==>
        && s.shown[i].name in GroupSet(entries)
        && s.shown[i].total == CountOf(entries, s.shown[i].name)
        && s.shown[i].completed == DoneOf(entries, s.shown[i].name)
  {
    var stats := Tally(entries);
    var shown := Top(stats, key, n);
    TallyCountsEachDistrict(entries);
    forall i | 0 <= i < |shown|
      ensures && shown[i].name in GroupSet(entries)
              && shown[i].total == CountOf(entries, shown[i].name)
              && shown[i].completed == DoneOf(entries, shown[i].name)
    {
      assert shown[i] in multiset(shown);
      assert shown[i] in multiset(stats);
      var j :| 0 <= j < |stats| && stats[j] == shown[i];
      assert stats[j].name in NameSet(stats);
    }
  }

  /** No district left out of the summary outranks a district shown. */
  lemma SummaryHidesNoLarger(entries: seq<Entry>, key: SortKey, n: nat)
    ensures var s := Summarize(entries, key, n);
      forall g, i :: g in GroupSet(entries) && g !in NameSet(s.shown) && 0 <= i < |s.shown| ==>
        GroupKey(entries, g, key) <= KeyOf(s.shown[i], key)
  {
    var stats := Tally(entries);
    var shown := Top(stats, key, n);
    TallyCountsEachDistrict(entries);
    forall g, i | g in GroupSet(entries) && g !in NameSet(shown) && 0 <= i < |shown|
      ensures GroupKey(entries, g, key) <= KeyOf(shown[i], key)
    {
      assert g in NameSet(stats);
      var j :| 0 <= j < |stats| && stats[j].name == g;
      assert stats[j] !in shown by {
        forall k | 0 <= k < |shown| ensures shown[k] != stats[j] {
          assert shown[k].name in NameSet(shown);
        }
      }
      assert stats[j] in stats;
      assert KeyOf(stats[j], key) <= KeyOf(shown[i], key);
      assert GroupKey(entries, g, key) == KeyOf(stats[j], key);
    }
  }
}
