/**
 * `FBStatisticsView`: the season and month totals and the berry types
 * collected most often, all computed from the entries the screen loaded
 * (newest first). `Calendar` is a parameter giving an instant's month and year.
 */
module Statistics {
  import opened Wrappers
  import opened Metrics
  import opened Records
  import opened Lists
  import opened JournalStore

  /** `Int($0.quantity)`; only finite quantities reach it (see `TotalSeasonQuantity`). */
  function WholeQuantity(e: HarvestEntry): int {
    if e.quantity.Finite? then TruncateToInt(e.quantity) else 0
  }

  predicate AllFinite(entries: seq<HarvestEntry>) {
    forall i :: 0 <= i < |entries| ==> entries[i].quantity.Finite?
  }

  /** `totalSeasonQuantity`: the truncated quantities added up. `Int(_:)`
      traps on NaN and the infinities; entries read from the store never hold them. */
  function TotalSeasonQuantity(entries: seq<HarvestEntry>): (r: int)
    requires AllFinite(entries)
    ensures (forall i :: 0 <= i < |entries| ==> entries[i].quantity.value >= 0.0) ==> r >= 0
  {
    NonNegativeSum(entries);
    SumOf(entries, WholeQuantity)
  }

  lemma {:induction false} NonNegativeSum(entries: seq<HarvestEntry>)
    requires AllFinite(entries)
    ensures (forall i :: 0 <= i < |entries| ==> entries[i].quantity.value >= 0.0) ==> SumOf(entries, WholeQuantity) >= 0
  {
    if entries != [] {
      NonNegativeSum(entries[1..]);
      assert forall i :: 1 <= i < |entries| ==> entries[1..][i - 1] == entries[i];
    }
  }

  /** The screen's order does not matter: the total over the loaded,
      newest-first list is the total over the stored list. */
  lemma SeasonTotalOfLoaded(data: Option<Body>)
    ensures AllFinite(NewestFirst(EntriesIn(data)))
    ensures TotalSeasonQuantity(NewestFirst(EntriesIn(data))) == SumOf(EntriesIn(data), WholeQuantity)
  {
    var es := EntriesIn(data);
    var sorted := NewestFirst(es);
    forall i | 0 <= i < |sorted|
      ensures sorted[i].quantity.Finite?
    {
      assert sorted[i] in multiset(es);
    }
    SumOfSortDesc(es, EntryDate, WholeQuantity);
  }

  /** The entries dated in month `month` of year `year`. */
  function InMonth(entries: seq<HarvestEntry>, calendar: Date -> (int, int), month: int, year: int): (r: seq<HarvestEntry>)
    ensures forall i :: 0 <= i < |r| ==> r[i] in entries && calendar(r[i].date) == (month, year)
    ensures forall i :: 0 <= i < |entries| && calendar(entries[i].date) == (month, year) ==> entries[i] in r
  {
    if entries == [] then []
    else if calendar(entries[0].date) == (month, year) then [entries[0]] + InMonth(entries[1..], calendar, month, year)
    else InMonth(entries[1..], calendar, month, year)
  }

  /** Each entry counted as often as before when it is dated in that month,
      and not at all otherwise. */
  lemma {:induction false} InMonthMultiset(entries: seq<HarvestEntry>, calendar: Date -> (int, int), month: int, year: int)
    ensures forall e :: multiset(InMonth(entries, calendar, month, year))[e]
                     == if calendar(e.date) == (month, year) then multiset(entries)[e] else 0
  {
    if entries != [] {
      InMonthMultiset(entries[1..], calendar, month, year);
      assert entries == [entries[0]] + entries[1..];
    }
  }

  /** An entry's truncated quantity when it is dated in that month, zero otherwise. */
  function MonthWeight(calendar: Date -> (int, int), month: int, year: int): HarvestEntry -> int {
    (e: HarvestEntry) => if calendar(e.date) == (month, year) then WholeQuantity(e) else 0
  }

  /** Filtering the month first and adding up is adding up with every other
      month weighted zero. */
  lemma {:induction false} InMonthSum(entries: seq<HarvestEntry>, calendar: Date -> (int, int), month: int, year: int)
    ensures SumOf(InMonth(entries, calendar, month, year), WholeQuantity) == SumOf(entries, MonthWeight(calendar, month, year))
  {
    if entries != [] {
      InMonthSum(entries[1..], calendar, month, year);
    }
  }

  /** `totalMonthQuantity`: the season total of this month's entries; `now`
      is `Date()`. It is the sum over all entries with the other months
      counted as zero. */
  function TotalMonthQuantity(entries: seq<HarvestEntry>, calendar: Date -> (int, int), now: Date): (r: int)
    requires AllFinite(entries)
    ensures r == SumOf(entries, MonthWeight(calendar, calendar(now).0, calendar(now).1))
  {
    var (month, year) := calendar(now);
    var current := InMonth(entries, calendar, month, year);
    assert forall i :: 0 <= i < |current| ==> current[i] in entries;
    InMonthSum(entries, calendar, month, year);
    TotalSeasonQuantity(current)
  }

  /** With no negative quantities, the month never exceeds the season, and
      when every entry is from this month the two agree. */
  lemma {:induction false} MonthWithinSeason(entries: seq<HarvestEntry>, calendar: Date -> (int, int), now: Date)
    requires AllFinite(entries)
    requires forall i :: 0 <= i < |entries| ==> entries[i].quantity.value >= 0.0
    ensures TotalMonthQuantity(entries, calendar, now) <= TotalSeasonQuantity(entries)
    ensures (forall i :: 0 <= i < |entries| ==> calendar(entries[i].date) == calendar(now)) ==>
      TotalMonthQuantity(entries, calendar, now) == TotalSeasonQuantity(entries)
  {
    if entries != [] {
      MonthWithinSeason(entries[1..], calendar, now);
      assert TruncateToInt(entries[0].quantity) >= 0;
    }
  }

  /** How many entries have that berry type. */
  function CountOf(entries: seq<HarvestEntry>, berry: string): nat {
    if entries == [] then 0
    else (if entries[0].berryType == berry then 1 else 0) + CountOf(entries[1..], berry)
  }

  lemma {:induction false} CountOfAppend(entries: seq<HarvestEntry>, e: HarvestEntry, berry: string)
    ensures CountOf(entries + [e], berry) == CountOf(entries, berry) + (if e.berryType == berry then 1 else 0)
  {
    if entries == [] {
      assert entries + [e] == [e];
    } else {
      assert (entries + [e])[1..] == entries[1..] + [e];
      CountOfAppend(entries[1..], e, berry);
    }
  }

  lemma {:induction false} CountOfPresent(entries: seq<HarvestEntry>, i: nat)
    requires i < |entries|
    ensures CountOf(entries, entries[i].berryType) >= 1
  {
    if i > 0 {
      CountOfPresent(entries[1..], i - 1);
    }
  }

  /** The value of a `(key, value)` pair. */
  function Count(p: (string, int)): int { p.1 }

  /** The keys of a list of pairs. */
  function KeySet(counts: seq<(string, int)>): set<string> {
    set i | 0 <= i < |counts| :: counts[i].0
  }

  /** One more entry for `berry`: bump its count, or list it with count 1. */
  function Bump(counts: seq<(string, int)>, berry: string): seq<(string, int)> {
    if counts == [] then [(berry, 1)]
    else if counts[0].0 == berry then [(berry, counts[0].1 + 1)] + counts[1..]
    else [counts[0]] + Bump(counts[1..], berry)
  }

  /** Bumping adds one to `berry`'s count, starting from zero, and leaves
      every other count alone. */
  lemma {:induction false} BumpLookup(counts: seq<(string, int)>, berry: string, key: string)
    ensures Lookup(Bump(counts, berry), key) == if key == berry then Some(Lookup(counts, berry).GetOr(0) + 1) else Lookup(counts, key)
  {
    if counts != [] && counts[0].0 != berry {
      BumpLookup(counts[1..], berry, key);
      assert Bump(counts, berry)[1..] == Bump(counts[1..], berry);
    } else if counts != [] {
      assert Bump(counts, berry)[1..] == counts[1..];
    }
  }

  lemma KeySetCons(p: (string, int), rest: seq<(string, int)>)
    ensures KeySet([p] + rest) == {p.0} + KeySet(rest)
  {
    var xs := [p] + rest;
    forall k | k in KeySet(xs)
      ensures k in {p.0} + KeySet(rest)
    {
      var i :| 0 <= i < |xs| && xs[i].0 == k;
      if i > 0 {
        assert rest[i - 1].0 == k;
      }
    }
    forall k | k in KeySet(rest)
      ensures k in KeySet(xs)
    {
      var i :| 0 <= i < |rest| && rest[i].0 == k;
      assert xs[i + 1].0 == k;
    }
    assert xs[0].0 == p.0;
  }

  lemma {:induction false} BumpKeySet(counts: seq<(string, int)>, berry: string)
    ensures KeySet(Bump(counts, berry)) == KeySet(counts) + {berry}
  {
    var r := Bump(counts, berry);
    if counts == [] {
      assert r[0].0 == berry;
    } else {
      assert counts == [counts[0]] + counts[1..];
      KeySetCons(counts[0], counts[1..]);
      if counts[0].0 == berry {
        KeySetCons((berry, counts[0].1 + 1), counts[1..]);
      } else {
        BumpKeySet(counts[1..], berry);
        KeySetCons(counts[0], Bump(counts[1..], berry));
      }
    }
  }

  /** Bumping keeps the keys distinct. */
  lemma {:induction false} BumpKeepsKeysDistinct(counts: seq<(string, int)>, berry: string)
    requires DistinctKeys(counts)
    ensures DistinctKeys(Bump(counts, berry))
  {
    if counts != [] && counts[0].0 != berry {
      var tail := counts[1..];
      assert DistinctKeys(tail);
      BumpKeepsKeysDistinct(tail, berry);
      BumpKeySet(tail, berry);
      var rt := Bump(tail, berry);
      assert counts[0].0 !in KeySet(tail) by {
        assert forall i :: 1 <= i < |counts| ==> counts[i] == tail[i - 1];
      }
      assert forall i :: 0 <= i < |rt| ==> rt[i].0 in KeySet(rt);
      assert Bump(counts, berry) == [counts[0]] + rt;
    }
  }

  /** Bumping keeps every count at least one. */
  lemma {:induction false} BumpKeepsCountsPositive(counts: seq<(string, int)>, berry: string)
    requires forall i :: 0 <= i < |counts| ==> counts[i].1 >= 1
    ensures forall i :: 0 <= i < |Bump(counts, berry)| ==> Bump(counts, berry)[i].1 >= 1
  {
    if counts != [] && counts[0].0 != berry {
      BumpKeepsCountsPositive(counts[1..], berry);
      assert Bump(counts, berry) == [counts[0]] + Bump(counts[1..], berry);
    }
  }

  /** Bumping adds one to the total. */
  lemma {:induction false} BumpAddsOne(counts: seq<(string, int)>, berry: string)
    ensures SumOf(Bump(counts, berry), Count) == SumOf(counts, Count) + 1
  {
    if counts != [] {
      if counts[0].0 == berry {
        assert Bump(counts, berry)[1..] == counts[1..];
      } else {
        BumpAddsOne(counts[1..], berry);
        assert Bump(counts, berry)[1..] == Bump(counts[1..], berry);
      }
    }
  }

  /** Bumping keeps the keys distinct, the counts positive, and adds one to the total. */
  lemma BumpKeepsShape(counts: seq<(string, int)>, berry: string)
    requires DistinctKeys(counts) && forall i :: 0 <= i < |counts| ==> counts[i].1 >= 1
    ensures DistinctKeys(Bump(counts, berry))
    ensures forall i :: 0 <= i < |Bump(counts, berry)| ==> Bump(counts, berry)[i].1 >= 1
    ensures SumOf(Bump(counts, berry), Count) == SumOf(counts, Count) + 1
  {
    BumpKeepsKeysDistinct(counts, berry);
    BumpKeepsCountsPositive(counts, berry);
    BumpAddsOne(counts, berry);
  }

  /** `Dictionary(grouping: entries) { $0.berryType }.mapValues { $0.count }`,
      listed in order of first appearance (the dictionary's own order is unspecified). */
  function Grouped(entries: seq<HarvestEntry>): (r: seq<(string, int)>)
    ensures entries == [] <==> r == []
  {
    if entries == [] then []
    else Bump(Grouped(entries[..|entries| - 1]), entries[|entries| - 1].berryType)
  }

  /** The grouping is a dictionary from berry type to its number of entries:
      keys distinct, counts positive, absent types count zero, and the
      counts add up to the number of entries. */
  lemma {:induction false} GroupedSpec(entries: seq<HarvestEntry>)
    ensures DistinctKeys(Grouped(entries))
    ensures forall i :: 0 <= i < |Grouped(entries)| ==> Grouped(entries)[i].1 >= 1
    ensures forall berry :: Lookup(Grouped(entries), berry).GetOr(0) == CountOf(entries, berry)
    ensures SumOf(Grouped(entries), Count) == |entries|
  {
    if entries != [] {
      var init := entries[..|entries| - 1];
      var e := entries[|entries| - 1];
      assert entries == init + [e];
      GroupedSpec(init);
      BumpKeepsShape(Grouped(init), e.berryType);
      forall berry
        ensures Lookup(Grouped(entries), berry).GetOr(0) == CountOf(entries, berry)
      {
        BumpLookup(Grouped(init), e.berryType, berry);
        CountOfAppend(init, e, berry);
      }
    }
  }

  /** `mostCommonBerries`: the counts, most frequent first; ties in no fixed order. */
  function MostCommonBerries(entries: seq<HarvestEntry>): (r: seq<(string, int)>)
    ensures SortedDesc(r, Count)
    ensures multiset(r) == multiset(Grouped(entries))
  {
    SortDesc(Grouped(entries), Count)
  }

  /** Sorting pairs by value keeps their keys distinct. */
  lemma {:induction false} SortKeepsDistinctKeys(xs: seq<(string, int)>)
    requires DistinctKeys(xs)
    ensures DistinctKeys(SortDesc(xs, Count))
  {
    if xs != [] {
      var tail := xs[1..];
      SortKeepsDistinctKeys(tail);
      var ys := SortDesc(tail, Count);
      forall j | 0 <= j < |ys|
        ensures ys[j].0 != xs[0].0
      {
        assert ys[j] in multiset(tail);
        var m :| 0 <= m < |tail| && tail[m] == ys[j];
        assert xs[m + 1] == ys[j];
      }
      InsertKeepsDistinctKeys(xs[0], ys);
    }
  }

  lemma {:induction false} InsertKeepsDistinctKeys(x: (string, int), ys: seq<(string, int)>)
    requires SortedDesc(ys, Count) && DistinctKeys(ys)
    requires forall j :: 0 <= j < |ys| ==> ys[j].0 != x.0
    ensures DistinctKeys(InsertDesc(x, ys, Count))
  {
    if ys != [] && Count(x) < Count(ys[0]) {
      var tail := ys[1..];
      assert forall j :: 0 <= j < |tail| ==> tail[j] == ys[j + 1];
      InsertKeepsDistinctKeys(x, tail);
      var rest := InsertDesc(x, tail, Count);
      InsertedKeys(x, tail, ys[0].0);
      var r := InsertDesc(x, ys, Count);
      assert r[1..] == rest;
    }
  }

  /** A key that is neither `x`'s nor in `ys` is not in the insertion either. */
  lemma InsertedKeys(x: (string, int), ys: seq<(string, int)>, key: string)
    requires SortedDesc(ys, Count)
    requires x.0 != key && forall j :: 0 <= j < |ys| ==> ys[j].0 != key
    ensures forall k :: 0 <= k < |InsertDesc(x, ys, Count)| ==> InsertDesc(x, ys, Count)[k].0 != key
  {
    var r := InsertDesc(x, ys, Count);
    forall k | 0 <= k < |r|
      ensures r[k].0 != key
    {
      assert r[k] in multiset(r);
      if r[k] != x {
        assert r[k] in multiset(ys);
      }
    }
  }

  /** Each listed berry type carries its number of entries. */
  lemma MostCommonBerriesCounts(entries: seq<HarvestEntry>)
    ensures var r := MostCommonBerries(entries);
      forall i :: 0 <= i < |r| ==> r[i].1 == CountOf(entries, r[i].0) >= 1
  {
    var g := Grouped(entries);
    var r := MostCommonBerries(entries);
    GroupedSpec(entries);
    forall i | 0 <= i < |r|
      ensures r[i].1 == CountOf(entries, r[i].0) >= 1
    {
      assert r[i] in multiset(g);
      LookupFindsMember(g, r[i].0, r[i].1);
      var m :| 0 <= m < |g| && g[m] == r[i];
    }
  }

  /** Every berry type of the entries is listed, and only once. */
  lemma MostCommonBerriesListsEachTypeOnce(entries: seq<HarvestEntry>)
    ensures var r := MostCommonBerries(entries);
      DistinctKeys(r) && forall i :: 0 <= i < |entries| ==> entries[i].berryType in KeySet(r)
  {
    var g := Grouped(entries);
    var r := MostCommonBerries(entries);
    GroupedSpec(entries);
    SortKeepsDistinctKeys(g);
    forall i | 0 <= i < |entries|
      ensures entries[i].berryType in KeySet(r)
    {
      var t := entries[i].berryType;
      CountOfPresent(entries, i);
      assert Lookup(g, t).Some?;
      assert (t, Lookup(g, t).value) in multiset(r);
      var k :| 0 <= k < |r| && r[k] == (t, Lookup(g, t).value);
    }
  }

  /** The counts add up to the number of entries. */
  lemma MostCommonBerriesTotal(entries: seq<HarvestEntry>)
    ensures SumOf(MostCommonBerries(entries), Count) == |entries|
  {
    GroupedSpec(entries);
    SumOfSortDesc(Grouped(entries), Count, Count);
  }

  /** `mostCommonBerries.prefix(3)`: the rows the screen shows, at most three,
      the most frequent first. */
  function ShownBerries(entries: seq<HarvestEntry>): (r: seq<(string, int)>)
    ensures |r| == if |MostCommonBerries(entries)| < 3 then |MostCommonBerries(entries)| else 3
    ensures r == MostCommonBerries(entries)[..|r|]
  {
    var all := MostCommonBerries(entries);
    if |all| < 3 then all else all[..3]
  }
}
