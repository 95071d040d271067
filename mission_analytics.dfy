/** The Mission Analytics panel: the status and type count maps folded from
    the mission list, their chart data, and the three summary cards. */
module MissionAnalytics {
  import opened Js
  import opened Counting

  /** One `{ name, value }` of the chart data: a property value and how many
      missions carry it. The list keeps the order in which the names were
      first met, as `Object.entries` does for string keys. */
  datatype Entry = Entry(name: Value, value: nat)

  function NameSet(t: seq<Entry>): set<Value> {
    set e | e in t :: e.name
  }

  /** No name appears twice: the first is not among the rest, and so on. */
  predicate DistinctNames(t: seq<Entry>) {
    t == [] || (t[0].name !in NameSet(t[1..]) && DistinctNames(t[1..]))
  }

  /** `acc[k] || 0`. */
  function Lookup(t: seq<Entry>, k: Value): nat {
    if t == [] then 0 else if t[0].name == k then t[0].value else Lookup(t[1..], k)
  }

  function Total(t: seq<Entry>): nat {
    if t == [] then 0 else t[0].value + Total(t[1..])
  }

  /** `acc[k] = (acc[k] || 0) + 1`: the entry for `k` goes up by one in its
      place, or a new entry with 1 is added at the end. */
  function Bump(t: seq<Entry>, k: Value): (u: seq<Entry>)
    ensures |u| == |t| || |u| == |t| + 1
  {
    if t == [] then [Entry(k, 1)]
    else if t[0].name == k then [Entry(k, t[0].value + 1)] + t[1..]
    else [t[0]] + Bump(t[1..], k)
  }

  lemma {:induction false} BumpLookup(t: seq<Entry>, k: Value, x: Value)
    ensures Lookup(Bump(t, k), x) == Lookup(t, x) + (if x == k then 1 else 0)
  {
    if t != [] && t[0].name != k {
      BumpLookup(t[1..], k, x);
      assert Bump(t, k)[1..] == Bump(t[1..], k);
    }
  }

  lemma {:induction false} BumpTotal(t: seq<Entry>, k: Value)
    ensures Total(Bump(t, k)) == Total(t) + 1
  {
    if t != [] && t[0].name != k {
      BumpTotal(t[1..], k);
      assert Bump(t, k)[1..] == Bump(t[1..], k);
    } else if t != [] {
      assert Bump(t, k)[1..] == t[1..];
    }
  }

  lemma {:induction false} BumpNames(t: seq<Entry>, k: Value)
    ensures NameSet(Bump(t, k)) == NameSet(t) + {k}
  {
    if t != [] {
      assert t == [t[0]] + t[1..];
      assert NameSet(t) == {t[0].name} + NameSet(t[1..]);
      if t[0].name == k {
        assert NameSet(Bump(t, k)) == {k} + NameSet(t[1..]);
      } else {
        BumpNames(t[1..], k);
        assert NameSet(Bump(t, k)) == {t[0].name} + NameSet(Bump(t[1..], k));
      }
    }
  }

  /** Bumping keeps the names distinct and every count positive. */
  lemma {:induction false} BumpKeepsShape(t: seq<Entry>, k: Value)
    requires DistinctNames(t) && forall e :: e in t ==> e.value >= 1
    ensures DistinctNames(Bump(t, k)) && forall e :: e in Bump(t, k) ==> e.value >= 1
  {
    if t != [] {
      var rest := t[1..];
      assert forall e :: e in rest ==> e in t;
      var u := Bump(t, k);
      if t[0].name == k {
        assert u[1..] == rest;
        assert forall e :: e in u ==> e == u[0] || e in rest;
      } else {
        BumpKeepsShape(rest, k);
        BumpNames(rest, k);
        assert u[1..] == Bump(rest, k);
        assert forall e :: e in u ==> e == t[0] || e in Bump(rest, k);
      }
    }
  }

  /** `missions.reduce((acc, m) => { acc[m[key]] = (acc[m[key]] || 0) + 1; ... }, {})`. */
  function Tally(ms: seq<Record>, key: string): (t: seq<Entry>)
    ensures |t| <= |ms|
    ensures ms != [] ==> t != []
  {
    if ms == [] then [] else Bump(Tally(ms[..|ms| - 1], key), Get(ms[|ms| - 1], key))
  }

  /** `statusData[v] || 0` is the number of missions whose property is `v`. */
  lemma {:induction false} TallyCounts(ms: seq<Record>, key: string, v: Value)
    ensures Lookup(Tally(ms, key), v) == CountEq(ms, key, v)
  {
    if ms != [] {
      TallyCounts(ms[..|ms| - 1], key, v);
      BumpLookup(Tally(ms[..|ms| - 1], key), Get(ms[|ms| - 1], key), v);
    }
  }

  /** The counts add up to the number of missions. */
  lemma {:induction false} TallyTotal(ms: seq<Record>, key: string)
    ensures Total(Tally(ms, key)) == |ms|
  {
    if ms != [] {
      TallyTotal(ms[..|ms| - 1], key);
      BumpTotal(Tally(ms[..|ms| - 1], key), Get(ms[|ms| - 1], key));
    }
  }

  /** One chart entry per value met, each with a count of at least 1. */
  lemma {:induction false} TallyShape(ms: seq<Record>, key: string)
    ensures NameSet(Tally(ms, key)) == set v | v in Column(ms, key)
    ensures DistinctNames(Tally(ms, key))
    ensures forall e :: e in Tally(ms, key) ==> e.value >= 1
  {
    if ms != [] {
      var init := ms[..|ms| - 1];
      var last := Get(ms[|ms| - 1], key);
      TallyShape(init, key);
      BumpNames(Tally(init, key), last);
      BumpKeepsShape(Tally(init, key), last);
      assert Column(ms, key) == Column(init, key) + [last];
    }
  }

  /** The chart has exactly as many slices as there are distinct values. */
  lemma TallyLength(ms: seq<Record>, key: string)
    ensures |Tally(ms, key)| == DistinctCount(Column(ms, key))
  {
    TallyShape(ms, key);
    DistinctNamesCard(Tally(ms, key));
  }

  lemma {:induction false} DistinctNamesCard(t: seq<Entry>)
    requires DistinctNames(t)
    ensures |NameSet(t)| == |t|
  {
    if t != [] {
      var rest := t[1..];
      DistinctNamesCard(rest);
      assert t == [t[0]] + rest;
      assert NameSet(t) == {t[0].name} + NameSet(rest);
    }
  }

  /** In a list with distinct names, looking up an entry's name finds that entry. */
  lemma {:induction false} LookupFinds(t: seq<Entry>, e: Entry)
    requires DistinctNames(t) && e in t
    ensures Lookup(t, e.name) == e.value
  {
    if t[0] != e {
      assert e in t[1..];
      assert e.name in NameSet(t[1..]);
      LookupFinds(t[1..], e);
    }
  }

  /** Every slice of the chart carries the number of missions with its name. */
  lemma ChartValuesAreCounts(ms: seq<Record>, key: string)
    ensures forall e :: e in Tally(ms, key) ==> e.value == CountEq(ms, key, e.name)
  {
    TallyShape(ms, key);
    forall e | e in Tally(ms, key) ensures e.value == CountEq(ms, key, e.name) {
      LookupFinds(Tally(ms, key), e);
      TallyCounts(ms, key, e.name);
    }
  }

  function StatusChart(ms: seq<Record>): seq<Entry> {
    Tally(ms, "status")
  }

  function TypeChart(ms: seq<Record>): seq<Entry> {
    Tally(ms, "mission_type")
  }

  /** The Total, Active and Completed cards. */
  datatype Cards = Cards(total: nat, active: nat, completed: nat)

  function CardsOf(ms: seq<Record>): (c: Cards)
    ensures c.total == |ms|
    ensures c.active == CountEq(ms, "status", Str("Active"))
    ensures c.completed == CountEq(ms, "status", Str("Completed"))
    ensures c.active + c.completed <= c.total
  {
    TallyCounts(ms, "status", Str("Active"));
    TallyCounts(ms, "status", Str("Completed"));
    ThreeCountsBounded(ms, "status", Str("Active"), Str("Completed"), Null);
    var statusData := StatusChart(ms);
    Cards(|ms|, Lookup(statusData, Str("Active")), Lookup(statusData, Str("Completed")))
  }
}
