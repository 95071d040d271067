/** Aggregates the pages derive from a record list: `filter(...).length`
    tiles, `new Set(...).size` tiles, the `filter(r => r[id] !== target)`
    used after a delete, and the `slice(0, n)` the tables and cards show. */
module Counting {
  import opened Js

  /** `rs.filter(r => r[key] === v).length`. */
  function CountEq(rs: seq<Record>, key: string, v: Value): (n: nat)
    ensures n <= |rs|
  {
    if rs == [] then 0 else CountEq(rs[..|rs| - 1], key, v) + (if Get(rs[|rs| - 1], key) == v then 1 else 0)
  }

  /** Tiles that count three different values of one property never add up to more than the total. */
  lemma {:induction false} ThreeCountsBounded(rs: seq<Record>, key: string, a: Value, b: Value, c: Value)
    requires a != b && b != c && a != c
    ensures CountEq(rs, key, a) + CountEq(rs, key, b) + CountEq(rs, key, c) <= |rs|
  {
    if rs != [] {
      ThreeCountsBounded(rs[..|rs| - 1], key, a, b, c);
    }
  }

  lemma {:induction false} CountEqAppend(rs: seq<Record>, more: seq<Record>, key: string, v: Value)
    ensures CountEq(rs + more, key, v) == CountEq(rs, key, v) + CountEq(more, key, v)
    decreases |more|
  {
    if more == [] {
      assert rs + more == rs;
    } else {
      assert (rs + more)[..|rs + more| - 1] == rs + more[..|more| - 1];
      CountEqAppend(rs, more[..|more| - 1], key, v);
    }
  }

  /** `[...new Set(vs)].length`: the number of distinct values. */
  function DistinctCount(vs: seq<Value>): nat {
    |set v | v in vs|
  }

  lemma {:induction false} DistinctCountBounds(vs: seq<Value>)
    ensures DistinctCount(vs) <= |vs|
    ensures DistinctCount(vs) == 0 <==> vs == []
    ensures vs != [] ==> DistinctCount(vs) >= 1
  {
    if vs != [] {
      var init := vs[..|vs| - 1];
      DistinctCountBounds(init);
      assert (set v | v in vs) == (set v | v in init) + {vs[|vs| - 1]} by {
        forall v | v in vs ensures v in init || v == vs[|vs| - 1] {
          var i :| 0 <= i < |vs| && vs[i] == v;
          if i < |vs| - 1 { assert init[i] == v; }
        }
        assert vs == init + [vs[|vs| - 1]];
      }
      assert vs[|vs| - 1] in (set v | v in vs);
    }
  }

  /** `rs.filter(r => r[key] !== id)`: what a page keeps after deleting `id`. */
  function Without(rs: seq<Record>, key: string, id: Value): (kept: seq<Record>)
    ensures |kept| <= |rs|
    ensures forall r :: r in kept ==> r in rs && Get(r, key) != id
  {
    if rs == [] then []
    else if Get(rs[0], key) == id then Without(rs[1..], key, id)
    else [rs[0]] + Without(rs[1..], key, id)
  }

  /** Every record without the deleted id survives the delete, and nothing
      else does; the number removed is the number that carried the id. */
  lemma {:induction false} WithoutExactly(rs: seq<Record>, key: string, id: Value)
    ensures forall r :: r in Without(rs, key, id) <==> r in rs && Get(r, key) != id
    ensures |Without(rs, key, id)| == |rs| - CountEq(rs, key, id)
    decreases |rs|
  {
    if rs != [] {
      WithoutExactly(rs[1..], key, id);
      assert rs == [rs[0]] + rs[1..];
      CountEqAppend([rs[0]], rs[1..], key, id);
      assert CountEq([rs[0]], key, id) == (if Get(rs[0], key) == id then 1 else 0) by {
        assert [rs[0]][..0] == [];
      }
    }
  }

  /** The filter keeps the surviving records in their original relative order. */
  lemma {:induction false} WithoutAppend(rs: seq<Record>, more: seq<Record>, key: string, id: Value)
    ensures Without(rs + more, key, id) == Without(rs, key, id) + Without(more, key, id)
    decreases |rs|
  {
    if rs == [] {
      assert rs + more == more;
    } else {
      assert (rs + more)[0] == rs[0];
      assert (rs + more)[1..] == rs[1..] + more;
      WithoutAppend(rs[1..], more, key, id);
    }
  }

  /** A delete of an id nobody carries leaves the list exactly as it was. */
  lemma {:induction false} WithoutAbsent(rs: seq<Record>, key: string, id: Value)
    requires forall r :: r in rs ==> Get(r, key) != id
    ensures Without(rs, key, id) == rs
    decreases |rs|
  {
    if rs != [] {
      assert forall r :: r in rs[1..] ==> r in rs;
      WithoutAbsent(rs[1..], key, id);
    }
  }

  /** `rs.slice(0, n)`. */
  function FirstN<T>(rs: seq<T>, n: nat): (shown: seq<T>)
    ensures |shown| == if |rs| < n then |rs| else n
    ensures shown <= rs
  {
    if |rs| < n then rs else rs[..n]
  }
}
