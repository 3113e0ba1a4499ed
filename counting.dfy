/**
 * Occurrence counts, first-occurrence de-duplication (`Array.from(new Set(xs))`, and the
 * insertion order of a dictionary filled in a loop), and the fact that counting every
 * distinct value once accounts for the whole sequence.
 */
module Counting {

  /** Number of occurrences of `x` in `s`. */
  function Count<T(==)>(s: seq<T>, x: T): nat {
    if s == [] then 0 else Count(s[..|s| - 1], x) + (if s[|s| - 1] == x then 1 else 0)
  }

  predicate Distinct<T(==)>(s: seq<T>) {
    forall i, j :: 0 <= i < j < |s| ==> s[i] != s[j]
  }

  /** The index of the first occurrence of `x` in `s`. */
  function FirstIndex<T(==)>(s: seq<T>, x: T): (i: nat)
    requires x in s
    ensures i < |s| && s[i] == x
    ensures forall m :: 0 <= m < i ==> s[m] != x
  {
    if s[0] == x then 0
    else
      var j := FirstIndex(s[1..], x);
      1 + j
  }

  /** The distinct values of `s`, each once, in the order of their first occurrence. */
  function Dedup<T(==)>(s: seq<T>): (r: seq<T>)
    ensures Distinct(r)
    ensures forall i :: 0 <= i < |r| ==> r[i] in s
    ensures forall i :: 0 <= i < |s| ==> s[i] in r
    ensures |r| <= |s|
  {
    if s == [] then []
    else
      var front := Dedup(s[..|s| - 1]);
      var x := s[|s| - 1];
      assert forall i :: 0 <= i < |s| - 1 ==> s[i] == s[..|s| - 1][i];
      if x in front then front else front + [x]
  }

  /** A value is among the de-duplicated values exactly when it occurs in `s`. */
  lemma DedupMiembros<T>(s: seq<T>)
    ensures forall x :: x in Dedup(s) <==> x in s
  {
    forall x ensures x in Dedup(s) <==> x in s {
      var d := Dedup(s);
      if x in d {
        var k :| 0 <= k < |d| && d[k] == x;
      }
      if x in s {
        var k :| 0 <= k < |s| && s[k] == x;
      }
    }
  }

  /** One more element of a prefix. */
  lemma PrefijoSiguiente<T>(s: seq<T>, i: nat)
    requires i < |s|
    ensures s[..i + 1] == s[..i] + [s[i]]
  {
  }

  /** The whole prefix is the sequence. */
  lemma PrefijoTotal<T>(s: seq<T>)
    ensures s[..|s|] == s
  {
  }

  lemma CountSnoc<T>(s: seq<T>, x: T, y: T)
    ensures Count(s + [x], y) == Count(s, y) + (if x == y then 1 else 0)
  {
    assert (s + [x])[..|s|] == s;
  }

  lemma DedupSnoc<T>(s: seq<T>, x: T)
    ensures Dedup(s + [x]) == if x in s then Dedup(s) else Dedup(s) + [x]
  {
    assert (s + [x])[..|s|] == s;
    var d := Dedup(s);
    assert x in d ==> x in s by {
      if x in d {
        var k :| 0 <= k < |d| && d[k] == x;
      }
    }
    assert x in s ==> x in d by {
      if x in s {
        var k :| 0 <= k < |s| && s[k] == x;
      }
    }
  }

  lemma {:induction false} CountAppend<T>(s: seq<T>, t: seq<T>, x: T)
    ensures Count(s + t, x) == Count(s, x) + Count(t, x)
  {
    if t != [] {
      assert (s + t)[..|s + t| - 1] == s + t[..|t| - 1];
      CountAppend(s, t[..|t| - 1], x);
    } else {
      assert s + t == s;
    }
  }

  lemma {:induction false} CountPositive<T>(s: seq<T>, x: T)
    ensures Count(s, x) > 0 <==> x in s
  {
    if s != [] {
      CountPositive(s[..|s| - 1], x);
      assert s == s[..|s| - 1] + [s[|s| - 1]];
    }
  }

  lemma {:induction false} CountDistinct<T>(s: seq<T>, x: T)
    requires Distinct(s) && x in s
    ensures Count(s, x) == 1
  {
    var front := s[..|s| - 1];
    if s[|s| - 1] == x {
      CountPositive(front, x);
    } else {
      CountDistinct(front, x);
    }
  }

  /** Dedup keeps the order of first occurrences. */
  lemma {:induction false} DedupFirstOccurrenceOrder<T>(s: seq<T>, i: nat, j: nat)
    requires i < j < |Dedup(s)|
    ensures FirstIndex(s, Dedup(s)[i]) < FirstIndex(s, Dedup(s)[j])
  {
    var front := s[..|s| - 1];
    var x := s[|s| - 1];
    var d := Dedup(front);
    var ds := Dedup(s);
    assert s == front + [x];
    assert ds == if x in d then d else d + [x];
    var a := ds[i];
    assert a == d[i] && a in front;
    FirstIndexPrefix(front, x, a);
    if j < |d| {
      var b := ds[j];
      assert b == d[j] && b in front;
      DedupFirstOccurrenceOrder(front, i, j);
      FirstIndexPrefix(front, x, b);
    } else {
      assert ds[j] == x && x !in front;
    }
  }

  /** Nothing before the first occurrence is `x`. */
  lemma FirstIndexAntes<T>(s: seq<T>, x: T)
    requires x in s
    ensures x !in s[..FirstIndex(s, x)]
  {
    var i := FirstIndex(s, x);
    forall m | 0 <= m < i ensures s[..i][m] != x {
    }
  }

  lemma FirstIndexPrefix<T>(front: seq<T>, x: T, y: T)
    requires y in front
    ensures FirstIndex(front + [x], y) == FirstIndex(front, y)
  {
    var k := FirstIndex(front, y);
    var k' := FirstIndex(front + [x], y);
    assert (front + [x])[k] == y;
    assert front[k'] == (front + [x])[k'];
  }

  /** Sum over the values `ds` of their number of occurrences in `s`. */
  function SumCounts<T(==)>(ds: seq<T>, s: seq<T>): nat {
    if ds == [] then 0 else SumCounts(ds[..|ds| - 1], s) + Count(s, ds[|ds| - 1])
  }

  lemma {:induction false} SumCountsSnoc<T>(ds: seq<T>, s: seq<T>, x: T)
    ensures SumCounts(ds, s + [x]) == SumCounts(ds, s) + Count(ds, x)
  {
    if ds != [] {
      SumCountsSnoc(ds[..|ds| - 1], s, x);
      assert (s + [x])[..|s + [x]| - 1] == s;
    }
  }

  /**
   * Counting each of a list of distinct values that covers every element of `s`
   * accounts for all of `s`: the counts partition it.
   */
  lemma {:induction false} SumCountsCover<T>(ds: seq<T>, s: seq<T>)
    requires Distinct(ds)
    requires forall x :: x in s ==> x in ds
    ensures SumCounts(ds, s) == |s|
  {
    if s == [] {
      SumCountsEmpty(ds, s);
    } else {
      var front := s[..|s| - 1];
      var x := s[|s| - 1];
      assert s == front + [x];
      SumCountsCover(ds, front);
      SumCountsSnoc(ds, front, x);
      CountDistinct(ds, x);
    }
  }

  lemma {:induction false} SumCountsEmpty<T>(ds: seq<T>, s: seq<T>)
    requires s == []
    ensures SumCounts(ds, s) == 0
  {
    if ds != [] {
      SumCountsEmpty(ds[..|ds| - 1], s);
    }
  }

  /** How many elements of `s` are not among `ds`. */
  function Fuera<T(==)>(s: seq<T>, ds: seq<T>): nat {
    if s == [] then 0 else Fuera(s[..|s| - 1], ds) + (if s[|s| - 1] in ds then 0 else 1)
  }

  lemma {:induction false} FueraCero<T>(s: seq<T>, ds: seq<T>)
    ensures Fuera(s, ds) == 0 <==> forall x :: x in s ==> x in ds
  {
    if s != [] {
      var front := s[..|s| - 1];
      FueraCero(front, ds);
      assert s == front + [s[|s| - 1]];
    }
  }

  /**
   * Counting a list of distinct values over `s` accounts for every element of `s` except
   * those that are not in the list.
   */
  lemma {:induction false} SumCountsFuera<T>(ds: seq<T>, s: seq<T>)
    requires Distinct(ds)
    ensures SumCounts(ds, s) + Fuera(s, ds) == |s|
  {
    if s == [] {
      SumCountsEmpty(ds, s);
    } else {
      var front := s[..|s| - 1];
      var x := s[|s| - 1];
      assert s == front + [x];
      SumCountsFuera(ds, front);
      SumCountsSnoc(ds, front, x);
      if x in ds {
        CountDistinct(ds, x);
      } else {
        CountPositive(ds, x);
      }
    }
  }

  /** The distinct values of `s`, counted, give back the length of `s`. */
  lemma DedupCountsSumToLength<T>(s: seq<T>)
    ensures SumCounts(Dedup(s), s) == |s|
  {
    SumCountsCover(Dedup(s), s);
  }

  // ---- A dictionary of counts filled in one pass ----

  /** A dict from values to counts: its keys in insertion order, and the counts. */
  datatype Conteo<T> = Conteo(orden: seq<T>, cuentas: map<T, nat>)

  /**
   * The dict a counting pass over `s` leaves: the distinct values in first-occurrence order,
   * each with its number of occurrences.
   */
  ghost predicate Tabla<T(!new)>(s: seq<T>, t: Conteo<T>) {
    && t.orden == Dedup(s)
    && (forall x :: x in t.cuentas <==> x in s)
    && (forall x :: x in t.cuentas ==> t.cuentas[x] == Count(s, x))
  }

  /**
   * One step of the pass (a value seen for the first time is entered with count 1 at the end
   * of the key order, a known one is incremented) keeps the dict exact for the values seen.
   */
  lemma TablaPaso<T(!new)>(previos: seq<T>, antes: Conteo<T>, x: T, despues: Conteo<T>)
    requires Tabla(previos, antes)
    requires despues.orden == if x in antes.cuentas then antes.orden else antes.orden + [x]
    requires despues.cuentas == antes.cuentas[x := if x in antes.cuentas then antes.cuentas[x] + 1 else 1]
    ensures Tabla(previos + [x], despues)
  {
    assert despues.orden == Dedup(previos + [x]) by {
      DedupSnoc(previos, x);
    }
    CuentasPaso(previos, antes, x, despues);
  }

  lemma CuentasPaso<T(!new)>(previos: seq<T>, antes: Conteo<T>, x: T, despues: Conteo<T>)
    requires Tabla(previos, antes)
    requires despues.cuentas == antes.cuentas[x := if x in antes.cuentas then antes.cuentas[x] + 1 else 1]
    ensures forall y :: y in despues.cuentas <==> y in previos + [x]
    ensures forall y :: y in despues.cuentas ==> despues.cuentas[y] == Count(previos + [x], y)
  {
    forall y ensures y in despues.cuentas <==> y in previos + [x] {
      assert y in previos + [x] <==> y in previos || y == x;
    }
    forall y | y in despues.cuentas ensures despues.cuentas[y] == Count(previos + [x], y) {
      CountSnoc(previos, x, y);
      if y == x && x !in antes.cuentas {
        CountPositive(previos, x);
      }
    }
  }

  /** The sum of the counts of the keys `ks`. */
  function Suma<T(==)>(ks: seq<T>, m: map<T, nat>): nat
    requires forall k :: k in ks ==> k in m
  {
    if ks == [] then 0 else Suma(ks[..|ks| - 1], m) + m[ks[|ks| - 1]]
  }

  /** The sum of a dict's counts, over its keys in insertion order. */
  function SumaConteo<T(==)>(t: Conteo<T>): nat
    requires forall x :: x in t.orden ==> x in t.cuentas
  {
    Suma(t.orden, t.cuentas)
  }

  /** The counts of the dict of a pass over `s` add up to the length of `s`. */
  lemma TablaSumaTotal<T(!new)>(s: seq<T>, t: Conteo<T>)
    requires Tabla(s, t)
    ensures forall x :: x in t.orden ==> x in t.cuentas
    ensures SumaConteo(t) == |s|
  {
    SumaEsSumCounts(s, t.orden, t.cuentas);
    DedupCountsSumToLength(s);
  }

  lemma {:induction false} SumaEsSumCounts<T>(s: seq<T>, ks: seq<T>, m: map<T, nat>)
    requires forall k :: k in ks ==> k in m
    requires forall x :: x in m ==> m[x] == Count(s, x)
    ensures Suma(ks, m) == SumCounts(ks, s)
  {
    if ks != [] {
      var n := |ks| - 1;
      assert forall k :: k in ks[..n] ==> k in ks;
      SumaEsSumCounts(s, ks[..n], m);
    }
  }

  /** `new Set(s)`: the set of the values of `s`. */
  function Conjunto<T(!new)>(s: seq<T>): (r: set<T>)
    ensures forall x :: x in r <==> x in s
  {
    if s == [] then {}
    else
      var n := |s| - 1;
      assert s == s[..n] + [s[n]];
      Conjunto(s[..n]) + {s[n]}
  }

  /** The size of the set of values of `s` is the number of distinct values, so at most `|s|`. */
  lemma {:induction false} CardinalDedup<T(!new)>(s: seq<T>)
    ensures |Conjunto(s)| == |Dedup(s)|
    ensures |Conjunto(s)| <= |s|
  {
    if s != [] {
      var n := |s| - 1;
      var front, x := s[..n], s[n];
      CardinalDedup(front);
      assert s[..n] == front;
      var cf := Conjunto(front);
      assert Conjunto(s) == cf + {x};
      DedupSnoc(front, x);
      if x in front {
        assert x in cf;
        assert cf + {x} == cf;
      } else {
        assert x !in cf;
        assert |cf + {x}| == |cf| + 1;
      }
    }
  }
}
