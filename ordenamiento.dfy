/**
 * `OrdenamientoService`: the objects of one drawer (or of every drawer) grouped by type
 * name, by size label, or by the combined key "tipo_tamanio". Each function fills a dict of
 * groups in one pass over the objects and then lists the groups in a fixed order: ascending
 * key for type and mixed grouping, Pequeño, Mediano, Grande for size grouping.
 */
module Ordenamiento {
  import opened Wrappers
  import opened Strings
  import opened Counting
  import opened Models

  datatype Criterio = PorTipo | PorTamanio | PorMixto

  /** The dicts the three functions return, with the fields in the order they are written. */
  datatype Grupo =
    | GrupoTipo(tipo: string, cantidad: nat, objetos: seq<Objeto>)
    | GrupoTamanio(tamanio: string, cantidad: nat, objetos: seq<Objeto>)
    | GrupoMixto(tipo: string, tamanio: string, objetos: seq<Objeto>, cantidad: nat)

  // ---- Selecting the objects ----

  /** Python's truth test on `cajon_id`: `None` and `0` are false. */
  predicate Falsy(cajonId: Option<int>) {
    cajonId == None || cajonId == Some(0)
  }

  /** `CajonObjeto.objects.filter(cajon_id=...)` when `cajon_id` is true, `.all()` otherwise. */
  function Seleccion(objs: seq<Objeto>, cajonId: Option<int>): (r: seq<Objeto>)
    ensures Falsy(cajonId) ==> r == objs
    ensures !Falsy(cajonId) ==> forall o :: o in r <==> o in objs && o.cajon == cajonId.value
    ensures forall o :: o in r ==> o in objs
  {
    if Falsy(cajonId) then objs else ObjetosDeCajon(objs, cajonId.value)
  }

  /**
   * `objeto.tipo_objeto.nombre`. The foreign key always resolves in an intact database; a
   * dangling one, which the database refuses, reads as the empty name.
   */
  function NombreTipo(tipos: map<int, TipoObjeto>, o: Objeto): (r: string)
    ensures o.tipoObjeto in tipos ==> r == tipos[o.tipoObjeto].nombre
  {
    if o.tipoObjeto in tipos then tipos[o.tipoObjeto].nombre else ""
  }

  /** The dict key an object is filed under. */
  function Clave(tipos: map<int, TipoObjeto>, crit: Criterio, o: Objeto): string
  {
    match crit
    case PorTipo => NombreTipo(tipos, o)
    case PorTamanio => TamanioDisplay(o.tamanio)
    case PorMixto => NombreTipo(tipos, o) + "_" + TamanioDisplay(o.tamanio)
  }

  /** The key of each selected object, in input order. */
  function Claves(tipos: map<int, TipoObjeto>, crit: Criterio, sel: seq<Objeto>): (r: seq<string>)
    ensures |r| == |sel|
    ensures forall k :: 0 <= k < |sel| ==> r[k] == Clave(tipos, crit, sel[k])
  {
    if sel == [] then []
    else
      var n := |sel| - 1;
      Claves(tipos, crit, sel[..n]) + [Clave(tipos, crit, sel[n])]
  }

  /** The objects of `sel` filed under key `x`, in input order. */
  function Miembros(tipos: map<int, TipoObjeto>, crit: Criterio, sel: seq<Objeto>, x: string): seq<Objeto> {
    if sel == [] then []
    else
      var n := |sel| - 1;
      var front := Miembros(tipos, crit, sel[..n], x);
      if Clave(tipos, crit, sel[n]) == x then front + [sel[n]] else front
  }

  /** A group holds exactly the selected objects whose key is the group's key. */
  lemma {:induction false} MiembrosPertenencia(tipos: map<int, TipoObjeto>, crit: Criterio, sel: seq<Objeto>, x: string)
    ensures forall o :: o in Miembros(tipos, crit, sel, x) <==> o in sel && Clave(tipos, crit, o) == x
  {
    if sel != [] {
      var n := |sel| - 1;
      MiembrosPertenencia(tipos, crit, sel[..n], x);
      assert sel == sel[..n] + [sel[n]];
    }
  }

  lemma MiembrosSnoc(tipos: map<int, TipoObjeto>, crit: Criterio, sel: seq<Objeto>, o: Objeto, x: string)
    ensures Claves(tipos, crit, sel + [o]) == Claves(tipos, crit, sel) + [Clave(tipos, crit, o)]
    ensures Miembros(tipos, crit, sel + [o], x)
         == Miembros(tipos, crit, sel, x) + (if Clave(tipos, crit, o) == x then [o] else [])
  {
    assert (sel + [o])[..|sel|] == sel;
  }

  /** A group holds as many objects as there are occurrences of its key. */
  lemma {:induction false} MiembrosCount(tipos: map<int, TipoObjeto>, crit: Criterio, sel: seq<Objeto>, x: string)
    ensures |Miembros(tipos, crit, sel, x)| == Count(Claves(tipos, crit, sel), x)
  {
    if sel != [] {
      var n := |sel| - 1;
      var ks, c := Claves(tipos, crit, sel[..n]), Clave(tipos, crit, sel[n]);
      MiembrosCount(tipos, crit, sel[..n], x);
      calc {
        Count(Claves(tipos, crit, sel), x);
        Count(ks + [c], x);
        { CountSnoc(ks, c, x); }
        Count(ks, x) + (if c == x then 1 else 0);
      }
    }
  }

  /** Grouping distributes over concatenation: a group keeps its objects in input order. */
  lemma {:induction false} MiembrosConcat(tipos: map<int, TipoObjeto>, crit: Criterio, a: seq<Objeto>, b: seq<Objeto>, x: string)
    ensures Miembros(tipos, crit, a + b, x) == Miembros(tipos, crit, a, x) + Miembros(tipos, crit, b, x)
  {
    if b == [] {
      assert a + b == a;
    } else {
      var n := |b| - 1;
      assert (a + b)[..|a + b| - 1] == a + b[..n];
      assert (a + b)[|a + b| - 1] == b[n];
      MiembrosConcat(tipos, crit, a, b[..n], x);
    }
  }

  // ---- Filling the dict ----

  /**
   * The dict after the loop over `sel`: its keys in insertion order are the distinct keys in
   * order of first occurrence, and each key holds exactly the objects filed under it.
   */
  ghost predicate Indice(tipos: map<int, TipoObjeto>, crit: Criterio, sel: seq<Objeto>,
                         orden: seq<string>, grupos: map<string, seq<Objeto>>)
  {
    && orden == Dedup(Claves(tipos, crit, sel))
    && (forall x :: x in grupos <==> x in Claves(tipos, crit, sel))
    && (forall x :: x in grupos ==> grupos[x] == Miembros(tipos, crit, sel, x))
  }

  /** The list a key holds so far, `[]` for a key not yet entered. */
  function Lista(grupos: map<string, seq<Objeto>>, x: string): seq<Objeto> {
    if x in grupos then grupos[x] else []
  }

  /** The grouping loop: a new key is entered with an empty list, then the object is appended. */
  method Agrupar(tipos: map<int, TipoObjeto>, crit: Criterio, sel: seq<Objeto>)
    returns (orden: seq<string>, grupos: map<string, seq<Objeto>>)
    ensures Indice(tipos, crit, sel, orden, grupos)
  {
    orden := [];
    grupos := map[];
    ghost var vistos: seq<Objeto> := [];
    var resto := sel;
    while resto != []
      invariant vistos + resto == sel
      invariant Indice(tipos, crit, vistos, orden, grupos)
    {
      var objeto := resto[0];
      orden, grupos := Archivar(tipos, crit, vistos, objeto, orden, grupos);
      Avanzar(vistos, resto);
      vistos, resto := vistos + [objeto], resto[1..];
    }
    assert vistos == sel;
  }

  lemma Avanzar<T>(vistos: seq<T>, resto: seq<T>)
    requires resto != []
    ensures (vistos + [resto[0]]) + resto[1..] == vistos + resto
  {
    assert resto == [resto[0]] + resto[1..];
  }

  /** One iteration: file `objeto` under its key (`setdefault(clave, []).append(objeto)`). */
  method Archivar(tipos: map<int, TipoObjeto>, crit: Criterio, ghost vistos: seq<Objeto>, objeto: Objeto,
                  orden0: seq<string>, grupos0: map<string, seq<Objeto>>)
    returns (orden: seq<string>, grupos: map<string, seq<Objeto>>)
    requires Indice(tipos, crit, vistos, orden0, grupos0)
    ensures Indice(tipos, crit, vistos + [objeto], orden, grupos)
  {
    orden, grupos := orden0, grupos0;
    var clave := Clave(tipos, crit, objeto);
    var lista := Lista(grupos, clave);
    if clave !in grupos {
      orden := orden + [clave];
    }
    grupos := grupos[clave := lista + [objeto]];
    IndicePaso(tipos, crit, vistos, objeto, orden0, grupos0, orden, grupos);
  }

  lemma IndicePaso(tipos: map<int, TipoObjeto>, crit: Criterio, prev: seq<Objeto>, o: Objeto,
                   orden: seq<string>, grupos: map<string, seq<Objeto>>,
                   orden': seq<string>, grupos': map<string, seq<Objeto>>)
    requires Indice(tipos, crit, prev, orden, grupos)
    requires orden' == if Clave(tipos, crit, o) in grupos then orden else orden + [Clave(tipos, crit, o)]
    requires grupos' == grupos[Clave(tipos, crit, o) := Lista(grupos, Clave(tipos, crit, o)) + [o]]
    ensures Indice(tipos, crit, prev + [o], orden', grupos')
  {
    var x := Clave(tipos, crit, o);
    var ks := Claves(tipos, crit, prev);
    MiembrosSnoc(tipos, crit, prev, o, x);
    DedupSnoc(ks, x);
    forall y ensures y in grupos' <==> y in Claves(tipos, crit, prev + [o]) {
      assert y in ks + [x] <==> y in ks || y == x;
    }
    GruposPaso(tipos, crit, prev, o, grupos, grupos');
  }

  lemma GruposPaso(tipos: map<int, TipoObjeto>, crit: Criterio, prev: seq<Objeto>, o: Objeto,
                   grupos: map<string, seq<Objeto>>, grupos': map<string, seq<Objeto>>)
    requires forall x :: x in grupos <==> x in Claves(tipos, crit, prev)
    requires forall x :: x in grupos ==> grupos[x] == Miembros(tipos, crit, prev, x)
    requires grupos' == grupos[Clave(tipos, crit, o) := Lista(grupos, Clave(tipos, crit, o)) + [o]]
    ensures forall y :: y in grupos' ==> grupos'[y] == Miembros(tipos, crit, prev + [o], y)
  {
    var x := Clave(tipos, crit, o);
    forall y | y in grupos' ensures grupos'[y] == Miembros(tipos, crit, prev + [o], y) {
      MiembrosSnoc(tipos, crit, prev, o, y);
      if y == x && x !in grupos {
        MiembrosVacio(tipos, crit, prev, x);
      }
    }
  }

  /** A key that no object has has no members. */
  lemma MiembrosVacio(tipos: map<int, TipoObjeto>, crit: Criterio, sel: seq<Objeto>, x: string)
    requires x !in Claves(tipos, crit, sel)
    ensures Miembros(tipos, crit, sel, x) == []
  {
    MiembrosCount(tipos, crit, sel, x);
    CountPositive(Claves(tipos, crit, sel), x);
  }

  /** A key some object has has at least that object as a member. */
  lemma MiembrosNoVacio(tipos: map<int, TipoObjeto>, crit: Criterio, sel: seq<Objeto>, x: string)
    requires x in Claves(tipos, crit, sel)
    ensures Miembros(tipos, crit, sel, x) != []
  {
    MiembrosCount(tipos, crit, sel, x);
    CountPositive(Claves(tipos, crit, sel), x);
  }

  // ---- `sorted` on distinct string keys ----

  /** Strictly ascending in code-point lexicographic order. */
  predicate Ascendente(s: seq<string>) {
    forall i, j :: 0 <= i < j < |s| ==> LexLess(s[i], s[j])
  }

  lemma AscendenteDistinct(s: seq<string>)
    requires Ascendente(s)
    ensures Distinct(s)
  {
    forall i, j | 0 <= i < j < |s| ensures s[i] != s[j] {
      if s[i] == s[j] {
        LexLessIrreflexive(s[i]);
      }
    }
  }

  function Insertar(s: seq<string>, x: string): (r: seq<string>)
    requires Ascendente(s) && x !in s
    ensures Ascendente(r)
    ensures multiset(r) == multiset(s) + multiset{x}
  {
    if s == [] then [x]
    else if LexLess(x, s[0]) then
      InsertarDelante(s, x);
      [x] + s
    else
      LexLessTotal(x, s[0]);
      var t := Insertar(s[1..], x);
      InsertarDetras(s, x, t);
      [s[0]] + t
  }

  lemma InsertarDelante(s: seq<string>, x: string)
    requires Ascendente(s) && s != [] && LexLess(x, s[0])
    ensures Ascendente([x] + s)
  {
    forall j | 0 < j < |s| ensures LexLess(x, s[j]) {
      LexLessTransitive(x, s[0], s[j]);
    }
  }

  lemma InsertarDetras(s: seq<string>, x: string, t: seq<string>)
    requires Ascendente(s) && s != [] && LexLess(s[0], x)
    requires Ascendente(t) && multiset(t) == multiset(s[1..]) + multiset{x}
    ensures Ascendente([s[0]] + t)
    ensures multiset([s[0]] + t) == multiset(s) + multiset{x}
  {
    var u := [s[0]] + t;
    assert multiset(u) == multiset(s) + multiset{x} by {
      MultisetCabeza(s);
    }
    assert forall j :: 0 <= j < |t| ==> LexLess(s[0], t[j]) by {
      CabezaMenor(s, x, t);
    }
    AscendenteCons(s[0], t);
  }

  /** A head below every element of an ascending list keeps it ascending. */
  lemma AscendenteCons(h: string, t: seq<string>)
    requires Ascendente(t) && forall j :: 0 <= j < |t| ==> LexLess(h, t[j])
    ensures Ascendente([h] + t)
  {
    var u := [h] + t;
    forall i, j | 0 <= i < j < |u| ensures LexLess(u[i], u[j]) {
      assert u[j] == t[j - 1];
      if i > 0 {
        assert u[i] == t[i - 1];
      }
    }
  }

  lemma MultisetCabeza(s: seq<string>)
    requires s != []
    ensures multiset(s) == multiset{s[0]} + multiset(s[1..])
  {
    assert s == [s[0]] + s[1..];
  }

  /** The head of an ascending list precedes everything inserted behind it. */
  lemma CabezaMenor(s: seq<string>, x: string, t: seq<string>)
    requires Ascendente(s) && s != [] && LexLess(s[0], x)
    requires multiset(t) == multiset(s[1..]) + multiset{x}
    ensures forall j :: 0 <= j < |t| ==> LexLess(s[0], t[j])
  {
    forall j | 0 <= j < |t| ensures LexLess(s[0], t[j]) {
      assert t[j] in multiset(t);
      if t[j] != x {
        assert t[j] in multiset(s[1..]);
        var k :| 0 <= k < |s[1..]| && s[1..][k] == t[j];
        assert s[k + 1] == t[j];
      }
    }
  }

  /** `sorted` over keys that are pairwise different (so the groups themselves are never compared). */
  function Ordenar(ks: seq<string>): (r: seq<string>)
    requires Distinct(ks)
    ensures Ascendente(r)
    ensures multiset(r) == multiset(ks)
  {
    if ks == [] then []
    else
      var n := |ks| - 1;
      assert ks == ks[..n] + [ks[n]];
      assert ks[n] !in multiset(ks[..n]);
      Insertar(Ordenar(ks[..n]), ks[n])
  }

  // ---- The groups ----

  /** The key a group was filed under; a mixed group's `tipo` and `tamanio` rebuild it. */
  function ClaveDe(g: Grupo): string {
    match g
    case GrupoTipo(tipo, _, _) => tipo
    case GrupoTamanio(tamanio, _, _) => tamanio
    case GrupoMixto(tipo, tamanio, _, _) => tipo + "_" + tamanio
  }

  function ClavesDe(r: seq<Grupo>): (ks: seq<string>)
    ensures |ks| == |r|
    ensures forall i :: 0 <= i < |r| ==> ks[i] == ClaveDe(r[i])
  {
    if r == [] then [] else ClavesDe(r[..|r| - 1]) + [ClaveDe(r[|r| - 1])]
  }

  /** `sum(g['cantidad'] for g in resultado)`. */
  function SumaCantidades(r: seq<Grupo>): nat {
    if r == [] then 0 else SumaCantidades(r[..|r| - 1]) + r[|r| - 1].cantidad
  }

  /** The dict shape of each criterion; a mixed group's fields come from its first object. */
  ghost predicate Forma(tipos: map<int, TipoObjeto>, crit: Criterio, g: Grupo) {
    match crit
    case PorTipo => g.GrupoTipo?
    case PorTamanio => g.GrupoTamanio?
    case PorMixto =>
      && g.GrupoMixto? && g.objetos != []
      && g.tipo == NombreTipo(tipos, g.objetos[0])
      && g.tamanio == TamanioDisplay(g.objetos[0].tamanio)
  }

  /**
   * A group lists exactly the selected objects filed under its key, in input order, is not
   * empty, and its `cantidad` is the length of its list.
   */
  ghost predicate GrupoValido(tipos: map<int, TipoObjeto>, crit: Criterio, sel: seq<Objeto>, g: Grupo) {
    && g.objetos == Miembros(tipos, crit, sel, ClaveDe(g))
    && g.objetos != []
    && g.cantidad == |g.objetos|
    && Forma(tipos, crit, g)
  }

  ghost predicate Exactos(tipos: map<int, TipoObjeto>, crit: Criterio, sel: seq<Objeto>, r: seq<Grupo>) {
    forall i :: 0 <= i < |r| ==> GrupoValido(tipos, crit, sel, r[i])
  }

  lemma ClavesDeSnoc(r: seq<Grupo>, g: Grupo)
    ensures ClavesDe(r + [g]) == ClavesDe(r) + [ClaveDe(g)]
  {
    assert (r + [g])[..|r|] == r;
  }

  /** The groups of `ordenar_por_tipo` and `ordenar_mixto`: one per key, keys ascending. */
  ghost predicate OrdenadoPorClave(tipos: map<int, TipoObjeto>, crit: Criterio, sel: seq<Objeto>, r: seq<Grupo>) {
    && Exactos(tipos, crit, sel, r)
    && Ascendente(ClavesDe(r))
    && (forall x :: x in ClavesDe(r) <==> x in Claves(tipos, crit, sel))
  }

  /** The list of groups built from the sorted keys (the last loop of type and mixed grouping). */
  method Armar(tipos: map<int, TipoObjeto>, crit: Criterio, sel: seq<Objeto>,
               orden: seq<string>, grupos: map<string, seq<Objeto>>) returns (r: seq<Grupo>)
    requires crit != PorTamanio
    requires Indice(tipos, crit, sel, orden, grupos)
    ensures OrdenadoPorClave(tipos, crit, sel, r)
  {
    DedupMiembros(Claves(tipos, crit, sel));
    var claves := Ordenar(orden);
    assert forall x :: x in claves <==> x in orden by {
      forall x ensures x in claves <==> x in orden {
        assert x in claves <==> x in multiset(claves);
        assert x in orden <==> x in multiset(orden);
      }
    }
    forall x | x in claves ensures x in grupos && grupos[x] == Miembros(tipos, crit, sel, x) && grupos[x] != [] {
      MiembrosNoVacio(tipos, crit, sel, x);
    }
    r := Listar(tipos, crit, sel, claves, grupos);
  }

  /** The loop over the sorted keys, appending one group per key. */
  method Listar(tipos: map<int, TipoObjeto>, crit: Criterio, sel: seq<Objeto>,
                claves: seq<string>, grupos: map<string, seq<Objeto>>) returns (r: seq<Grupo>)
    requires crit != PorTamanio
    requires forall x :: x in claves ==> x in grupos && grupos[x] == Miembros(tipos, crit, sel, x) && grupos[x] != []
    ensures Exactos(tipos, crit, sel, r)
    ensures ClavesDe(r) == claves
  {
    r := [];
    for i := 0 to |claves|
      invariant Exactos(tipos, crit, sel, r)
      invariant ClavesDe(r) == claves[..i]
    {
      var clave := claves[i];
      var objetos := grupos[clave];
      var g := if crit == PorTipo then GrupoTipo(clave, |objetos|, objetos)
               else GrupoMixto(NombreTipo(tipos, objetos[0]), TamanioDisplay(objetos[0].tamanio), objetos, |objetos|);
      GrupoArmadoValido(tipos, crit, sel, clave, objetos, g);
      ExactosSnoc(tipos, crit, sel, r, g);
      r := r + [g];
      PrefijoSiguiente(claves, i);
    }
    PrefijoTotal(claves);
  }

  lemma GrupoArmadoValido(tipos: map<int, TipoObjeto>, crit: Criterio, sel: seq<Objeto>,
                          clave: string, objetos: seq<Objeto>, g: Grupo)
    requires crit != PorTamanio
    requires objetos == Miembros(tipos, crit, sel, clave) && objetos != []
    requires g == if crit == PorTipo then GrupoTipo(clave, |objetos|, objetos)
                  else GrupoMixto(NombreTipo(tipos, objetos[0]), TamanioDisplay(objetos[0].tamanio), objetos, |objetos|)
    ensures GrupoValido(tipos, crit, sel, g) && ClaveDe(g) == clave
  {
    MiembrosPertenencia(tipos, crit, sel, clave);
    assert objetos[0] in Miembros(tipos, crit, sel, clave);
  }

  lemma ExactosSnoc(tipos: map<int, TipoObjeto>, crit: Criterio, sel: seq<Objeto>, r: seq<Grupo>, g: Grupo)
    requires Exactos(tipos, crit, sel, r) && GrupoValido(tipos, crit, sel, g)
    ensures Exactos(tipos, crit, sel, r + [g])
    ensures ClavesDe(r + [g]) == ClavesDe(r) + [ClaveDe(g)]
  {
    ClavesDeSnoc(r, g);
  }

  /**
   * `ordenar_por_tipo`: one group per type name among the selected objects, in ascending
   * name order; the counts add up to the number of selected objects.
   */
  method OrdenarPorTipo(db: Db, cajonId: Option<int>) returns (r: seq<Grupo>)
    ensures OrdenadoPorClave(db.tipos, PorTipo, Seleccion(db.objetos, cajonId), r)
    ensures SumaCantidades(r) == |Seleccion(db.objetos, cajonId)|
  {
    var sel := Seleccion(db.objetos, cajonId);
    var orden, grupos := Agrupar(db.tipos, PorTipo, sel);
    r := Armar(db.tipos, PorTipo, sel, orden, grupos);
    SumaCompleta(db.tipos, PorTipo, sel, r);
  }

  /**
   * `ordenar_mixto`: one group per "tipo_tamanio" key among the selected objects, in
   * ascending key order; the counts add up to the number of selected objects.
   */
  method OrdenarMixto(db: Db, cajonId: Option<int>) returns (r: seq<Grupo>)
    ensures OrdenadoPorClave(db.tipos, PorMixto, Seleccion(db.objetos, cajonId), r)
    ensures SumaCantidades(r) == |Seleccion(db.objetos, cajonId)|
  {
    var sel := Seleccion(db.objetos, cajonId);
    var orden, grupos := Agrupar(db.tipos, PorMixto, sel);
    r := Armar(db.tipos, PorMixto, sel, orden, grupos);
    SumaCompleta(db.tipos, PorMixto, sel, r);
  }

  /** `orden_tamanios`. */
  const OrdenTamanios: seq<string> := ["Pequeño", "Mediano", "Grande"]

  /** The fixed order lists the labels of the choices, in declaration order, each once. */
  lemma OrdenTamaniosSonEtiquetas()
    ensures |OrdenTamanios| == |Choices|
    ensures forall k :: 0 <= k < |Choices| ==> OrdenTamanios[k] == Etiqueta(Choices[k])
    ensures Distinct(OrdenTamanios)
  {
    assert OrdenTamanios[0][0] == 'P' && OrdenTamanios[1][0] == 'M' && OrdenTamanios[2][0] == 'G';
  }

  /** The labels of `s` that some object has, in the order of `s`. */
  function Presentes(s: seq<string>, ks: seq<string>): (r: seq<string>)
    ensures forall x :: x in r <==> x in s && x in ks
  {
    if s == [] then []
    else
      var n := |s| - 1;
      assert s == s[..n] + [s[n]];
      Presentes(s[..n], ks) + (if s[n] in ks then [s[n]] else [])
  }

  lemma PresentesSiguiente(s: seq<string>, k: nat, ks: seq<string>)
    requires k < |s|
    ensures Presentes(s[..k + 1], ks) == Presentes(s[..k], ks) + (if s[k] in ks then [s[k]] else [])
  {
    assert s[..k + 1][..k] == s[..k];
  }

  /** Keeping the present labels of a list without repeats keeps their relative order. */
  lemma PresentesEnOrden(s: seq<string>, ks: seq<string>)
    requires Distinct(s)
    ensures Distinct(Presentes(s, ks))
    ensures forall i, j :: 0 <= i < j < |Presentes(s, ks)| ==>
      FirstIndex(s, Presentes(s, ks)[i]) < FirstIndex(s, Presentes(s, ks)[j])
  {
    PresentesOrden(s, ks);
    var p := Presentes(s, ks);
    forall i, j | 0 <= i < j < |p| ensures p[i] != p[j] {
      assert FirstIndex(s, p[i]) < FirstIndex(s, p[j]);
    }
  }

  lemma {:induction false} PresentesOrden(s: seq<string>, ks: seq<string>)
    requires Distinct(s)
    ensures forall i, j :: 0 <= i < j < |Presentes(s, ks)| ==>
      FirstIndex(s, Presentes(s, ks)[i]) < FirstIndex(s, Presentes(s, ks)[j])
  {
    if s != [] {
      var n := |s| - 1;
      var front := Presentes(s[..n], ks);
      var p := Presentes(s, ks);
      assert Distinct(s[..n]) by {
        forall i, j | 0 <= i < j < n ensures s[..n][i] != s[..n][j] {
          assert s[..n][i] == s[i] && s[..n][j] == s[j];
        }
      }
      PresentesOrden(s[..n], ks);
      forall y | y in front ensures y in s && FirstIndex(s, y) == FirstIndex(s[..n], y) < n {
        PrefijoFirstIndex(s, y);
      }
      if s[n] in ks {
        assert p == front + [s[n]];
        assert FirstIndex(s, s[n]) == n;
        forall i, j | 0 <= i < j < |p| ensures FirstIndex(s, p[i]) < FirstIndex(s, p[j]) {
          assert p[i] == front[i];
          if j < |front| {
            assert p[j] == front[j];
          }
        }
      } else {
        assert p == front;
      }
    }
  }

  /** A label among the first `n` keeps its position once the last is added. */
  lemma PrefijoFirstIndex(s: seq<string>, y: string)
    requires s != [] && y in s[..|s| - 1]
    ensures y in s
    ensures FirstIndex(s, y) == FirstIndex(s[..|s| - 1], y) < |s| - 1
  {
    var n := |s| - 1;
    assert s == s[..n] + [s[n]];
    FirstIndexPrefix(s[..n], s[n], y);
  }

  /**
   * The groups of `ordenar_por_tamanio`: one per label of `orden_tamanios` that some selected
   * object displays as, in that order; objects displaying as anything else are in no group.
   */
  ghost predicate OrdenadoPorTamanio(tipos: map<int, TipoObjeto>, sel: seq<Objeto>, r: seq<Grupo>) {
    && Exactos(tipos, PorTamanio, sel, r)
    && ClavesDe(r) == Presentes(OrdenTamanios, Claves(tipos, PorTamanio, sel))
  }

  /**
   * `ordenar_por_tamanio`: the size groups in the order Pequeño, Mediano, Grande, sizes no
   * object has left out; the counts add up to the number of selected objects exactly when
   * every selected object displays as one of the three labels.
   */
  method OrdenarPorTamanio(db: Db, cajonId: Option<int>) returns (r: seq<Grupo>)
    ensures OrdenadoPorTamanio(db.tipos, Seleccion(db.objetos, cajonId), r)
    ensures SumaCantidades(r) == |Seleccion(db.objetos, cajonId)|
        <==> forall o :: o in Seleccion(db.objetos, cajonId) ==> TamanioDisplay(o.tamanio) in OrdenTamanios
  {
    var sel := Seleccion(db.objetos, cajonId);
    var orden, grupos := Agrupar(db.tipos, PorTamanio, sel);
    r := ListarTamanios(db.tipos, sel, grupos);
    SumaTamanio(db.tipos, sel, r);
  }

  /** The loop over `orden_tamanios`, appending the group of each label the dict has. */
  method ListarTamanios(tipos: map<int, TipoObjeto>, sel: seq<Objeto>, grupos: map<string, seq<Objeto>>)
    returns (r: seq<Grupo>)
    requires forall x :: x in grupos <==> x in Claves(tipos, PorTamanio, sel)
    requires forall x :: x in grupos ==> grupos[x] == Miembros(tipos, PorTamanio, sel, x)
    ensures OrdenadoPorTamanio(tipos, sel, r)
  {
    r := [];
    for k := 0 to |OrdenTamanios|
      invariant Exactos(tipos, PorTamanio, sel, r)
      invariant ClavesDe(r) == Presentes(OrdenTamanios[..k], Claves(tipos, PorTamanio, sel))
    {
      var tamanio := OrdenTamanios[k];
      PresentesSiguiente(OrdenTamanios, k, Claves(tipos, PorTamanio, sel));
      if tamanio in grupos {
        MiembrosNoVacio(tipos, PorTamanio, sel, tamanio);
        var g := GrupoTamanio(tamanio, |grupos[tamanio]|, grupos[tamanio]);
        ExactosSnoc(tipos, PorTamanio, sel, r, g);
        r := r + [g];
      }
    }
    PrefijoTotal(OrdenTamanios);
  }

  // ---- Counting the groups ----

  /**
   * Every selected object is in the group of its own key and in no other, so the groups
   * partition the objects whose key has a group.
   */
  lemma Particion(tipos: map<int, TipoObjeto>, crit: Criterio, sel: seq<Objeto>, r: seq<Grupo>)
    requires Exactos(tipos, crit, sel, r)
    requires Distinct(ClavesDe(r))
    ensures forall k, i :: 0 <= k < |sel| && 0 <= i < |r| ==>
      (sel[k] in r[i].objetos <==> Clave(tipos, crit, sel[k]) == ClaveDe(r[i]))
    ensures forall k, i, j ::
      (0 <= k < |sel| && 0 <= i < |r| && 0 <= j < |r| && sel[k] in r[i].objetos && sel[k] in r[j].objetos)
      ==> i == j
  {
    forall i | 0 <= i < |r| {
      MiembrosPertenencia(tipos, crit, sel, ClaveDe(r[i]));
    }
    forall k, i, j | 0 <= k < |sel| && 0 <= i < |r| && 0 <= j < |r|
      && sel[k] in r[i].objetos && sel[k] in r[j].objetos
      ensures i == j
    {
      assert ClavesDe(r)[i] == ClavesDe(r)[j];
    }
  }

  /**
   * The counts of groups with pairwise different keys add up to the number of selected objects,
   * less those whose key has no group.
   */
  lemma SumaParticion(tipos: map<int, TipoObjeto>, crit: Criterio, sel: seq<Objeto>, r: seq<Grupo>)
    requires Exactos(tipos, crit, sel, r)
    requires Distinct(ClavesDe(r))
    ensures SumaCantidades(r) + Fuera(Claves(tipos, crit, sel), ClavesDe(r)) == |sel|
  {
    SumaEsSumCounts(tipos, crit, sel, r);
    SumCountsFuera(ClavesDe(r), Claves(tipos, crit, sel));
  }

  lemma {:induction false} SumaEsSumCounts(tipos: map<int, TipoObjeto>, crit: Criterio, sel: seq<Objeto>, r: seq<Grupo>)
    requires Exactos(tipos, crit, sel, r)
    ensures SumaCantidades(r) == SumCounts(ClavesDe(r), Claves(tipos, crit, sel))
  {
    if r != [] {
      var n := |r| - 1;
      assert Exactos(tipos, crit, sel, r[..n]) by {
        forall i | 0 <= i < n ensures r[..n][i] == r[i] {
        }
      }
      var ks, s := ClavesDe(r), Claves(tipos, crit, sel);
      assert ks[..n] == ClavesDe(r[..n]);
      assert r[n].cantidad == Count(s, ks[n]) by {
        assert GrupoValido(tipos, crit, sel, r[n]);
        MiembrosCount(tipos, crit, sel, ClaveDe(r[n]));
      }
      calc {
        SumaCantidades(r);
        SumaCantidades(r[..n]) + r[n].cantidad;
        { SumaEsSumCounts(tipos, crit, sel, r[..n]); }
        SumCounts(ks[..n], s) + Count(s, ks[n]);
        SumCounts(ks, s);
      }
    }
  }

  /** Type and mixed grouping: every object has a group, so nothing is lost. */
  lemma SumaCompleta(tipos: map<int, TipoObjeto>, crit: Criterio, sel: seq<Objeto>, r: seq<Grupo>)
    requires OrdenadoPorClave(tipos, crit, sel, r)
    ensures SumaCantidades(r) == |sel|
  {
    AscendenteDistinct(ClavesDe(r));
    SumaParticion(tipos, crit, sel, r);
    FueraCero(Claves(tipos, crit, sel), ClavesDe(r));
  }

  /** Size grouping loses exactly the objects whose display is not one of the three labels. */
  lemma SumaTamanio(tipos: map<int, TipoObjeto>, sel: seq<Objeto>, r: seq<Grupo>)
    requires OrdenadoPorTamanio(tipos, sel, r)
    ensures SumaCantidades(r) == |sel| <==> forall o :: o in sel ==> TamanioDisplay(o.tamanio) in OrdenTamanios
  {
    var ks := Claves(tipos, PorTamanio, sel);
    assert SumaCantidades(r) + Fuera(ks, ClavesDe(r)) == |sel| by {
      OrdenTamaniosSonEtiquetas();
      PresentesEnOrden(OrdenTamanios, ks);
      SumaParticion(tipos, PorTamanio, sel, r);
    }
    assert Fuera(ks, ClavesDe(r)) == 0 <==> forall o :: o in sel ==> TamanioDisplay(o.tamanio) in OrdenTamanios by {
      FueraCero(ks, ClavesDe(r));
      TodosConGrupo(tipos, sel, r);
    }
  }

  /** Every selected key has a size group exactly when every selected object displays as a label. */
  lemma TodosConGrupo(tipos: map<int, TipoObjeto>, sel: seq<Objeto>, r: seq<Grupo>)
    requires ClavesDe(r) == Presentes(OrdenTamanios, Claves(tipos, PorTamanio, sel))
    ensures (forall x :: x in Claves(tipos, PorTamanio, sel) ==> x in ClavesDe(r))
        <==> forall o :: o in sel ==> TamanioDisplay(o.tamanio) in OrdenTamanios
  {
    var ks := Claves(tipos, PorTamanio, sel);
    if forall o :: o in sel ==> TamanioDisplay(o.tamanio) in OrdenTamanios {
      forall x | x in ks ensures x in ClavesDe(r) {
        var k :| 0 <= k < |ks| && ks[k] == x;
        assert sel[k] in sel;
      }
    } else {
      var o :| o in sel && TamanioDisplay(o.tamanio) !in OrdenTamanios;
      var k :| 0 <= k < |sel| && sel[k] == o;
      assert ks[k] in ks && ks[k] !in ClavesDe(r);
    }
  }
}
