/**
 * The Django models of the drawer inventory: drawers (Cajon), object types (TipoObjeto),
 * objects (CajonObjeto), history entries (CajonHistorial), the size enumeration
 * (CajonTamanio) with its default, the `__str__` renderings, and the CASCADE foreign keys,
 * written as operations on a database value.
 */
module Models {
  import opened Wrappers
  import opened Strings

  // ---- CajonTamanio ----

  datatype Tamanio = Pequeno | Mediano | Grande

  /** The stored code of a size (the first component of each choice). */
  function Codigo(t: Tamanio): string {
    match t
    case Pequeno => "PE"
    case Mediano => "ME"
    case Grande => "GR"
  }

  /** The human-readable label of a size (the second component of each choice). */
  function Etiqueta(t: Tamanio): string {
    match t
    case Pequeno => "Pequeño"
    case Mediano => "Mediano"
    case Grande => "Grande"
  }

  /** `CajonTamanio.choices`, in declaration order. */
  const Choices: seq<Tamanio> := [Pequeno, Mediano, Grande]

  /** `max_length` of the `tamanio` column. */
  const LongitudMaximaTamanio: nat := 2

  /** The column default of `CajonObjeto.tamanio`. */
  const TamanioPorDefecto: string := Codigo(Pequeno)

  /** The size a stored code stands for, if it is one of the choices. */
  function DeCodigo(code: string): (r: Option<Tamanio>)
    ensures r.Some? ==> Codigo(r.value) == code
    ensures r.None? ==> forall t: Tamanio :: Codigo(t) != code
  {
    if code == "PE" then Some(Pequeno)
    else if code == "ME" then Some(Mediano)
    else if code == "GR" then Some(Grande)
    else None
  }

  /**
   * `get_tamanio_display()`: the label of a stored code that is a choice, and the stored
   * value itself otherwise (Django falls back to the raw value).
   */
  function TamanioDisplay(tamanio: string): (r: string)
    ensures DeCodigo(tamanio).Some? ==> r == Etiqueta(DeCodigo(tamanio).value)
    ensures DeCodigo(tamanio).None? ==> r == tamanio
  {
    match DeCodigo(tamanio)
    case Some(t) => Etiqueta(t)
    case None => tamanio
  }

  /**
   * There are exactly three sizes, listed once each in `choices`; their codes and labels are
   * pairwise different, every code fits the column, and the default is the code of Pequeño.
   */
  lemma ChoicesExactas()
    ensures |Choices| == 3 && forall t: Tamanio :: t in Choices
    ensures forall i, j :: 0 <= i < j < |Choices| ==> Codigo(Choices[i]) != Codigo(Choices[j])
    ensures forall i, j :: 0 <= i < j < |Choices| ==> Etiqueta(Choices[i]) != Etiqueta(Choices[j])
    ensures forall t: Tamanio :: |Codigo(t)| <= LongitudMaximaTamanio
    ensures forall t: Tamanio :: DeCodigo(Codigo(t)) == Some(t)
    ensures DeCodigo(TamanioPorDefecto) == Some(Pequeno)
  {
    forall t: Tamanio ensures t in Choices {
      assert t == Choices[0] || t == Choices[1] || t == Choices[2];
    }
  }

  // ---- Rows ----

  datatype Cajon = Cajon(nombre: string, capacidadMaxima: int)

  datatype TipoObjeto = TipoObjeto(nombre: string, descripcion: Option<string>)

  /** A `CajonObjeto` row: its primary key, its drawer and type foreign keys, name and size code. */
  datatype Objeto = Objeto(id: int, cajon: int, nombreObjeto: string, tipoObjeto: int, tamanio: string)

  /** A `CajonHistorial` row (its `fecha` is set by the clock and is not modelled). */
  datatype Entrada = Entrada(cajon: int, accion: string, descripcion: string)

  // ---- __str__ ----

  const PrefijoCapacidad: string := " (Capacidad: "

  /** `Cajon.__str__`: the name, then the capacity in decimal between " (Capacidad: " and ")". */
  function CajonStr(c: Cajon): (r: string)
    ensures StartsWith(r, c.nombre)
    ensures |r| > |c.nombre| + |PrefijoCapacidad|
    ensures r[|c.nombre|..|c.nombre| + |PrefijoCapacidad|] == PrefijoCapacidad
    ensures r[|r| - 1] == ')'
    ensures c.capacidadMaxima >= 0 ==>
      var digits := r[|c.nombre| + |PrefijoCapacidad|..|r| - 1];
      IsDigits(digits) && DecimalValue(digits) == c.capacidadMaxima
  {
    var digits := IntToString(c.capacidadMaxima);
    Piezas(c.nombre, PrefijoCapacidad, digits);
    c.nombre + PrefijoCapacidad + digits + ")"
  }

  /** Where the pieces of `a + p + s + ")"` sit. */
  lemma Piezas(a: string, p: string, s: string)
    ensures var r := a + p + s + ")";
      && |r| == |a| + |p| + |s| + 1
      && r[..|a|] == a
      && r[|a|..|a| + |p|] == p
      && r[|a| + |p|..|r| - 1] == s
      && r[|r| - 1] == ')'
  {
  }

  /** `TipoObjeto.__str__` is the type's name. */
  function TipoObjetoStr(t: TipoObjeto): (r: string)
    ensures r == t.nombre
  {
    t.nombre
  }

  // ---- The database and its CASCADE foreign keys ----

  datatype Db = Db(cajones: map<int, Cajon>, tipos: map<int, TipoObjeto>, objetos: seq<Objeto>, historial: seq<Entrada>)

  /** Every foreign key points at an existing row. */
  predicate Integro(db: Db) {
    && (forall o :: o in db.objetos ==> o.cajon in db.cajones && o.tipoObjeto in db.tipos)
    && (forall e :: e in db.historial ==> e.cajon in db.cajones)
  }

  /** `cajon.objetos.all()`: the objects whose drawer is `c`, in table order. */
  function ObjetosDeCajon(objs: seq<Objeto>, c: int): (r: seq<Objeto>)
    ensures forall o :: o in r <==> o in objs && o.cajon == c
    ensures |r| <= |objs|
  {
    if objs == [] then []
    else
      var front := ObjetosDeCajon(objs[..|objs| - 1], c);
      var x := objs[|objs| - 1];
      assert objs == objs[..|objs| - 1] + [x];
      if x.cajon == c then front + [x] else front
  }

  /** `cajon.objetos.count()`: how many objects drawer `c` holds. */
  function Ocupacion(objs: seq<Objeto>, c: int): nat {
    |ObjetosDeCajon(objs, c)|
  }

  /** Appending a row raises the count of its own drawer by one and of no other drawer. */
  lemma OcupacionAppend(objs: seq<Objeto>, o: Objeto, c: int)
    ensures Ocupacion(objs + [o], c) == Ocupacion(objs, c) + (if o.cajon == c then 1 else 0)
  {
    assert (objs + [o])[..|objs|] == objs;
  }

  /** Re-homing row `i` moves one unit of count from its old drawer to its new one. */
  lemma {:induction false} OcupacionUpdate(objs: seq<Objeto>, i: nat, o: Objeto, c: int)
    requires i < |objs|
    ensures Ocupacion(objs[i := o], c) + (if objs[i].cajon == c then 1 else 0)
         == Ocupacion(objs, c) + (if o.cajon == c then 1 else 0)
  {
    var n := |objs| - 1;
    var front := objs[..n];
    var u := objs[i := o];
    OcupacionSnoc(objs, c);
    OcupacionSnoc(u, c);
    if i == n {
      assert u[..n] == front && u[n] == o;
    } else {
      assert u[..n] == front[i := o] && u[n] == objs[n];
      OcupacionUpdate(front, i, o, c);
    }
  }

  /** The count of a non-empty table is the count without its last row, plus that row. */
  lemma OcupacionSnoc(objs: seq<Objeto>, c: int)
    requires objs != []
    ensures Ocupacion(objs, c)
         == Ocupacion(objs[..|objs| - 1], c) + (if objs[|objs| - 1].cajon == c then 1 else 0)
  {
  }

  /** A drawer that no row points at is empty. */
  lemma {:induction false} OcupacionSinFilas(objs: seq<Objeto>, c: int)
    requires forall o :: o in objs ==> o.cajon != c
    ensures Ocupacion(objs, c) == 0
  {
    if objs != [] {
      var n := |objs| - 1;
      assert objs[n] in objs;
      assert forall o :: o in objs[..n] ==> o in objs;
      OcupacionSinFilas(objs[..n], c);
    }
  }

  /** The objects that are not in drawer `c`, in their original order. */
  function ObjetosFueraDeCajon(objs: seq<Objeto>, c: int): (r: seq<Objeto>)
    ensures forall o :: o in r <==> o in objs && o.cajon != c
    ensures |r| <= |objs|
  {
    if objs == [] then []
    else
      var rest := ObjetosFueraDeCajon(objs[1..], c);
      assert forall o :: o in objs <==> o == objs[0] || o in objs[1..];
      if objs[0].cajon != c then [objs[0]] + rest else rest
  }

  /** The objects that are not of type `t`, in their original order. */
  function ObjetosFueraDeTipo(objs: seq<Objeto>, t: int): (r: seq<Objeto>)
    ensures forall o :: o in r <==> o in objs && o.tipoObjeto != t
    ensures |r| <= |objs|
  {
    if objs == [] then []
    else
      var rest := ObjetosFueraDeTipo(objs[1..], t);
      assert forall o :: o in objs <==> o == objs[0] || o in objs[1..];
      if objs[0].tipoObjeto != t then [objs[0]] + rest else rest
  }

  /** Deleting a drawer's objects keeps the survivors in their original order. */
  lemma {:induction false} ObjetosFueraDeCajonConcat(a: seq<Objeto>, b: seq<Objeto>, c: int)
    ensures ObjetosFueraDeCajon(a + b, c) == ObjetosFueraDeCajon(a, c) + ObjetosFueraDeCajon(b, c)
  {
    if a == [] {
      assert a + b == b;
    } else {
      assert (a + b)[1..] == a[1..] + b;
      ObjetosFueraDeCajonConcat(a[1..], b, c);
    }
  }

  /** Deleting a type's objects keeps the survivors in their original order. */
  lemma {:induction false} ObjetosFueraDeTipoConcat(a: seq<Objeto>, b: seq<Objeto>, t: int)
    ensures ObjetosFueraDeTipo(a + b, t) == ObjetosFueraDeTipo(a, t) + ObjetosFueraDeTipo(b, t)
  {
    if a == [] {
      assert a + b == b;
    } else {
      assert (a + b)[1..] == a[1..] + b;
      ObjetosFueraDeTipoConcat(a[1..], b, t);
    }
  }

  /** The history entries that are not about drawer `c`, in their original order. */
  function EntradasFueraDeCajon(hist: seq<Entrada>, c: int): (r: seq<Entrada>)
    ensures forall e :: e in r <==> e in hist && e.cajon != c
    ensures |r| <= |hist|
  {
    if hist == [] then []
    else
      var rest := EntradasFueraDeCajon(hist[1..], c);
      assert forall e :: e in hist <==> e == hist[0] || e in hist[1..];
      if hist[0].cajon != c then [hist[0]] + rest else rest
  }

  /** Deleting a drawer's history keeps the surviving entries in their original order. */
  lemma {:induction false} EntradasFueraDeCajonConcat(a: seq<Entrada>, b: seq<Entrada>, c: int)
    ensures EntradasFueraDeCajon(a + b, c) == EntradasFueraDeCajon(a, c) + EntradasFueraDeCajon(b, c)
  {
    if a == [] {
      assert a + b == b;
    } else {
      assert (a + b)[1..] == a[1..] + b;
      EntradasFueraDeCajonConcat(a[1..], b, c);
    }
  }

  /**
   * Deleting a drawer: `CajonObjeto.cajon` and `CajonHistorial.cajon` are CASCADE, so every
   * object in the drawer and every history entry about it goes too; nothing else changes.
   */
  function EliminarCajon(db: Db, c: int): (r: Db)
    ensures r.cajones == db.cajones - {c} && r.tipos == db.tipos
    ensures forall o :: o in r.objetos <==> o in db.objetos && o.cajon != c
    ensures forall e :: e in r.historial <==> e in db.historial && e.cajon != c
  {
    Db(db.cajones - {c}, db.tipos, ObjetosFueraDeCajon(db.objetos, c), EntradasFueraDeCajon(db.historial, c))
  }

  /**
   * Deleting an object type: `CajonObjeto.tipo_objeto` is CASCADE, so every object of that
   * type goes too; drawers and history are untouched.
   */
  function EliminarTipo(db: Db, t: int): (r: Db)
    ensures r.cajones == db.cajones && r.tipos == db.tipos - {t} && r.historial == db.historial
    ensures forall o :: o in r.objetos <==> o in db.objetos && o.tipoObjeto != t
  {
    Db(db.cajones, db.tipos - {t}, ObjetosFueraDeTipo(db.objetos, t), db.historial)
  }

  /** Both cascades leave no dangling foreign key behind. */
  lemma EliminarPreservaIntegridad(db: Db, c: int, t: int)
    requires Integro(db)
    ensures Integro(EliminarCajon(db, c))
    ensures Integro(EliminarTipo(db, t))
  {
  }
}
