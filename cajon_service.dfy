/**
 * `CajonService`: creating drawers, adding objects under the capacity limit, moving an
 * object to another drawer, and the per-drawer statistics. The database is an in-memory
 * store whose tables are fields; every successful operation appends to the history table.
 */
module CajonService {
  import opened Wrappers
  import opened Strings
  import opened Counting
  import opened Models

  /**
   * The `ValidationError`s the service raises, plus the foreign-key failure of the database
   * and the `ZeroDivisionError` of the occupancy percentage of a drawer of capacity 0.
   */
  datatype Error =
    | CapacidadNoPositiva
    | NombreVacio
    | CajonNoExiste
    | CajonLleno(nombre: string, capacidad: int)
    | ObjetoOCajonNoExiste
    | DestinoLleno(nombre: string)
    | TipoNoExiste
    | DivisionPorCero

  /** The message text of each error. */
  function Mensaje(e: Error): string {
    match e
    case CapacidadNoPositiva => "La capacidad máxima debe ser mayor a 0"
    case NombreVacio => "El nombre del cajón no puede estar vacío"
    case CajonNoExiste => "El cajón especificado no existe"
    case CajonLleno(nombre, capacidad) =>
      "El cajón '" + nombre + "' está lleno. Capacidad máxima: " + IntToString(capacidad)
    case ObjetoOCajonNoExiste => "El objeto o cajón especificado no existe"
    case DestinoLleno(nombre) => "El cajón destino '" + nombre + "' está lleno"
    case TipoNoExiste => "FOREIGN KEY constraint failed"
    case DivisionPorCero => "division by zero"
  }

  function DescripcionCreado(c: Cajon): string {
    "Cajón \"" + c.nombre + "\" creado con capacidad " + IntToString(c.capacidadMaxima)
  }

  function DescripcionAgregado(nombreObjeto: string): string {
    "Objeto \"" + nombreObjeto + "\" agregado al cajón"
  }

  function DescripcionMovido(nombreObjeto: string): string {
    "Objeto \"" + nombreObjeto + "\" movido fuera del cajón"
  }

  function DescripcionRecibido(nombreObjeto: string): string {
    "Objeto \"" + nombreObjeto + "\" movido al cajón"
  }

  /** Primary keys strictly increase along the table (rows are kept in insertion order). */
  predicate IdsCrecientes(objs: seq<Objeto>) {
    forall i, j :: 0 <= i < j < |objs| ==> objs[i].id < objs[j].id
  }

  /** `CajonObjeto.objects.get(id=...)`: the position of the row with that primary key. */
  function Buscar(objs: seq<Objeto>, id: int): (r: Option<nat>)
    ensures r.Some? ==> r.value < |objs| && objs[r.value].id == id
    ensures r.None? ==> forall o :: o in objs ==> o.id != id
  {
    if objs == [] then None
    else if objs[0].id == id then Some(0)
    else
      match Buscar(objs[1..], id)
      case Some(k) => Some(k + 1)
      case None => None
  }

  /** No drawer holds more objects than its capacity. */
  predicate DentroDeCapacidad(db: Db) {
    forall c :: c in db.cajones ==> Ocupacion(db.objetos, c) <= db.cajones[c].capacidadMaxima
  }

  /**
   * The database is intact, its primary keys are in insertion order, and both counters are
   * above every key handed out so far.
   */
  ghost predicate Consistente(db: Db, siguienteCajon: int, siguienteObjeto: int) {
    && Integro(db)
    && (forall c :: c in db.cajones ==> c < siguienteCajon)
    && IdsCrecientes(db.objetos)
    && (forall o :: o in db.objetos ==> o.id < siguienteObjeto)
  }

  class Store {
    var cajones: map<int, Cajon>
    var tipos: map<int, TipoObjeto>
    var objetos: seq<Objeto>
    var historial: seq<Entrada>
    /** The next primary key the auto-increment columns hand out. */
    var siguienteCajon: int
    var siguienteObjeto: int

    function Snapshot(): Db
      reads this
    {
      Db(cajones, tipos, objetos, historial)
    }

    ghost predicate Valid()
      reads this
    {
      Consistente(Snapshot(), siguienteCajon, siguienteObjeto)
    }

    /** An empty database whose object-type table is `tipos`. */
    constructor (tipos: map<int, TipoObjeto>)
      ensures Valid()
      ensures this.tipos == tipos && cajones == map[] && objetos == [] && historial == []
      ensures DentroDeCapacidad(Snapshot())
    {
      this.tipos := tipos;
      cajones := map[];
      objetos := [];
      historial := [];
      siguienteCajon := 1;
      siguienteObjeto := 1;
    }

    /**
     * `crear_cajon`: a non-positive capacity is refused first, then a name that is empty
     * after `strip()`; otherwise a new drawer with the stripped name and one `creado` entry.
     */
    method CrearCajon(nombre: string, capacidadMaxima: int) returns (r: Result<(int, Cajon), Error>)
      requires Valid()
      modifies this
      ensures Valid()
      ensures capacidadMaxima <= 0 ==> r == Failure(CapacidadNoPositiva)
      ensures capacidadMaxima > 0 && AllSpace(Python, nombre) ==> r == Failure(NombreVacio)
      ensures capacidadMaxima > 0 && !AllSpace(Python, nombre) ==>
        r == Success((old(siguienteCajon), Cajon(Trim(Python, nombre), capacidadMaxima)))
      ensures r.Failure? ==> Snapshot() == old(Snapshot())
      ensures r.Success? ==>
        var (id, c) := r.value;
        && id !in old(cajones)
        && cajones == old(cajones)[id := c]
        && tipos == old(tipos) && objetos == old(objetos)
        && historial == old(historial) + [Entrada(id, "creado", DescripcionCreado(c))]
        && Ocupacion(objetos, id) == 0
      ensures DentroDeCapacidad(old(Snapshot())) ==> DentroDeCapacidad(Snapshot())
    {
      if capacidadMaxima <= 0 {
        return Failure(CapacidadNoPositiva);
      }
      if |Trim(Python, nombre)| == 0 {
        return Failure(NombreVacio);
      }
      var id := siguienteCajon;
      var c := Cajon(Trim(Python, nombre), capacidadMaxima);
      OcupacionSinFilas(objetos, id);
      cajones := cajones[id := c];
      siguienteCajon := siguienteCajon + 1;
      historial := historial + [Entrada(id, "creado", DescripcionCreado(c))];
      r := Success((id, c));
    }

    /**
     * `agregar_objeto_a_cajon`: refused when the drawer does not exist or already holds
     * `capacidad_maxima` objects; otherwise one new row and one `objeto_agregado` entry.
     */
    method AgregarObjetoACajon(cajonId: int, nombreObjeto: string, tipoObjetoId: int, tamanio: string)
      returns (r: Result<Objeto, Error>)
      requires Valid()
      modifies this
      ensures Valid()
      ensures cajonId !in old(cajones) ==> r == Failure(CajonNoExiste)
      ensures cajonId in old(cajones) && old(Ocupacion(objetos, cajonId)) >= old(cajones)[cajonId].capacidadMaxima ==>
        r == Failure(CajonLleno(old(cajones)[cajonId].nombre, old(cajones)[cajonId].capacidadMaxima))
      ensures (cajonId in old(cajones) && old(Ocupacion(objetos, cajonId)) < old(cajones)[cajonId].capacidadMaxima
               && tipoObjetoId !in old(tipos)) ==> r == Failure(TipoNoExiste)
      ensures r.Success? <==>
        cajonId in old(cajones) && old(Ocupacion(objetos, cajonId)) < old(cajones)[cajonId].capacidadMaxima
        && tipoObjetoId in old(tipos)
      ensures r.Failure? ==> Snapshot() == old(Snapshot())
      ensures r.Success? ==>
        && r.value == Objeto(old(siguienteObjeto), cajonId, nombreObjeto, tipoObjetoId, tamanio)
        && cajones == old(cajones) && tipos == old(tipos)
        && objetos == old(objetos) + [r.value]
        && historial == old(historial) + [Entrada(cajonId, "objeto_agregado", DescripcionAgregado(nombreObjeto))]
        && Ocupacion(objetos, cajonId) == old(Ocupacion(objetos, cajonId)) + 1
        && Ocupacion(objetos, cajonId) <= cajones[cajonId].capacidadMaxima
        && (forall c :: c != cajonId ==> Ocupacion(objetos, c) == old(Ocupacion(objetos, c)))
      ensures DentroDeCapacidad(old(Snapshot())) ==> DentroDeCapacidad(Snapshot())
    {
      if cajonId !in cajones {
        return Failure(CajonNoExiste);
      }
      var cajon := cajones[cajonId];
      var objetosCount := Ocupacion(objetos, cajonId);
      if objetosCount >= cajon.capacidadMaxima {
        return Failure(CajonLleno(cajon.nombre, cajon.capacidadMaxima));
      }
      if tipoObjetoId !in tipos {
        // The insert violates the foreign key and the atomic block is rolled back.
        return Failure(TipoNoExiste);
      }
      var objeto := Objeto(siguienteObjeto, cajonId, nombreObjeto, tipoObjetoId, tamanio);
      var entrada := Entrada(cajonId, "objeto_agregado", DescripcionAgregado(nombreObjeto));
      Anexar(Snapshot(), siguienteCajon, siguienteObjeto, objeto, entrada);
      objetos := objetos + [objeto];
      siguienteObjeto := siguienteObjeto + 1;
      historial := historial + [entrada];
      r := Success(objeto);
    }

    /**
     * `mover_objeto`: refused when the object or the destination does not exist, or the
     * destination is full (also when it is the object's own drawer); otherwise the object's
     * drawer changes and two entries are appended, `objeto_movido` for the old drawer and
     * then `objeto_recibido` for the new one.
     */
    method MoverObjeto(objetoId: int, nuevoCajonId: int) returns (r: Result<Objeto, Error>)
      requires Valid()
      modifies this
      ensures Valid()
      ensures Buscar(old(objetos), objetoId).None? || nuevoCajonId !in old(cajones) ==> r == Failure(ObjetoOCajonNoExiste)
      ensures (Buscar(old(objetos), objetoId).Some? && nuevoCajonId in old(cajones)
               && old(Ocupacion(objetos, nuevoCajonId)) >= old(cajones)[nuevoCajonId].capacidadMaxima) ==>
        r == Failure(DestinoLleno(old(cajones)[nuevoCajonId].nombre))
      ensures r.Success? <==>
        Buscar(old(objetos), objetoId).Some? && nuevoCajonId in old(cajones)
        && old(Ocupacion(objetos, nuevoCajonId)) < old(cajones)[nuevoCajonId].capacidadMaxima
      ensures r.Failure? ==> Snapshot() == old(Snapshot())
      ensures r.Success? ==>
        var i := Buscar(old(objetos), objetoId).value;
        var anterior := old(objetos)[i];
        && r.value == anterior.(cajon := nuevoCajonId)
        && cajones == old(cajones) && tipos == old(tipos)
        && objetos == old(objetos)[i := r.value]
        && |objetos| == |old(objetos)|
        && historial == old(historial) + [
             Entrada(anterior.cajon, "objeto_movido", DescripcionMovido(anterior.nombreObjeto)),
             Entrada(nuevoCajonId, "objeto_recibido", DescripcionRecibido(anterior.nombreObjeto))]
        && (forall c :: c != anterior.cajon && c != nuevoCajonId ==> Ocupacion(objetos, c) == old(Ocupacion(objetos, c)))
      ensures DentroDeCapacidad(old(Snapshot())) ==> DentroDeCapacidad(Snapshot())
    {
      var indice := Buscar(objetos, objetoId);
      if indice.None? || nuevoCajonId !in cajones {
        return Failure(ObjetoOCajonNoExiste);
      }
      var nuevoCajon := cajones[nuevoCajonId];
      var objetosCount := Ocupacion(objetos, nuevoCajonId);
      if objetosCount >= nuevoCajon.capacidadMaxima {
        return Failure(DestinoLleno(nuevoCajon.nombre));
      }
      var i := indice.value;
      var anterior := objetos[i];
      var objeto := anterior.(cajon := nuevoCajonId);
      Reubicar(Snapshot(), i, nuevoCajonId);
      objetos := objetos[i := objeto];
      historial := historial + [
        Entrada(anterior.cajon, "objeto_movido", DescripcionMovido(anterior.nombreObjeto)),
        Entrada(nuevoCajonId, "objeto_recibido", DescripcionRecibido(anterior.nombreObjeto))];
      r := Success(objeto);
    }
  }

  /**
   * Appending a row whose keys resolve, whose primary key exceeds every other and whose
   * drawer has room keeps the database intact and the drawers within capacity, raising the
   * count of that drawer alone by one.
   */
  lemma Anexar(db: Db, siguienteCajon: int, siguienteObjeto: int, objeto: Objeto, entrada: Entrada)
    requires Consistente(db, siguienteCajon, siguienteObjeto)
    requires objeto.id == siguienteObjeto && entrada.cajon == objeto.cajon
    requires objeto.cajon in db.cajones && objeto.tipoObjeto in db.tipos
    requires Ocupacion(db.objetos, objeto.cajon) < db.cajones[objeto.cajon].capacidadMaxima
    ensures var nueva := Db(db.cajones, db.tipos, db.objetos + [objeto], db.historial + [entrada]);
      && Consistente(nueva, siguienteCajon, siguienteObjeto + 1)
      && Ocupacion(nueva.objetos, objeto.cajon) == Ocupacion(db.objetos, objeto.cajon) + 1
      && (forall c :: c != objeto.cajon ==> Ocupacion(nueva.objetos, c) == Ocupacion(db.objetos, c))
      && (DentroDeCapacidad(db) ==> DentroDeCapacidad(nueva))
  {
    var objs := db.objetos + [objeto];
    var nueva := Db(db.cajones, db.tipos, objs, db.historial + [entrada]);
    assert Consistente(nueva, siguienteCajon, siguienteObjeto + 1) by {
      AnexarConsistente(db, siguienteCajon, siguienteObjeto, objeto, entrada);
    }
    forall c ensures Ocupacion(objs, c) == Ocupacion(db.objetos, c) + (if objeto.cajon == c then 1 else 0) {
      OcupacionAppend(db.objetos, objeto, c);
    }
  }

  lemma AnexarConsistente(db: Db, siguienteCajon: int, siguienteObjeto: int, objeto: Objeto, entrada: Entrada)
    requires Consistente(db, siguienteCajon, siguienteObjeto)
    requires objeto.id == siguienteObjeto && entrada.cajon == objeto.cajon
    requires objeto.cajon in db.cajones && objeto.tipoObjeto in db.tipos
    ensures Consistente(Db(db.cajones, db.tipos, db.objetos + [objeto], db.historial + [entrada]),
                        siguienteCajon, siguienteObjeto + 1)
  {
    var objs := db.objetos + [objeto];
    assert forall o :: o in objs ==> o == objeto || o in db.objetos;
    assert forall e :: e in db.historial + [entrada] ==> e == entrada || e in db.historial;
    assert IdsCrecientes(objs) by {
      assert forall k :: 0 <= k < |db.objetos| ==> db.objetos[k] in db.objetos;
    }
  }

  /**
   * Moving row `i` to an existing drawer with room keeps every foreign key valid and the
   * primary keys in order, changes no count but the two drawers involved, and leaves every
   * drawer within capacity if all were before.
   */
  lemma Reubicar(db: Db, i: nat, destino: int)
    requires Integro(db) && IdsCrecientes(db.objetos)
    requires i < |db.objetos| && destino in db.cajones
    requires Ocupacion(db.objetos, destino) < db.cajones[destino].capacidadMaxima
    ensures var objs := db.objetos[i := db.objetos[i].(cajon := destino)];
      && (forall o :: o in objs ==> o in db.objetos || o == db.objetos[i].(cajon := destino))
      && (forall o :: o in objs ==> o.cajon in db.cajones && o.tipoObjeto in db.tipos)
      && IdsCrecientes(objs)
      && (forall c :: c != db.objetos[i].cajon && c != destino ==> Ocupacion(objs, c) == Ocupacion(db.objetos, c))
      && (DentroDeCapacidad(db) ==> forall c :: c in db.cajones ==> Ocupacion(objs, c) <= db.cajones[c].capacidadMaxima)
  {
    var anterior := db.objetos[i];
    var objeto := anterior.(cajon := destino);
    var objs := db.objetos[i := objeto];
    assert forall o :: o in objs ==> o == objeto || o in db.objetos;
    forall c ensures Ocupacion(objs, c) + (if anterior.cajon == c then 1 else 0)
                  == Ocupacion(db.objetos, c) + (if destino == c then 1 else 0) {
      OcupacionUpdate(db.objetos, i, objeto, c);
    }
  }

  // ---- obtener_estadisticas_cajon ----

  datatype Estadisticas = Estadisticas(
    id: int,
    nombre: string,
    capacidadMaxima: int,
    objetosActuales: nat,
    capacidadDisponible: int,
    /** `estadisticas_por_tamanio`: one (label, count) pair per choice, in choice order. */
    porTamanio: seq<(string, nat)>,
    /** `estadisticas_por_tipo`: a count per type name. */
    porTipo: Conteo<string>)

  /** The type name of each object (`objeto.tipo_objeto.nombre`). */
  function NombresDeTipo(tipos: map<int, TipoObjeto>, objs: seq<Objeto>): (r: seq<string>)
    requires forall o :: o in objs ==> o.tipoObjeto in tipos
    ensures |r| == |objs|
    ensures forall k :: 0 <= k < |objs| ==> r[k] == tipos[objs[k].tipoObjeto].nombre
  {
    if objs == [] then []
    else
      var n := |objs| - 1;
      assert forall o :: o in objs[..n] ==> o in objs;
      NombresDeTipo(tipos, objs[..n]) + [tipos[objs[n].tipoObjeto].nombre]
  }

  /** The stored size code of each object. */
  function Codigos(objs: seq<Objeto>): (r: seq<string>)
    ensures |r| == |objs|
    ensures forall k :: 0 <= k < |objs| ==> r[k] == objs[k].tamanio
  {
    if objs == [] then [] else Codigos(objs[..|objs| - 1]) + [objs[|objs| - 1].tamanio]
  }

  /** The per-size table: each choice's label with the number of objects stored with its code. */
  ghost predicate TablaPorTamanio(objs: seq<Objeto>, t: seq<(string, nat)>) {
    && |t| == |Choices|
    && forall k :: 0 <= k < |t| ==> t[k] == (Etiqueta(Choices[k]), Count(Codigos(objs), Codigo(Choices[k])))
  }

  /**
   * `obtener_estadisticas_cajon`: an error for a missing drawer; a division by zero for a
   * drawer of capacity 0 (nothing but `crear_cajon` keeps such a drawer out of the table);
   * otherwise the drawer's fields, its object count, the room left, and the counts by size
   * and by type.
   */
  method ObtenerEstadisticasCajon(db: Db, cajonId: int) returns (r: Result<Estadisticas, Error>)
    requires Integro(db)
    ensures cajonId !in db.cajones <==> r == Failure(CajonNoExiste)
    ensures cajonId in db.cajones && db.cajones[cajonId].capacidadMaxima == 0 <==> r == Failure(DivisionPorCero)
    ensures r.Success? <==> cajonId in db.cajones && db.cajones[cajonId].capacidadMaxima != 0
    ensures r.Success? ==>
      var c := db.cajones[cajonId];
      var objs := ObjetosDeCajon(db.objetos, cajonId);
      var e := r.value;
      && e.id == cajonId && e.nombre == c.nombre && e.capacidadMaxima == c.capacidadMaxima
      && e.objetosActuales == Ocupacion(db.objetos, cajonId)
      && e.capacidadDisponible == c.capacidadMaxima - e.objetosActuales
      && TablaPorTamanio(objs, e.porTamanio)
      && Tabla(NombresDeTipo(db.tipos, objs), e.porTipo)
  {
    if cajonId !in db.cajones {
      return Failure(CajonNoExiste);
    }
    var cajon := db.cajones[cajonId];
    var objetos := ObjetosDeCajon(db.objetos, cajonId);
    var objetosCount := |objetos|;
    var capacidadDisponible := cajon.capacidadMaxima - objetosCount;

    var tamanios := ContarPorTamanio(objetos);
    var tipos := ContarPorTipo(NombresDeTipo(db.tipos, objetos));
    if cajon.capacidadMaxima == 0 {
      return Failure(DivisionPorCero);
    }
    r := Success(Estadisticas(cajonId, cajon.nombre, cajon.capacidadMaxima, objetosCount,
                              capacidadDisponible, tamanios, tipos));
  }

  /** The per-size loop: `objetos.filter(tamanio=code).count()` for each choice, keyed by its label. */
  method ContarPorTamanio(objetos: seq<Objeto>) returns (tamanios: seq<(string, nat)>)
    ensures TablaPorTamanio(objetos, tamanios)
  {
    tamanios := [];
    for k := 0 to |Choices|
      invariant |tamanios| == k
      invariant forall m :: 0 <= m < k ==> tamanios[m] == (Etiqueta(Choices[m]), Count(Codigos(objetos), Codigo(Choices[m])))
    {
      tamanios := tamanios + [(Etiqueta(Choices[k]), Count(Codigos(objetos), Codigo(Choices[k])))];
    }
  }

  /** The per-type loop: a name seen for the first time is entered at 0, then incremented. */
  method ContarPorTipo(nombres: seq<string>) returns (t: Conteo<string>)
    ensures Tabla(nombres, t)
  {
    var orden: seq<string> := [];
    var cuentas: map<string, nat> := map[];
    for k := 0 to |nombres|
      invariant Tabla(nombres[..k], Conteo(orden, cuentas))
    {
      var tipoNombre := nombres[k];
      ghost var antes := Conteo(orden, cuentas);
      if tipoNombre !in cuentas {
        orden := orden + [tipoNombre];
        cuentas := cuentas[tipoNombre := 0];
      }
      cuentas := cuentas[tipoNombre := cuentas[tipoNombre] + 1];
      PrefijoSiguiente(nombres, k);
      TablaPaso(nombres[..k], antes, tipoNombre, Conteo(orden, cuentas));
    }
    PrefijoTotal(nombres);
    t := Conteo(orden, cuentas);
  }

  /** When every stored size is one of the three codes, the per-size counts add up to the object count. */
  lemma PorTamanioSumaTotal(objs: seq<Objeto>, t: seq<(string, nat)>)
    requires TablaPorTamanio(objs, t)
    requires forall o :: o in objs ==> DeCodigo(o.tamanio).Some?
    ensures SumaPares(t) == |objs|
  {
    var codes := ["PE", "ME", "GR"];
    assert forall k :: 0 <= k < |t| ==> Codigo(Choices[k]) == codes[k];
    var cs := Codigos(objs);
    forall x | x in cs ensures x in codes {
      var k :| 0 <= k < |cs| && cs[k] == x;
      assert DeCodigo(objs[k].tamanio).Some? by {
        assert objs[k] in objs;
      }
    }
    CodigosDistintos();
    SumCountsCover(codes, cs);
    SumaParesEsSumCounts(t, codes, cs);
  }

  /** The per-type counts of a drawer's statistics add up to its number of objects. */
  lemma PorTipoSumaTotal(tipos: map<int, TipoObjeto>, objs: seq<Objeto>, t: Conteo<string>)
    requires forall o :: o in objs ==> o.tipoObjeto in tipos
    requires Tabla(NombresDeTipo(tipos, objs), t)
    ensures forall x :: x in t.orden ==> x in t.cuentas
    ensures SumaConteo(t) == |objs|
  {
    TablaSumaTotal(NombresDeTipo(tipos, objs), t);
  }

  lemma CodigosDistintos()
    ensures Distinct(["PE", "ME", "GR"])
  {
    var codes := ["PE", "ME", "GR"];
    assert codes[0][0] == 'P' && codes[1][0] == 'M' && codes[2][0] == 'G';
  }

  function SumaPares(t: seq<(string, nat)>): nat {
    if t == [] then 0 else SumaPares(t[..|t| - 1]) + t[|t| - 1].1
  }

  lemma {:induction false} SumaParesEsSumCounts(t: seq<(string, nat)>, ks: seq<string>, s: seq<string>)
    requires |t| == |ks|
    requires forall k :: 0 <= k < |t| ==> t[k].1 == Count(s, ks[k])
    ensures SumaPares(t) == SumCounts(ks, s)
  {
    if t != [] {
      var n := |t| - 1;
      SumaParesEsSumCounts(t[..n], ks[..n], s);
    }
  }


}
