/**
 * The home page's figures: total objects and total capacity over the drawers, the overall
 * occupancy, the number of distinct object types, each card's occupancy bar, the first three
 * objects of each drawer with the "+N más" remainder, and the size labels.
 */
module Home {
  import opened Wrappers
  import opened Counting
  import opened Models
  import opened Ocupacion

  /** The page's own `CajonObjeto` interface: the type is an embedded `{id, nombre}`. */
  datatype TipoRef = TipoRef(id: int, nombre: string)
  datatype Objeto = Objeto(id: int, nombreObjeto: string, tipoObjeto: TipoRef, tamanio: string)

  /** The page's own `Cajon` interface (its untyped `historial` is not read and not kept). */
  datatype Cajon = Cajon(id: int, nombre: string, capacidadMaxima: int, objetos: seq<Objeto>)

  /** `cajones.reduce((sum, cajon) => sum + cajon.objetos.length, 0)`. */
  function TotalObjetos(cajones: seq<Cajon>): nat {
    if cajones == [] then 0
    else TotalObjetos(cajones[..|cajones| - 1]) + |cajones[|cajones| - 1].objetos|
  }

  /** `cajones.reduce((sum, cajon) => sum + cajon.capacidad_maxima, 0)`. */
  function TotalCapacidad(cajones: seq<Cajon>): int {
    if cajones == [] then 0
    else TotalCapacidad(cajones[..|cajones| - 1]) + cajones[|cajones| - 1].capacidadMaxima
  }

  /** `cajones.flatMap(cajon => cajon.objetos)`: every object, drawer after drawer. */
  function Todos(cajones: seq<Cajon>): (r: seq<Objeto>)
    ensures forall o :: o in r <==> exists c :: c in cajones && o in c.objetos
  {
    if cajones == [] then []
    else
      var n := |cajones| - 1;
      assert cajones == cajones[..n] + [cajones[n]];
      Todos(cajones[..n]) + cajones[n].objetos
  }

  /** Flattening keeps every object once: its length is the total object count. */
  lemma {:induction false} TodosLongitud(cajones: seq<Cajon>)
    ensures |Todos(cajones)| == TotalObjetos(cajones)
  {
    if cajones != [] {
      TodosLongitud(cajones[..|cajones| - 1]);
    }
  }

  /** The type id of each object. */
  function IdsDeTipo(objs: seq<Objeto>): (r: seq<int>)
    ensures |r| == |objs|
    ensures forall k :: 0 <= k < |objs| ==> r[k] == objs[k].tipoObjeto.id
  {
    if objs == [] then [] else IdsDeTipo(objs[..|objs| - 1]) + [objs[|objs| - 1].tipoObjeto.id]
  }

  /**
   * `new Set(cajones.flatMap(... obj.tipo_objeto.id)).size`: the number of distinct type ids,
   * never more than the number of objects.
   */
  function TiposUnicos(cajones: seq<Cajon>): (r: nat)
    ensures r == |Dedup(IdsDeTipo(Todos(cajones)))|
    ensures r <= TotalObjetos(cajones)
  {
    var ids := IdsDeTipo(Todos(cajones));
    CardinalDedup(ids);
    TodosLongitud(cajones);
    |Conjunto(ids)|
  }

  /**
   * `ocupacionGeneral`: the rounded percentage of the total capacity in use, 0 when the total
   * capacity is not positive; within 0..100 while no more objects than room.
   */
  function OcupacionGeneral(cajones: seq<Cajon>): (r: int)
    ensures TotalCapacidad(cajones) <= 0 ==> r == 0
    ensures TotalCapacidad(cajones) > 0 ==> Porcentaje(TotalObjetos(cajones), TotalCapacidad(cajones)) == Finito(r)
    ensures r >= 0
    ensures TotalObjetos(cajones) <= TotalCapacidad(cajones) ==> r <= 100
  {
    var total, capacidad := TotalObjetos(cajones), TotalCapacidad(cajones);
    if capacidad > 0 then
      PorcentajeNoNegativo(total, capacidad);
      Porcentaje(total, capacidad).valor
    else 0
  }

  lemma PorcentajeNoNegativo(n: nat, c: int)
    requires c > 0
    ensures Porcentaje(n, c).valor >= 0
    ensures n <= c ==> Porcentaje(n, c).valor <= 100
  {
    PorcentajeAcotado(0, c);
    PorcentajeMonotono(0, n, c);
    if n <= c {
      PorcentajeAcotado(n, c);
    }
  }

  /** `getOcupacionPorcentaje` of one card. */
  function PorcentajeCajon(c: Cajon): Numero {
    Porcentaje(|c.objetos|, c.capacidadMaxima)
  }

  /** A card's bar: its colour from the rounded percentage, its width never above 100. */
  lemma BarraCajon(c: Cajon)
    ensures !Mayor(Ancho(PorcentajeCajon(c)), 100)
    ensures c.capacidadMaxima > 0 && |c.objetos| <= c.capacidadMaxima ==>
      Ancho(PorcentajeCajon(c)) == PorcentajeCajon(c)
    ensures c.capacidadMaxima > 0 ==>
      (Color(PorcentajeCajon(c)) == Verde <==> PorcentajeCajon(c).valor < 50)
  {
    if c.capacidadMaxima > 0 && |c.objetos| <= c.capacidadMaxima {
      PorcentajeAcotado(|c.objetos|, c.capacidadMaxima);
    }
  }

  /** How many objects a card lists. */
  const Mostrados: nat := 3

  /** `cajon.objetos.slice(0, 3)`: the first three objects, or all when there are fewer. */
  function Recientes(objs: seq<Objeto>): (r: seq<Objeto>)
    ensures |r| <= Mostrados && |r| <= |objs|
    ensures r == objs[..|r|]
    ensures |r| == Mostrados || r == objs
  {
    if |objs| <= Mostrados then objs else objs[..Mostrados]
  }

  /** The "+N más" line: present only with more than three objects, N the ones not listed. */
  function Restantes(objs: seq<Objeto>): (r: Option<nat>)
    ensures r.Some? <==> |objs| > Mostrados
    ensures r.Some? ==> r.value > 0 && |Recientes(objs)| + r.value == |objs|
    ensures r.None? ==> Recientes(objs) == objs
  {
    if |objs| > Mostrados then Some(|objs| - Mostrados) else None
  }

  /** `getTamanioLabel`: the label of a size code, any other value unchanged. */
  function TamanioLabel(tamanio: string): (r: string)
    ensures r == TamanioDisplay(tamanio)
  {
    match tamanio
    case "PE" => "Pequeño"
    case "ME" => "Mediano"
    case "GR" => "Grande"
    case _ => tamanio
  }
}
