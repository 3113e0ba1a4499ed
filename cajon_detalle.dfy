/**
 * The drawer-detail page: the drawer record merged with its separately fetched objects, the
 * object count and occupancy that read a missing `objetos` as none, the number of distinct
 * types among the drawer's objects, and the recommendation shown (the first of the list).
 */
module CajonDetalle {
  import opened Wrappers
  import opened Counting
  import opened Ocupacion
  import opened Api

  /** `{...cajonData, objetos: objetosData}`: every field of the drawer, with the fetched objects. */
  function Combinar(cajonData: Cajon, objetosData: seq<CajonObjeto>): (r: Cajon)
    ensures r.id == cajonData.id && r.nombre == cajonData.nombre
    ensures r.capacidadMaxima == cajonData.capacidadMaxima && r.historial == cajonData.historial
    ensures r.objetos == Some(objetosData)
  {
    cajonData.(objetos := Some(objetosData))
  }

  /** `cajon.objetos || []`. */
  function ObjetosDe(c: Cajon): (r: seq<CajonObjeto>)
    ensures c.objetos.None? ==> r == []
    ensures c.objetos.Some? ==> r == c.objetos.value
  {
    match c.objetos
    case None => []
    case Some(os) => os
  }

  /** `cajon.objetos?.length || 0`. */
  function NumeroObjetos(c: Cajon): (r: nat)
    ensures r == |ObjetosDe(c)|
    ensures c.objetos.None? ==> r == 0
  {
    match c.objetos
    case None => 0
    case Some(os) => |os|
  }

  /** `getOcupacionPorcentaje`, reading a missing object list as empty. */
  function PorcentajeDetalle(c: Cajon): (r: Numero)
    ensures r == Porcentaje(NumeroObjetos(c), c.capacidadMaxima)
    ensures c.objetos.None? && c.capacidadMaxima != 0 ==> r == Finito(0)
  {
    PorcentajeCero(c.capacidadMaxima);
    Porcentaje(NumeroObjetos(c), c.capacidadMaxima)
  }

  /** No objects are 0 % of any non-zero capacity. */
  lemma PorcentajeCero(c: int)
    ensures c != 0 ==> Porcentaje(0, c) == Finito(0)
  {
    if c > 0 {
      PorcentajeAcotado(0, c);
    } else if c < 0 {
      var v := Porcentaje(0, c).valor;
      Cancelar(-2 * c, v, 1);
      Cancelar(-2 * c, -1, v);
    }
  }

  /** The occupancy bar's colour and width on the detail page. */
  lemma BarraDetalle(c: Cajon)
    ensures !Mayor(Ancho(PorcentajeDetalle(c)), 100)
    ensures Color(PorcentajeDetalle(c)) == Verde <==> Menor(PorcentajeDetalle(c), 50)
    ensures c.capacidadMaxima > 0 && NumeroObjetos(c) <= c.capacidadMaxima ==>
      Ancho(PorcentajeDetalle(c)) == PorcentajeDetalle(c)
  {
    if c.capacidadMaxima > 0 && NumeroObjetos(c) <= c.capacidadMaxima {
      PorcentajeAcotado(NumeroObjetos(c), c.capacidadMaxima);
    }
  }

  function IdsDeTipo(objs: seq<CajonObjeto>): (r: seq<int>)
    ensures |r| == |objs|
    ensures forall k :: 0 <= k < |objs| ==> r[k] == objs[k].tipoObjeto.id
  {
    if objs == [] then [] else IdsDeTipo(objs[..|objs| - 1]) + [objs[|objs| - 1].tipoObjeto.id]
  }

  /** The "Tipos" figure: `new Set((cajon.objetos || []).map(o => o.tipo_objeto.id)).size`. */
  function TiposDistintos(c: Cajon): (r: nat)
    ensures r == |Dedup(IdsDeTipo(ObjetosDe(c)))|
    ensures r <= NumeroObjetos(c)
    ensures forall id :: id in Dedup(IdsDeTipo(ObjetosDe(c))) <==>
      exists k :: 0 <= k < |ObjetosDe(c)| && ObjetosDe(c)[k].tipoObjeto.id == id
  {
    var ids := IdsDeTipo(ObjetosDe(c));
    CardinalDedup(ids);
    DedupMiembros(ids);
    |Conjunto(ids)|
  }

  /** `recomendaciones?.[0] || ''`: the first recommendation, '' when the list is missing or empty. */
  function PrimeraRecomendacion(recomendaciones: Option<seq<string>>): (r: string)
    ensures recomendaciones.None? ==> r == ""
    ensures recomendaciones.Some? && recomendaciones.value == [] ==> r == ""
    ensures recomendaciones.Some? && recomendaciones.value != [] ==> r == recomendaciones.value[0]
  {
    match recomendaciones
    case None => ""
    case Some(rs) => if rs == [] then "" else rs[0]
  }
}
