/**
 * The history page: the entries shown under the action filter, the distinct actions
 * offered by the filter's drop-down, and the count of entries per action ("estadísticas").
 */
module Historial {
  import opened Counting
  import opened Api

  /** The action of each entry, in order. */
  function Acciones(h: seq<CajonHistorial>): (r: seq<string>)
    ensures |r| == |h|
    ensures forall k :: 0 <= k < |h| ==> r[k] == h[k].accion
  {
    if h == [] then [] else Acciones(h[..|h| - 1]) + [h[|h| - 1].accion]
  }

  /** The entries with action `a`, in their original order. */
  function ConAccion(h: seq<CajonHistorial>, a: string): seq<CajonHistorial> {
    if h == [] then []
    else
      var n := |h| - 1;
      ConAccion(h[..n], a) + (if h[n].accion == a then [h[n]] else [])
  }

  /**
   * `historialFiltrado`: the whole history under the empty filter; otherwise exactly the
   * entries with the chosen action, in order, as many as that action occurs.
   */
  function Filtrado(h: seq<CajonHistorial>, filtroAccion: string): (r: seq<CajonHistorial>)
    ensures filtroAccion == "" ==> r == h
    ensures filtroAccion != "" ==> forall e :: e in r <==> e in h && e.accion == filtroAccion
    ensures filtroAccion != "" ==> |r| == Count(Acciones(h), filtroAccion)
    ensures |r| <= |h|
  {
    ConAccionPertenencia(h, filtroAccion);
    if filtroAccion == "" then h else ConAccion(h, filtroAccion)
  }

  /** Filtering a concatenation filters each part, so the shown entries keep their order. */
  lemma FiltradoConcat(a: seq<CajonHistorial>, b: seq<CajonHistorial>, filtroAccion: string)
    ensures Filtrado(a + b, filtroAccion) == Filtrado(a, filtroAccion) + Filtrado(b, filtroAccion)
  {
    ConAccionConcat(a, b, filtroAccion);
  }

  /** The filtered entries are exactly those of the history with the chosen action. */
  lemma {:induction false} ConAccionPertenencia(h: seq<CajonHistorial>, a: string)
    ensures forall e :: e in ConAccion(h, a) <==> e in h && e.accion == a
    ensures |ConAccion(h, a)| == Count(Acciones(h), a)
    ensures |ConAccion(h, a)| <= |h|
  {
    if h != [] {
      var n := |h| - 1;
      ConAccionPertenencia(h[..n], a);
      assert h == h[..n] + [h[n]];
      assert Acciones(h)[..n] == Acciones(h[..n]);
    }
  }

  /** Filtering distributes over concatenation, so it keeps the original order. */
  lemma {:induction false} ConAccionConcat(a: seq<CajonHistorial>, b: seq<CajonHistorial>, x: string)
    ensures ConAccion(a + b, x) == ConAccion(a, x) + ConAccion(b, x)
  {
    if b == [] {
      assert a + b == a;
    } else {
      var n := |b| - 1;
      assert (a + b)[..|a + b| - 1] == a + b[..n];
      assert (a + b)[|a + b| - 1] == b[n];
      ConAccionConcat(a, b[..n], x);
    }
  }

  /**
   * `accionesUnicas` (`Array.from(new Set(historial.map(item => item.accion)))`): each
   * action once, exactly the actions present, in order of first occurrence.
   */
  function AccionesUnicas(h: seq<CajonHistorial>): (r: seq<string>)
    ensures Distinct(r)
    ensures forall a :: a in r <==> a in Acciones(h)
    ensures forall i, j :: 0 <= i < j < |r| ==> FirstIndex(Acciones(h), r[i]) < FirstIndex(Acciones(h), r[j])
  {
    var acciones := Acciones(h);
    DedupMiembros(acciones);
    forall i, j | 0 <= i < j < |Dedup(acciones)|
      ensures FirstIndex(acciones, Dedup(acciones)[i]) < FirstIndex(acciones, Dedup(acciones)[j])
    {
      DedupFirstOccurrenceOrder(acciones, i, j);
    }
    Dedup(acciones)
  }

  /** An action is offered by the filter exactly when some entry has it. */
  lemma AccionesPresentes(h: seq<CajonHistorial>, a: string)
    ensures a in AccionesUnicas(h) <==> exists k :: 0 <= k < |h| && h[k].accion == a
  {
    var acciones := Acciones(h);
    if a in acciones {
      var k := FirstIndex(acciones, a);
      assert h[k].accion == a;
    }
  }

  /**
   * `getEstadisticasAcciones`: the `reduce` that sets `acc[accion] = (acc[accion] || 0) + 1`
   * for each entry. The keys come out in insertion order, the distinct actions; each count
   * is the number of entries with that action, and the counts add up to the history length.
   */
  method EstadisticasAcciones(historial: seq<CajonHistorial>) returns (stats: Conteo<string>)
    ensures Tabla(Acciones(historial), stats)
    ensures stats.orden == AccionesUnicas(historial)
    ensures forall a :: a in stats.orden ==> a in stats.cuentas
    ensures SumaConteo(stats) == |historial|
  {
    var acciones := Acciones(historial);
    var orden: seq<string> := [];
    var acc: map<string, nat> := map[];
    for k := 0 to |historial|
      invariant Tabla(acciones[..k], Conteo(orden, acc))
    {
      var accion := historial[k].accion;
      assert accion == acciones[k];
      ghost var antes := Conteo(orden, acc);
      var previo := if accion in acc then acc[accion] else 0;
      if accion !in acc {
        orden := orden + [accion];
      }
      acc := acc[accion := previo + 1];
      TablaPaso(acciones[..k], antes, accion, Conteo(orden, acc));
      PrefijoSiguiente(acciones, k);
    }
    PrefijoTotal(acciones);
    stats := Conteo(orden, acc);
    TablaSumaTotal(acciones, stats);
  }
}
