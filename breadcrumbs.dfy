/**
 * The `Breadcrumbs` component: the trail of links derived from the current URL path. The
 * path is split on '/', empty segments are dropped, and one item is pushed per segment
 * after the leading "Inicio"; only the last item is the current page.
 */
module Breadcrumbs {
  import opened Strings
  import opened Counting

  datatype Item = Item(name: string, path: string, current: bool)

  const Inicio: string := "Inicio"

  /** `.filter(segment => segment)`: the non-empty segments, in order. */
  function NoVacios(ps: seq<string>): (r: seq<string>)
    ensures forall i :: 0 <= i < |r| ==> r[i] != []
    ensures forall x :: x in r <==> x in ps && x != []
    ensures |r| <= |ps|
  {
    if ps == [] then []
    else
      var rest := NoVacios(ps[1..]);
      assert forall x :: x in ps <==> x == ps[0] || x in ps[1..];
      if ps[0] != [] then [ps[0]] + rest else rest
  }

  lemma {:induction false} NoVaciosConcat(a: seq<string>, b: seq<string>)
    ensures NoVacios(a + b) == NoVacios(a) + NoVacios(b)
  {
    if a == [] {
      assert a + b == b;
    } else {
      assert (a + b)[1..] == a[1..] + b;
      NoVaciosConcat(a[1..], b);
    }
  }

  lemma {:induction false} NoVaciosIdentidad(ps: seq<string>)
    requires forall i :: 0 <= i < |ps| ==> ps[i] != []
    ensures NoVacios(ps) == ps
  {
    if ps != [] {
      NoVaciosIdentidad(ps[1..]);
    }
  }

  /** `location.pathname.split('/').filter(segment => segment)`. */
  function Segmentos(pathname: string): (r: seq<string>)
    ensures forall i :: 0 <= i < |r| ==> r[i] != [] && '/' !in r[i]
  {
    var ps := Split(pathname, '/');
    var r := NoVacios(ps);
    assert forall i :: 0 <= i < |r| ==> r[i] in ps;
    r
  }

  /** The upper-cased first character followed by the rest (`charAt(0).toUpperCase() + slice(1)`). */
  function Capitalizar(segment: string): (r: string)
    ensures |r| == |segment|
    ensures segment != [] ==> r[0] == AsciiUpper(segment[0]) && r[1..] == segment[1..]
  {
    if segment == [] then [] else [AsciiUpper(segment[0])] + segment[1..]
  }

  /** The switch naming a segment: three fixed names, otherwise the capitalised segment. */
  function NombreSegmento(segment: string): (r: string)
    ensures segment == "historial" ==> r == "Historial"
    ensures segment == "tipos-objeto" ==> r == "Tipos de Objeto"
    ensures segment == "recomendaciones" ==> r == "Recomendaciones"
    ensures segment !in {"historial", "tipos-objeto", "recomendaciones"} ==> r == Capitalizar(segment)
  {
    if segment == "historial" then "Historial"
    else if segment == "tipos-objeto" then "Tipos de Objeto"
    else if segment == "recomendaciones" then "Recomendaciones"
    else Capitalizar(segment)
  }

  /** The link of the item for the first `n` segments: "/" followed by them joined with "/". */
  function Ruta(segmentos: seq<string>, n: nat): string
    requires n <= |segmentos|
  {
    "/" + Join(segmentos[..n], '/')
  }

  /** The item for segment `i`: its name, the link up to it, and whether it is the last. */
  function ItemDe(segmentos: seq<string>, i: nat): Item
    requires i < |segmentos|
  {
    Item(NombreSegmento(segmentos[i]), Ruta(segmentos, i + 1), i == |segmentos| - 1)
  }

  /**
   * `getBreadcrumbItems`: "Inicio" alone and current at the root; otherwise a non-current
   * "Inicio" followed by one item per segment, linking to the path up to that segment and
   * current only for the last. The component renders only when there is more than one item.
   */
  method ItemsDeRuta(pathname: string) returns (items: seq<Item>)
    ensures Segmentos(pathname) == [] ==> items == [Item(Inicio, "/", true)]
    ensures Segmentos(pathname) != [] ==>
      && |items| == |Segmentos(pathname)| + 1
      && items[0] == Item(Inicio, "/", false)
    ensures forall i :: 0 <= i < |Segmentos(pathname)| ==> items[i + 1] == ItemDe(Segmentos(pathname), i)
    ensures forall i :: 0 <= i < |items| ==> (items[i].current <==> i == |items| - 1)
    ensures |items| > 1 <==> Segmentos(pathname) != []
  {
    var pathSegments := NoVacios(Split(pathname, '/'));
    assert pathSegments == Segmentos(pathname);
    if |pathSegments| == 0 {
      return [Item(Inicio, "/", true)];
    }
    items := [Item(Inicio, "/", false)];
    for index := 0 to |pathSegments|
      invariant items == Migas(pathSegments, index)
    {
      var segment := pathSegments[index];
      var path := "/" + Join(pathSegments[..index + 1], '/');
      var isLast := index == |pathSegments| - 1;
      var name := NombreSegmento(segment);
      assert Item(name, path, isLast) == ItemDe(pathSegments, index);
      items := items + [Item(name, path, isLast)];
    }
    MigasIndices(pathSegments, |pathSegments|);
    MigasActual(pathSegments);
  }

  /** The non-current "Inicio" followed by the items for the first `n` segments. */
  function Migas(segmentos: seq<string>, n: nat): seq<Item>
    requires n <= |segmentos|
  {
    if n == 0 then [Item(Inicio, "/", false)] else Migas(segmentos, n - 1) + [ItemDe(segmentos, n - 1)]
  }

  lemma {:induction false} MigasIndices(segmentos: seq<string>, n: nat)
    requires n <= |segmentos|
    ensures |Migas(segmentos, n)| == n + 1 && Migas(segmentos, n)[0] == Item(Inicio, "/", false)
    ensures forall i :: 0 <= i < n ==> Migas(segmentos, n)[i + 1] == ItemDe(segmentos, i)
  {
    if n > 0 {
      MigasIndices(segmentos, n - 1);
    }
  }

  /** In the whole trail only the last item is current. */
  lemma MigasActual(segmentos: seq<string>)
    requires segmentos != []
    ensures forall i :: 0 <= i < |Migas(segmentos, |segmentos|)| ==>
      (Migas(segmentos, |segmentos|)[i].current <==> i == |segmentos|)
  {
    var m := Migas(segmentos, |segmentos|);
    MigasIndices(segmentos, |segmentos|);
    forall i | 0 <= i < |m| ensures m[i].current <==> i == |segmentos| {
      if i > 0 {
        assert m[i] == ItemDe(segmentos, i - 1);
      }
    }
  }

  /** A trailing '/' adds one empty piece to the split. */
  lemma {:induction false} SplitBarraFinal(p: string)
    ensures Split(p + "/", '/') == Split(p, '/') + [""]
  {
    if p == [] {
      assert ([] + "/")[1..] == [];
    } else {
      assert (p + "/")[1..] == p[1..] + "/";
      SplitBarraFinal(p[1..]);
    }
  }

  /** A leading '/' adds one empty piece in front. */
  lemma SplitBarraInicial(t: string)
    ensures Split("/" + t, '/') == [""] + Split(t, '/')
  {
    assert ("/" + t)[1..] == t;
  }

  /** A trailing slash does not change the trail. */
  lemma BarraFinal(pathname: string)
    ensures Segmentos(pathname + "/") == Segmentos(pathname)
  {
    SplitBarraFinal(pathname);
    NoVaciosConcat(Split(pathname, '/'), [""]);
  }

  /**
   * A canonical path, "/" followed by non-empty segments without '/' joined with "/", has
   * exactly those segments, so the last item links back to the path itself.
   */
  lemma RutaCanonica(segmentos: seq<string>)
    requires segmentos != []
    requires forall i :: 0 <= i < |segmentos| ==> segmentos[i] != [] && '/' !in segmentos[i]
    ensures Segmentos("/" + Join(segmentos, '/')) == segmentos
    ensures Ruta(segmentos, |segmentos|) == "/" + Join(segmentos, '/')
  {
    var t := Join(segmentos, '/');
    SplitBarraInicial(t);
    SplitJoin(segmentos, '/');
    SinVacioInicial(segmentos);
    PrefijoTotal(segmentos);
  }

  lemma SinVacioInicial(segmentos: seq<string>)
    requires forall i :: 0 <= i < |segmentos| ==> segmentos[i] != []
    ensures NoVacios([""] + segmentos) == segmentos
  {
    NoVaciosConcat([""], segmentos);
    assert NoVacios([""]) == [];
    NoVaciosIdentidad(segmentos);
  }
}
