/**
 * The occupancy helpers that the home page and the drawer-detail page share word for word:
 * `Math.round((objetos / capacidad) * 100)`, the three-colour threshold, and the bar width
 * `Math.min(porcentaje, 100)`. JavaScript numbers are modelled as an integer, one of the
 * two infinities, or NaN; the quotient is taken as an exact rational.
 */
module Ocupacion {

  /** The JavaScript numbers these expressions can produce. */
  datatype Numero = Finito(valor: int) | Infinito(positivo: bool) | NoEsNumero

  /** JavaScript's `p < k` for an integer `k`: false for NaN, true for minus infinity. */
  predicate Menor(p: Numero, k: int) {
    match p
    case Finito(v) => v < k
    case Infinito(positivo) => !positivo
    case NoEsNumero => false
  }

  /** JavaScript's `p > k` for an integer `k`. */
  predicate Mayor(p: Numero, k: int) {
    match p
    case Finito(v) => v > k
    case Infinito(positivo) => positivo
    case NoEsNumero => false
  }

  /**
   * `Math.round((n / c) * 100)`: for a non-zero capacity the integer nearest to 100·n/c, a
   * half rounding up; `n / 0` is infinity for n > 0 and NaN for 0 / 0.
   */
  function Porcentaje(n: nat, c: int): (r: Numero)
    ensures c > 0 ==> r.Finito? && 2 * c * r.valor <= 200 * n + c < 2 * c * (r.valor + 1)
    ensures c < 0 ==> r.Finito? && 2 * c * r.valor >= 200 * n + c > 2 * c * (r.valor + 1)
    ensures c == 0 && n > 0 ==> r == Infinito(true)
    ensures c == 0 && n == 0 ==> r == NoEsNumero
  {
    if c == 0 then (if n == 0 then NoEsNumero else Infinito(true))
    else if c > 0 then
      var q := (200 * n + c) / (2 * c);
      DivisionAcotada(200 * n + c, 2 * c);
      Finito(q)
    else
      var q := (-200 * n - c) / (-2 * c);
      DivisionAcotada(-200 * n - c, -2 * c);
      Finito(q)
  }

  /** The quotient of a division by a positive number is its floor. */
  lemma DivisionAcotada(a: int, d: int)
    requires d > 0
    ensures d * (a / d) <= a < d * (a / d + 1)
  {
  }

  /** Multiplying by a positive number keeps the order. */
  lemma MultiplicarMonotono(k: int, a: int, b: int)
    requires k > 0 && a <= b
    ensures k * a <= k * b
  {
  }

  /** A strict inequality between multiples of a positive number holds between the factors. */
  lemma Cancelar(k: int, a: int, b: int)
    requires k > 0 && k * a < k * b
    ensures a < b
  {
    if a >= b {
      MultiplicarMonotono(k, b, a);
    }
  }

  /** With no more objects than room, the percentage is between 0 and 100. */
  lemma PorcentajeAcotado(n: nat, c: int)
    requires 0 < c && n <= c
    ensures Porcentaje(n, c).Finito? && 0 <= Porcentaje(n, c).valor <= 100
    ensures n == 0 ==> Porcentaje(n, c).valor == 0
    ensures n == c ==> Porcentaje(n, c).valor == 100
  {
    var v := Porcentaje(n, c).valor;
    var k := 2 * c;
    Cancelar(k, 0, v + 1);
    assert k * v <= 200 * n + c < k * 101 by {
      MultiplicarMonotono(200, n, c);
    }
    Cancelar(k, v, 101);
    if n == 0 {
      assert k * v < k * 1;
      Cancelar(k, v, 1);
    }
    if n == c {
      assert k * 100 < k * (v + 1);
      Cancelar(k, 100, v + 1);
    }
  }

  /** More objects in the same room never lower the percentage. */
  lemma PorcentajeMonotono(n: nat, m: nat, c: int)
    requires 0 < c && n <= m
    ensures Porcentaje(n, c).valor <= Porcentaje(m, c).valor
  {
    var v, w := Porcentaje(n, c).valor, Porcentaje(m, c).valor;
    Cancelar(2 * c, v, w + 1);
  }

  const Verde: string := "bg-green-500"
  const Amarillo: string := "bg-yellow-500"
  const Rojo: string := "bg-red-500"

  /** `getOcupacionColor`: green below 50, yellow below 80, red otherwise (NaN included). */
  function Color(p: Numero): (r: string)
    ensures r == Verde <==> Menor(p, 50)
    ensures r == Amarillo <==> !Menor(p, 50) && Menor(p, 80)
    ensures r == Rojo <==> !Menor(p, 80)
  {
    if Menor(p, 50) then Verde
    else if Menor(p, 80) then Amarillo
    else Rojo
  }

  /** How alarming a colour is: 0 green, 1 yellow, 2 red. */
  function Nivel(color: string): nat {
    if color == Verde then 0 else if color == Amarillo then 1 else 2
  }

  /** A higher percentage never gets a less alarming colour. */
  lemma ColorMonotono(v: int, w: int)
    requires v <= w
    ensures Nivel(Color(Finito(v))) <= Nivel(Color(Finito(w)))
  {
  }

  /** `Math.min(p, 100)`: NaN stays NaN, plus infinity becomes 100. */
  function Ancho(p: Numero): (r: Numero)
    ensures !Mayor(r, 100)
    ensures r == NoEsNumero <==> p == NoEsNumero
    ensures p.Finito? ==> r.Finito? && r.valor <= p.valor && (r.valor == p.valor || r.valor == 100)
    ensures Mayor(p, 100) ==> r == Finito(100)
    ensures !Mayor(p, 100) ==> r == p
  {
    match p
    case Finito(v) => if v < 100 then p else Finito(100)
    case Infinito(positivo) => if positivo then Finito(100) else p
    case NoEsNumero => NoEsNumero
  }
}
