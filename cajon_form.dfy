/**
 * The drawer form: the value its capacity field takes from what was typed
 * (`parseInt(value) || 0`), the two checks of `validateForm` filling the error dictionary,
 * and the payload `handleSubmit` passes on when the form is valid.
 */
module CajonForm {
  import opened Wrappers
  import opened Strings
  import Api

  /** The initial capacity of a new drawer. */
  const CapacidadPorDefecto: int := 10
  const LongitudMinima: nat := 3
  const CapacidadLimite: int := 1000

  const NombreRequerido: string := "El nombre es requerido"
  const NombreCorto: string := "El nombre debe tener al menos 3 caracteres"
  const CapacidadNoPositiva: string := "La capacidad debe ser mayor a 0"
  const CapacidadExcedida: string := "La capacidad no puede ser mayor a 1000"

  /** The keys of the error dictionary, one per field. */
  const ClaveNombre: string := "nombre"
  const ClaveCapacidad: string := "capacidadMaxima"

  /** What `onSubmit` receives. */
  datatype Payload = Payload(nombre: string, capacidadMaxima: int)

  /** The form's fields: empty and 10 for a new drawer, the drawer's own values when editing. */
  function Inicial(cajon: Option<Api.Cajon>): (r: (string, int))
    ensures cajon.None? ==> r == ("", CapacidadPorDefecto)
    ensures cajon.Some? ==> r == (cajon.value.nombre, cajon.value.capacidadMaxima)
  {
    match cajon
    case None => ("", CapacidadPorDefecto)
    case Some(c) => (c.nombre, c.capacidadMaxima)
  }

  /** The form passes: a trimmed name of at least 3 UTF-16 units and a capacity from 1 to 1000. */
  predicate Valido(nombre: string, capacidadMaxima: int) {
    Utf16Length(Trim(JavaScript, nombre)) >= LongitudMinima && 1 <= capacidadMaxima <= CapacidadLimite
  }

  /**
   * `validateForm`: at most one message per field, the "required" one for a blank name,
   * the length one for a short name, and one for each side of the capacity range; the form
   * is valid exactly when the dictionary stays empty.
   */
  method ValidarFormulario(nombre: string, capacidadMaxima: int) returns (errores: map<string, string>, valido: bool)
    ensures errores.Keys <= {ClaveNombre, ClaveCapacidad}
    ensures ClaveNombre in errores <==> Utf16Length(Trim(JavaScript, nombre)) < LongitudMinima
    ensures AllSpace(JavaScript, nombre) ==> errores[ClaveNombre] == NombreRequerido
    ensures !AllSpace(JavaScript, nombre) && Utf16Length(Trim(JavaScript, nombre)) < LongitudMinima ==>
      errores[ClaveNombre] == NombreCorto
    ensures ClaveCapacidad in errores <==> !(1 <= capacidadMaxima <= CapacidadLimite)
    ensures capacidadMaxima <= 0 ==> errores[ClaveCapacidad] == CapacidadNoPositiva
    ensures capacidadMaxima > CapacidadLimite ==> errores[ClaveCapacidad] == CapacidadExcedida
    ensures valido <==> errores == map[]
    ensures valido <==> Valido(nombre, capacidadMaxima)
  {
    errores := map[];
    var recortado := Trim(JavaScript, nombre);
    if recortado == [] {
      errores := errores[ClaveNombre := NombreRequerido];
    } else if Utf16Length(recortado) < LongitudMinima {
      errores := errores[ClaveNombre := NombreCorto];
    }
    if capacidadMaxima <= 0 {
      errores := errores[ClaveCapacidad := CapacidadNoPositiva];
    } else if capacidadMaxima > CapacidadLimite {
      errores := errores[ClaveCapacidad := CapacidadExcedida];
    }
    valido := |errores.Keys| == 0;
    assert valido ==> ClaveNombre !in errores && ClaveCapacidad !in errores;
  }

  /** `handleSubmit`: the trimmed name and the capacity, only when the form is valid. */
  method EnviarFormulario(nombre: string, capacidadMaxima: int) returns (enviado: Option<Payload>)
    ensures enviado.Some? <==> Valido(nombre, capacidadMaxima)
    ensures enviado.Some? ==> enviado.value == Payload(Trim(JavaScript, nombre), capacidadMaxima)
  {
    var _, valido := ValidarFormulario(nombre, capacidadMaxima);
    if valido {
      enviado := Some(Payload(Trim(JavaScript, nombre), capacidadMaxima));
    } else {
      enviado := None;
    }
  }

  /** A sent payload passes the form again unchanged: trimming is idempotent. */
  lemma PayloadEstable(nombre: string, capacidadMaxima: int)
    requires Valido(nombre, capacidadMaxima)
    ensures Valido(Trim(JavaScript, nombre), capacidadMaxima)
    ensures Trim(JavaScript, Trim(JavaScript, nombre)) == Trim(JavaScript, nombre)
  {
    TrimIdempotent(JavaScript, nombre);
  }

  /** A capacity the form lets through is one the service's positivity check accepts. */
  lemma CapacidadAceptada(nombre: string, capacidadMaxima: int)
    requires Valido(nombre, capacidadMaxima)
    ensures capacidadMaxima > 0
    ensures Trim(JavaScript, nombre) != []
  {
  }

  /**
   * The two trims differ: three information separators (U+001C) are a name the form accepts,
   * while Python's `strip()` removes them all, so the service would refuse that name as empty.
   */
  lemma NombreAceptadoSoloPorElFormulario()
    ensures Valido("\U{1c}\U{1c}\U{1c}", CapacidadPorDefecto)
    ensures AllSpace(Python, "\U{1c}\U{1c}\U{1c}")
  {
    var s := "\U{1c}\U{1c}\U{1c}";
    assert !IsJsSpace(s[0]) && !IsJsSpace(s[2]);
    assert Leading(JavaScript, s) == 0;
    assert s[0..] == s;
    assert TrailingFrom(JavaScript, s) == 3;
    assert s[0..0 + 3] == s;
  }

  // ---- the capacity field ----

  predicate EsDigito(c: char) {
    '0' <= c <= '9'
  }

  /** The length of the run of decimal digits at the start of `s`. */
  function Digitos(s: string): (n: nat)
    ensures n <= |s|
    ensures IsDigits(s[..n])
    ensures n < |s| ==> !EsDigito(s[n])
  {
    if s == [] || !EsDigito(s[0]) then 0
    else
      var n := Digitos(s[1..]);
      assert s[..n + 1] == [s[0]] + s[1..][..n];
      n + 1
  }

  /** What follows the leading whitespace: an optional sign, then the rest. */
  function SinSigno(t: string): string {
    if t != [] && (t[0] == '+' || t[0] == '-') then t[1..] else t
  }

  /**
   * `parseInt(s)` in base 10: leading whitespace skipped, an optional sign, then the longest
   * run of digits; NaN (here `None`) when there is no digit there.
   */
  function ParseIntJs(s: string): (r: Option<int>)
    ensures r.None? <==> Digitos(SinSigno(s[Leading(JavaScript, s)..])) == 0
  {
    var t := s[Leading(JavaScript, s)..];
    var u := SinSigno(t);
    var n := Digitos(u);
    if n == 0 then None
    else
      var v: int := DecimalValue(u[..n]);
      Some(if t[0] == '-' then -v else v)
  }

  /**
   * `parseInt(e.target.value) || 0`: NaN and zero (minus zero included) are falsy and become 0;
   * any other parsed value is kept.
   */
  function CapacidadDeEntrada(valor: string): (r: int)
    ensures ParseIntJs(valor).None? ==> r == 0
    ensures ParseIntJs(valor).Some? ==> r == ParseIntJs(valor).value
  {
    match ParseIntJs(valor)
    case None => 0
    case Some(v) => if v == 0 then 0 else v
  }

  /** Digits followed by anything that does not start with a digit parse to their value. */
  lemma ParseIntPrefijo(d: string, resto: string)
    requires d != [] && IsDigits(d)
    requires resto != [] ==> !EsDigito(resto[0])
    ensures ParseIntJs(d + resto) == Some(DecimalValue(d))
  {
    var s := d + resto;
    assert !IsJsSpace(s[0]) && s[0] != '+' && s[0] != '-';
    assert Leading(JavaScript, s) == 0;
    assert s[0..] == s;
    DigitosPrefijo(d, resto);
    assert s[..|d|] == d;
  }

  lemma {:induction false} DigitosPrefijo(d: string, resto: string)
    requires IsDigits(d)
    requires resto != [] ==> !EsDigito(resto[0])
    ensures Digitos(d + resto) == |d|
  {
    if d != [] {
      assert (d + resto)[1..] == d[1..] + resto;
      DigitosPrefijo(d[1..], resto);
    } else {
      assert d + resto == resto;
    }
  }

  /** The decimal rendering of a natural number parses back to it. */
  lemma ParseIntNatToString(n: nat)
    ensures ParseIntJs(NatToString(n)) == Some(n)
    ensures CapacidadDeEntrada(NatToString(n)) == n
  {
    ParseIntPrefijo(NatToString(n), []);
    assert NatToString(n) + [] == NatToString(n);
  }

  /** A value with no digit at all, the empty value of a cleared number input included, is 0. */
  lemma SinDigitosEsCero(valor: string)
    requires forall k :: 0 <= k < |valor| ==> !EsDigito(valor[k])
    ensures ParseIntJs(valor).None?
    ensures CapacidadDeEntrada(valor) == 0
  {
    var t := valor[Leading(JavaScript, valor)..];
    var u := SinSigno(t);
    if u != [] {
      assert u[0] in valor;
    }
  }

  /** A capacity field left non-numeric always gets the "mayor a 0" message and blocks the form. */
  lemma NoNumericaInvalida(nombre: string, valor: string)
    requires forall k :: 0 <= k < |valor| ==> !EsDigito(valor[k])
    ensures !Valido(nombre, CapacidadDeEntrada(valor))
    ensures CapacidadDeEntrada(valor) <= 0
  {
    SinDigitosEsCero(valor);
  }

  /** The default capacity passes the capacity check; a new form is still blocked by its empty name. */
  lemma PorDefecto(nombre: string)
    ensures 1 <= CapacidadPorDefecto <= CapacidadLimite
    ensures Valido(nombre, Inicial(None).1) <==> Utf16Length(Trim(JavaScript, nombre)) >= LongitudMinima
    ensures !Valido(Inicial(None).0, Inicial(None).1)
  {
    assert AllSpace(JavaScript, "");
  }
}
