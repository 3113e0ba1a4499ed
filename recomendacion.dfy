/**
 * The tail of `RecomendacionService.generar_recomendaciones_organizacion`: the model's reply
 * is taken as given text (or as the exception it raised), its numbered lines become the
 * recommendations, and the list is padded with a fixed message and cut to exactly three.
 */
module Recomendacion {
  import opened Strings
  import opened Counting

  /** How many recommendations the service always returns. */
  const Cantidad: nat := 3

  /** The message that fills the places no numbered line provided. */
  const Relleno: string := "No hay suficientes datos para generar esta recomendación"

  /** What `generate_content` produced: a reply text, or an exception with its message. */
  datatype Respuesta = Texto(texto: string) | Excepcion(mensaje: string)

  /** A stripped line that is kept: non-empty and starting with "1.", "2." or "3.". */
  predicate Numerada(linea: string) {
    linea != [] && (StartsWith(linea, "1.") || StartsWith(linea, "2.") || StartsWith(linea, "3."))
  }

  /** `linea.split('.', 1)[1]`: what follows the first dot. */
  function TrasPunto(linea: string): (r: string)
    requires '.' in linea
    ensures exists i :: 0 <= i < |linea| && linea[i] == '.' && '.' !in linea[..i] && r == linea[i + 1..]
  {
    var i := FirstIndex(linea, '.');
    FirstIndexAntes(linea, '.');
    linea[i + 1..]
  }

  /**
   * `linea.split('.', 1)[1].strip() if '.' in linea else linea`: the stripped text after the
   * first dot, or the whole line when it has none.
   */
  function TextoDe(linea: string): (r: string)
    ensures '.' !in linea ==> r == linea
    ensures '.' in linea ==> r == Trim(Python, TrasPunto(linea))
  {
    if '.' in linea then Trim(Python, TrasPunto(linea)) else linea
  }

  /** A numbered line gives the stripped text after its number and dot. */
  lemma NumeradaTexto(linea: string)
    requires Numerada(linea)
    ensures TextoDe(linea) == Trim(Python, linea[2..])
  {
    NumeradaCaracteres(linea);
    assert linea[0] != '.';
    assert FirstIndex(linea, '.') == 1;
  }

  /** A line is numbered exactly when its first two characters are a digit 1 to 3 and a dot. */
  lemma NumeradaCaracteres(linea: string)
    ensures Numerada(linea) <==> |linea| >= 2 && linea[1] == '.' && '1' <= linea[0] <= '3'
  {
    if |linea| >= 2 {
      assert linea[..2] == [linea[0], linea[1]];
    }
  }

  /** What one line of the reply contributes: the text of a line that is numbered once stripped. */
  function Aporte(linea: string): seq<string> {
    var l := Trim(Python, linea);
    if Numerada(l) then [TextoDe(l)] else []
  }

  /** What `f` gives for each of `lineas`, concatenated in line order. */
  function Concatenar(f: string -> seq<string>, lineas: seq<string>): seq<string> {
    if lineas == [] then []
    else
      var n := |lineas| - 1;
      Concatenar(f, lineas[..n]) + f(lineas[n])
  }

  lemma ConcatenarSiguiente(f: string -> seq<string>, lineas: seq<string>, k: nat)
    requires k < |lineas|
    ensures Concatenar(f, lineas[..k + 1]) == Concatenar(f, lineas[..k]) + f(lineas[k])
  {
    assert lineas[..k + 1][..k] == lineas[..k];
  }

  lemma ConcatenarSnoc(f: string -> seq<string>, lineas: seq<string>, linea: string)
    ensures Concatenar(f, lineas + [linea]) == Concatenar(f, lineas) + f(linea)
  {
    assert (lineas + [linea])[..|lineas|] == lineas;
  }

  lemma {:induction false} ConcatenarConcat(f: string -> seq<string>, a: seq<string>, b: seq<string>)
    ensures Concatenar(f, a + b) == Concatenar(f, a) + Concatenar(f, b)
  {
    if b == [] {
      assert a + b == a;
    } else {
      var n := |b| - 1;
      var front, last := b[..n], b[n];
      assert b == front + [last];
      assert a + b == (a + front) + [last];
      var x, y, z := Concatenar(f, a), Concatenar(f, front), f(last);
      calc {
        Concatenar(f, a + b);
        { ConcatenarSnoc(f, a + front, last); }
        Concatenar(f, a + front) + z;
        { ConcatenarConcat(f, a, front); }
        (x + y) + z;
        x + (y + z);
        { ConcatenarSnoc(f, front, last); }
        x + Concatenar(f, b);
      }
    }
  }

  /** The recommendations the loop collects from `lineas`, in line order. */
  function Extraidas(lineas: seq<string>): seq<string> {
    Concatenar(Aporte, lineas)
  }

  lemma ExtraidasSiguiente(lineas: seq<string>, k: nat)
    requires k < |lineas|
    ensures Extraidas(lineas[..k + 1]) == Extraidas(lineas[..k]) + Aporte(lineas[k])
  {
    ConcatenarSiguiente(Aporte, lineas, k);
  }

  /** Collecting distributes over concatenation: each line contributes on its own, in order. */
  lemma ExtraidasConcat(a: seq<string>, b: seq<string>)
    ensures Extraidas(a + b) == Extraidas(a) + Extraidas(b)
  {
    ConcatenarConcat(Aporte, a, b);
  }

  /** One line contributes its text exactly when it is numbered once stripped. */
  lemma ExtraidasLinea(linea: string)
    ensures Numerada(Trim(Python, linea)) ==> Extraidas([linea]) == [TextoDe(Trim(Python, linea))]
    ensures !Numerada(Trim(Python, linea)) ==> Extraidas([linea]) == []
  {
    assert [linea][..0] == [];
    assert Concatenar(Aporte, [linea]) == Concatenar(Aporte, []) + Aporte(linea);
    assert Concatenar(Aporte, []) == [];
    assert Extraidas([linea]) == Aporte(linea);
  }

  /** `recomendaciones` has at most one entry per line of the reply. */
  lemma {:induction false} ExtraidasAcotadas(lineas: seq<string>)
    ensures |Extraidas(lineas)| <= |lineas|
  {
    if lineas != [] {
      ExtraidasAcotadas(lineas[..|lineas| - 1]);
    }
  }

  /** Padding with the fixed message, then `[:3]`. */
  function Completar(rs: seq<string>): (r: seq<string>)
    ensures |r| == Cantidad
    ensures forall i :: 0 <= i < Cantidad && i < |rs| ==> r[i] == rs[i]
    ensures forall i :: |rs| <= i < Cantidad ==> r[i] == Relleno
    decreases Cantidad - |rs|
  {
    if |rs| >= Cantidad then rs[..Cantidad]
    else Completar(rs + [Relleno])
  }

  /** The lines of the stripped reply. */
  function Lineas(texto: string): seq<string> {
    Split(Trim(Python, texto), '\n')
  }

  /** What the service returns for a reply text. */
  function Recomendaciones(texto: string): seq<string> {
    Completar(Extraidas(Lineas(texto)))
  }

  /** The list returned from the `except` branch. */
  function Fallidas(mensaje: string): (r: seq<string>)
    ensures |r| == Cantidad
    ensures StartsWith(r[0], "Error al generar recomendación 1: ")
    ensures r[0][|"Error al generar recomendación 1: "|..] == mensaje
  {
    ["Error al generar recomendación 1: " + mensaje, "Error al generar recomendación 2", "Error al generar recomendación 3"]
  }

  /**
   * The post-processing as the service runs it: the lines of the stripped reply, the loop
   * collecting the numbered ones, then padding and `[:3]`.
   */
  method Procesar(texto: string) returns (r: seq<string>)
    ensures r == Recomendaciones(texto)
    ensures |r| == Cantidad
  {
    var lineas := Split(Trim(Python, texto), '\n');
    var recomendaciones := Recoger(lineas);
    r := Rellenar(recomendaciones);
  }

  /** The loop over the lines, appending the text of each numbered one. */
  method Recoger(lineas: seq<string>) returns (recomendaciones: seq<string>)
    ensures recomendaciones == Extraidas(lineas)
  {
    recomendaciones := [];
    for k := 0 to |lineas|
      invariant recomendaciones == Extraidas(lineas[..k])
    {
      ghost var antes := recomendaciones;
      var linea := Trim(Python, lineas[k]);
      if linea != [] && (StartsWith(linea, "1.") || StartsWith(linea, "2.") || StartsWith(linea, "3.")) {
        var recomendacion := if '.' in linea then Trim(Python, TrasPunto(linea)) else linea;
        recomendaciones := recomendaciones + [recomendacion];
        assert Aporte(lineas[k]) == [recomendacion];
      } else {
        assert Aporte(lineas[k]) == [];
      }
      ExtraidasSiguiente(lineas, k);
    }
    PrefijoTotal(lineas);
  }

  /** The `while` loop padding with the fixed message, then `[:3]`. */
  method Rellenar(extraidas: seq<string>) returns (r: seq<string>)
    ensures r == Completar(extraidas)
  {
    var recomendaciones := extraidas;
    while |recomendaciones| < Cantidad
      invariant Completar(recomendaciones) == Completar(extraidas)
      decreases Cantidad - |recomendaciones|
    {
      recomendaciones := recomendaciones + [Relleno];
    }
    r := recomendaciones[..Cantidad];
  }

  /**
   * `generar_recomendaciones_organizacion` once the reply is in: exactly three strings,
   * from the reply's numbered lines or from the exception's message.
   */
  method Generar(respuesta: Respuesta) returns (r: seq<string>)
    ensures |r| == Cantidad
    ensures respuesta.Texto? ==> r == Recomendaciones(respuesta.texto)
    ensures respuesta.Excepcion? ==> r == Fallidas(respuesta.mensaje)
  {
    match respuesta
    case Texto(texto) =>
      r := Procesar(texto);
    case Excepcion(mensaje) =>
      r := Fallidas(mensaje);
  }

  /** A reply with no numbered line gives the fixed message three times. */
  lemma {:induction false} SinNumeradas(lineas: seq<string>)
    requires forall k :: 0 <= k < |lineas| ==> !Numerada(Trim(Python, lineas[k]))
    ensures Extraidas(lineas) == []
    ensures Completar(Extraidas(lineas)) == [Relleno, Relleno, Relleno]
  {
    if lineas != [] {
      SinNumeradas(lineas[..|lineas| - 1]);
    }
  }

  /** Lines past the first three numbered ones never reach the result. */
  lemma Descartadas(a: seq<string>, b: seq<string>)
    requires |Extraidas(a)| >= Cantidad
    ensures Completar(Extraidas(a + b)) == Completar(Extraidas(a))
  {
    ExtraidasConcat(a, b);
    assert (Extraidas(a) + Extraidas(b))[..Cantidad] == Extraidas(a)[..Cantidad];
  }
}
