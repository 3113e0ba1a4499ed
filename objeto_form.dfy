/**
 * The object form: the size options and their initial choice, the checks of `validateForm`
 * on the name and the selected type, and the payload `handleSubmit` passes on.
 */
module ObjetoForm {
  import opened Wrappers
  import opened Strings
  import Models

  const LongitudMinima: nat := 2

  const NombreRequerido: string := "El nombre del objeto es requerido"
  const NombreCorto: string := "El nombre debe tener al menos 2 caracteres"
  const TipoRequerido: string := "Debe seleccionar un tipo de objeto"

  const ClaveNombre: string := "nombreObjeto"
  const ClaveTipo: string := "tipoObjeto"

  /** The type select: `''` until a type is chosen, then the parsed id of the chosen option. */
  datatype TipoElegido = SinTipo | Tipo(id: int)

  /** `!tipoObjetoId`: the empty choice and the id 0 are falsy. */
  predicate SinSeleccion(t: TipoElegido) {
    t.SinTipo? || t.id == 0
  }

  /** The options of the size select, as (value, label), in order. */
  const Tamanios: seq<(string, string)> := [("PE", "Pequeño"), ("ME", "Mediano"), ("GR", "Grande")]

  /** The size selected when the form opens. */
  const TamanioInicial: string := "ME"

  /** What `onSubmit` receives. */
  datatype Payload = Payload(cajon: int, nombreObjeto: string, tipoObjeto: int, tamanio: string)

  /** The form passes: a trimmed name of at least 2 UTF-16 units and a chosen, non-zero type. */
  predicate Valido(nombreObjeto: string, tipo: TipoElegido) {
    Utf16Length(Trim(JavaScript, nombreObjeto)) >= LongitudMinima && !SinSeleccion(tipo)
  }

  /**
   * `validateForm`: the "required" message for a blank name, the length message for a
   * short one, the type message when no type is chosen; valid exactly when none was set.
   */
  method ValidarFormulario(nombreObjeto: string, tipo: TipoElegido) returns (errores: map<string, string>, valido: bool)
    ensures errores.Keys <= {ClaveNombre, ClaveTipo}
    ensures ClaveNombre in errores <==> Utf16Length(Trim(JavaScript, nombreObjeto)) < LongitudMinima
    ensures AllSpace(JavaScript, nombreObjeto) ==> errores[ClaveNombre] == NombreRequerido
    ensures !AllSpace(JavaScript, nombreObjeto) && Utf16Length(Trim(JavaScript, nombreObjeto)) < LongitudMinima ==>
      errores[ClaveNombre] == NombreCorto
    ensures ClaveTipo in errores <==> SinSeleccion(tipo)
    ensures ClaveTipo in errores ==> errores[ClaveTipo] == TipoRequerido
    ensures valido <==> errores == map[]
    ensures valido <==> Valido(nombreObjeto, tipo)
  {
    errores := map[];
    var recortado := Trim(JavaScript, nombreObjeto);
    if recortado == [] {
      errores := errores[ClaveNombre := NombreRequerido];
    } else if Utf16Length(recortado) < LongitudMinima {
      errores := errores[ClaveNombre := NombreCorto];
    }
    if SinSeleccion(tipo) {
      errores := errores[ClaveTipo := TipoRequerido];
    }
    valido := |errores.Keys| == 0;
    assert valido ==> ClaveNombre !in errores && ClaveTipo !in errores;
  }

  /** `handleSubmit`: the drawer, the trimmed name, the chosen type id and the size, when valid. */
  method EnviarFormulario(cajonId: int, nombreObjeto: string, tipo: TipoElegido, tamanio: string)
    returns (enviado: Option<Payload>)
    ensures enviado.Some? <==> Valido(nombreObjeto, tipo)
    ensures enviado.Some? ==>
      && tipo.Tipo? && tipo.id != 0
      && enviado.value == Payload(cajonId, Trim(JavaScript, nombreObjeto), tipo.id, tamanio)
  {
    var _, valido := ValidarFormulario(nombreObjeto, tipo);
    if valido {
      enviado := Some(Payload(cajonId, Trim(JavaScript, nombreObjeto), tipo.id, tamanio));
    } else {
      enviado := None;
    }
  }

  /**
   * The size options are the model's choices, code and label, in declaration order; the
   * initial one is Mediano, which is not the column default Pequeño.
   */
  lemma TamaniosSonChoices()
    ensures |Tamanios| == |Models.Choices|
    ensures forall k :: 0 <= k < |Tamanios| ==>
      Tamanios[k] == (Models.Codigo(Models.Choices[k]), Models.Etiqueta(Models.Choices[k]))
    ensures Models.DeCodigo(TamanioInicial) == Some(Models.Mediano)
    ensures TamanioInicial != Models.TamanioPorDefecto
  {
  }

  /** A size picked from the select is always a code the service stores with a label. */
  lemma OpcionConEtiqueta(k: nat)
    requires k < |Tamanios|
    ensures Models.DeCodigo(Tamanios[k].0).Some?
    ensures |Tamanios[k].0| <= Models.LongitudMaximaTamanio
    ensures Models.TamanioDisplay(Tamanios[k].0) == Tamanios[k].1
  {
    TamaniosSonChoices();
  }
}
