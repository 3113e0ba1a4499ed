/**
 * The records the frontend receives from the REST API (the `interface`s of the API client).
 * `objetos` is optional on a drawer: the basic drawer endpoint leaves it out.
 */
module Api {
  import opened Wrappers

  datatype TipoObjeto = TipoObjeto(id: int, nombre: string, descripcion: Option<string>)

  datatype CajonObjeto = CajonObjeto(id: int, nombreObjeto: string, tipoObjeto: TipoObjeto, tamanio: string, cajon: int)

  datatype CajonHistorial = CajonHistorial(id: int, cajon: int, fecha: string, accion: string, descripcion: string)

  datatype Cajon = Cajon(id: int, nombre: string, capacidadMaxima: int, historial: seq<CajonHistorial>,
                         objetos: Option<seq<CajonObjeto>>)
}
