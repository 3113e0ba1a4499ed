# Cajones: a verified model of the drawer inventory

The repository is an inventory of storage drawers (*cajones*). Each drawer has a name and a
maximum capacity, and holds objects. Every object has a type (*tipo de objeto*) and one of
three sizes: Pequeño, Mediano or Grande. Every change is written to an append-only history
(*historial*). This project models the business rules of that system in Dafny and proves
what they promise.

- **Backend** (Django, `cajones_app`):
  - **CajonService** is modelled as an in-memory store, class `CajonService.Store`. It creates
    drawers, adds objects under the capacity limit and moves objects between drawers. It also
    computes the per-drawer statistics.
  - **OrdenamientoService** is modelled as three methods that group the selected objects:
    - by type name, in ascending order;
    - by size label, in the order Pequeño, Mediano, Grande;
    - by the combined key `tipo_tamanio`, in ascending order.
  - The **recommendation post-processing** takes the text of the language-model reply, or the
    exception it raised, and always produces exactly three strings.
  - The **models**:
    - the size enumeration and its default;
    - the `__str__` renderings;
    - the CASCADE foreign keys, written as deletions on a database value (`Models.Db`).
- **Frontend** (React, TypeScript):
  - the breadcrumb trail derived from the URL path;
  - the history page's filter, distinct-action list and per-action counts;
  - the two form validators and their submitted payloads, including how the capacity field
    turns typed text into a number (`parseInt(value) || 0`);
  - the home page's totals, overall occupancy, distinct-type count, occupancy bars and
    three-object preview;
  - the detail page's merge of the drawer with its objects, its occupancy, its type count and
    the recommendation it shows.

The backend's `services.py` and `models.py` are modelled from their code.

Modules, one per source file, plus shared helpers:

| module | file | models |
|---|---|---|
| `Wrappers` | wrappers.dfy | `Option`, `Result` |
| `Strings` | strings.dfy | Python `strip()` and JavaScript `trim()` (different whitespace sets), `split`/`join`, decimal rendering, code-point order, UTF-16 length |
| `Counting` | counting.dfy | occurrence counts, first-occurrence de-duplication (`new Set`, dict insertion order), a count dict filled in one pass |
| `Models` | models.dfy | models.py |
| `CajonService` | cajon_service.dfy | `CajonService` in services.py |
| `Ordenamiento` | ordenamiento.dfy | `OrdenamientoService` in services.py |
| `Recomendacion` | recomendacion.dfy | the tail of `generar_recomendaciones_organizacion` |
| `Ocupacion` | ocupacion.dfy | the occupancy percentage, colour and bar width that home.tsx and cajon-detalle.tsx share |
| `Api` | api.dfy | the records the frontend receives |
| `Breadcrumbs`, `Historial`, `CajonForm`, `ObjetoForm`, `Home`, `CajonDetalle` | breadcrumbs.dfy … cajon_detalle.dfy | the frontend files of the same names |

How the source is represented:

- **Integers** are unbounded.
- **JavaScript numbers** that the occupancy expressions can produce are an integer, one of the
  infinities, or NaN (`Ocupacion.Numero`).
- **Strings** are sequences of characters. JavaScript lengths are counted in UTF-16 code
  units.

## Model

| member | source | states |
|---|---|---|
| Models.DeCodigo | backend/cajones/cajones_app/models.py:30-33 | a stored code stands for a size exactly when it is that size's code; any other string stands for none |
| Models.TamanioDisplay | backend/cajones/cajones_app/models.py:39-43 | `get_tamanio_display()` is the label of a code that is a choice and the stored value itself otherwise |
| Models.ChoicesExactas | backend/cajones/cajones_app/models.py:30-43 | there are exactly three sizes, listed once each; codes and labels are pairwise different; every code fits `max_length=2` and maps back to its size; the default is the code of Pequeño |
| Models.CajonStr | backend/cajones/cajones_app/models.py:9-10 | the rendering starts with the name, then " (Capacidad: ", then decimal digits whose value is the capacity (when not negative), then ")" |
| Models.TipoObjetoStr | backend/cajones/cajones_app/models.py:27-28 | a type renders as its name and nothing else |
| Models.ObjetosDeCajon | backend/cajones/cajones_app/models.py:36 | a drawer's `objetos` are exactly the rows whose drawer key is that drawer, never more than the table |
| Models.OcupacionAppend | backend/cajones/cajones_app/services.py:46-58 | inserting a row raises its own drawer's count by one and leaves every other drawer's count unchanged |
| Models.OcupacionUpdate | backend/cajones/cajones_app/services.py:85-89 | changing a row's drawer moves exactly one unit of count from the old drawer to the new one |
| Models.OcupacionSinFilas | backend/cajones/cajones_app/services.py:22-26 | a drawer that no row points at holds no objects |
| Models.ObjetosFueraDeCajon | backend/cajones/cajones_app/models.py:36 | the rows that survive deleting a drawer are exactly those in other drawers |
| Models.ObjetosFueraDeTipo | backend/cajones/cajones_app/models.py:38 | the rows that survive deleting a type are exactly those of other types |
| Models.EntradasFueraDeCajon | backend/cajones/cajones_app/models.py:14 | the history entries that survive deleting a drawer are exactly those about other drawers |
| Models.ObjetosFueraDeCajonConcat | backend/cajones/cajones_app/models.py:36 | the drawer cascade distributes over concatenation, so the surviving rows keep their original order |
| Models.ObjetosFueraDeTipoConcat | backend/cajones/cajones_app/models.py:38 | the type cascade distributes over concatenation, so the surviving rows keep their original order |
| Models.EntradasFueraDeCajonConcat | backend/cajones/cajones_app/models.py:14 | the history cascade distributes over concatenation, so the surviving entries keep their original order |
| Models.EliminarCajon | backend/cajones/cajones_app/models.py:14-36 | deleting a drawer removes it, all its objects and all its history entries, and nothing else |
| Models.EliminarTipo | backend/cajones/cajones_app/models.py:38 | deleting a type removes it and all objects of that type; drawers and history are untouched |
| Models.EliminarPreservaIntegridad | backend/cajones/cajones_app/models.py:14-38 | after either cascade every remaining foreign key still resolves |
| CajonService.Buscar | backend/cajones/cajones_app/services.py:73 | the lookup finds a row carrying the requested primary key, or reports that no row has it |
| CajonService.Store.CrearCajon | backend/cajones/cajones_app/services.py:14-35 | a non-positive capacity is refused first, then a name that is blank after `strip()`; both refusals leave the store unchanged; success adds one drawer under a fresh key with the stripped name, holding no objects, and appends exactly one `creado` entry; the store stays consistent and no drawer goes over capacity |
| CajonService.Store.AgregarObjetoACajon | backend/cajones/cajones_app/services.py:38-67 | refused for a missing drawer, then for a drawer already at capacity, then for a missing type; success happens exactly when none of these holds; a refusal changes nothing; success appends one row with a fresh key and one `objeto_agregado` entry for that drawer; that drawer's count rises by exactly one and stays within capacity; no other count, drawer or entry changes |
| CajonService.Store.MoverObjeto | backend/cajones/cajones_app/services.py:70-104 | refused when the object or the destination is missing, or the destination is full (also when it is the object's own drawer); a refusal changes nothing; success changes only that object's drawer and keeps the number of objects; it appends `objeto_movido` for the old drawer, then `objeto_recibido` for the new one; counts of uninvolved drawers are unchanged and no drawer goes over capacity |
| CajonService.Anexar | backend/cajones/cajones_app/services.py:52-65 | appending a row whose keys resolve, under a fresh key, to a drawer with room keeps the database consistent and within capacity, and raises that drawer's count alone by one |
| CajonService.AnexarConsistente | backend/cajones/cajones_app/services.py:53-58 | such an append keeps every foreign key valid and the primary keys increasing |
| CajonService.Reubicar | backend/cajones/cajones_app/services.py:85-89 | moving a row to an existing drawer with room keeps the foreign keys and key order; only the two drawers involved change count; capacity holds everywhere if it held before |
| CajonService.ObtenerEstadisticasCajon | backend/cajones/cajones_app/services.py:107-142 | `CajonNoExiste` exactly when the drawer is missing; `DivisionPorCero` (the `ZeroDivisionError` of `porcentaje_ocupacion`) exactly when it exists with capacity 0, which `Models.Integro` allows because only `crear_cajon` refuses such a capacity; success exactly otherwise, with the drawer's fields, its object count, `capacidad_disponible` = capacity − count, the per-size table and the per-type table of its objects |
| CajonService.ContarPorTamanio | backend/cajones/cajones_app/services.py:119-121 | one (label, count) pair per size choice, in choice order, each count being the number of objects stored with that code |
| CajonService.ContarPorTipo | backend/cajones/cajones_app/services.py:124-129 | the dict holds exactly the type names present, in first-occurrence order, each mapped to its number of objects |
| CajonService.NombresDeTipo | backend/cajones/cajones_app/services.py:126 | one type name per object, in order, each read through the object's type key |
| CajonService.Codigos | backend/cajones/cajones_app/services.py:121 | the stored size code of each object, one per object, in order |
| CajonService.PorTamanioSumaTotal | backend/cajones/cajones_app/services.py:119-121 | when every object's size is one of the three codes, the per-size counts add up to the number of objects |
| CajonService.PorTipoSumaTotal | backend/cajones/cajones_app/services.py:124-129 | the per-type counts of the statistics add up to the number of objects of the drawer, with no integrity assumption beyond every type key resolving |
| CajonService.CodigosDistintos | backend/cajones/cajones_app/models.py:30-33 | the three size codes are pairwise different |
| Ordenamiento.Seleccion | backend/cajones/cajones_app/services.py:156-159 | a falsy `cajon_id` (None or 0) selects every object; any other id selects exactly that drawer's objects |
| Ordenamiento.NombreTipo | backend/cajones/cajones_app/services.py:164 | an object's type name is the name of the type its key points at |
| Ordenamiento.Claves | backend/cajones/cajones_app/services.py:225-228 | one grouping key per selected object, in input order: the type name, the size display, or both joined by "_" |
| Ordenamiento.MiembrosPertenencia | backend/cajones/cajones_app/services.py:163-167 | a group holds exactly the selected objects whose key is the group's key |
| Ordenamiento.MiembrosCount | backend/cajones/cajones_app/services.py:174 | a group's length is the number of selected objects with its key |
| Ordenamiento.MiembrosConcat | backend/cajones/cajones_app/services.py:167 | grouping distributes over concatenation, so a group keeps its objects in input order |
| Ordenamiento.MiembrosVacio | backend/cajones/cajones_app/services.py:165-166 | a key that no object has has no members |
| Ordenamiento.MiembrosNoVacio | backend/cajones/cajones_app/services.py:165-167 | a key some object has is never an empty group |
| Ordenamiento.Agrupar | backend/cajones/cajones_app/services.py:162-167 | the grouping loop leaves: as keys, exactly the keys present, in first-occurrence order; under each key, exactly its objects in input order |
| Ordenamiento.Archivar | backend/cajones/cajones_app/services.py:164-167 | one iteration (enter a new key with an empty list, then append) keeps the dict exact for the objects seen so far |
| Ordenamiento.IndicePaso | backend/cajones/cajones_app/services.py:165-167 | filing one more object keeps the key order and every group exact |
| Ordenamiento.AscendenteDistinct | backend/cajones/cajones_app/services.py:171 | a strictly ascending list of keys has no repeats |
| Ordenamiento.Insertar | backend/cajones/cajones_app/services.py:171 | inserting a new key into an ascending list keeps it ascending and adds exactly that key |
| Ordenamiento.Ordenar | backend/cajones/cajones_app/services.py:171 | `sorted` over pairwise different keys gives a strictly ascending code-point order that is a permutation of the keys |
| Ordenamiento.Armar | backend/cajones/cajones_app/services.py:170-176 | the result for type (or mixed) grouping has one valid group per key present, keys strictly ascending, and no other keys |
| Ordenamiento.Listar | backend/cajones/cajones_app/services.py:171-176 | the loop over the sorted keys appends one valid group per key, in that order |
| Ordenamiento.GrupoArmadoValido | backend/cajones/cajones_app/services.py:240-242 | each built group holds exactly its key's objects, is not empty, and has `cantidad` equal to its length; a mixed group's `tipo` and `tamanio` come from its first object and rebuild its key |
| Ordenamiento.OrdenarPorTipo | backend/cajones/cajones_app/services.py:151-178 | one group per type name among the selected objects, names strictly ascending; every selected object is in its type's group, in input order; the `cantidad`s add up to the number selected |
| Ordenamiento.OrdenarMixto | backend/cajones/cajones_app/services.py:213-244 | one group per `tipo_tamanio` key among the selected objects, keys strictly ascending; group fields as built; the `cantidad`s add up to the number selected |
| Ordenamiento.OrdenTamaniosSonEtiquetas | backend/cajones/cajones_app/services.py:200 | the fixed order lists the labels of the three choices, in declaration order, each once |
| Ordenamiento.Presentes | backend/cajones/cajones_app/services.py:202-203 | the labels kept are exactly those of the fixed order that some object displays as |
| Ordenamiento.PresentesEnOrden | backend/cajones/cajones_app/services.py:200-208 | the kept labels have no repeats and keep the fixed order |
| Ordenamiento.OrdenarPorTamanio | backend/cajones/cajones_app/services.py:181-210 | the size groups come in the order Pequeño, Mediano, Grande; empty sizes are left out; each group is exact; the `cantidad`s add up to the number selected exactly when every selected object displays as one of the three labels |
| Ordenamiento.ListarTamanios | backend/cajones/cajones_app/services.py:200-208 | the loop over the fixed order appends the group of each label present, in that order |
| Ordenamiento.Particion | backend/cajones/cajones_app/services.py:163-167 | every selected object is in the group of its own key, and in no two groups |
| Ordenamiento.SumaParticion | backend/cajones/cajones_app/services.py:174 | the `cantidad`s of groups with different keys, plus the objects whose key has no group, make up the selection |
| Ordenamiento.SumaEsSumCounts | backend/cajones/cajones_app/services.py:174 | the sum of the `cantidad`s is the sum, over the groups' keys, of how often each key occurs |
| Ordenamiento.SumaCompleta | backend/cajones/cajones_app/services.py:170-176 | with type or mixed grouping no object is lost: the `cantidad`s add up to the selection |
| Ordenamiento.SumaTamanio | backend/cajones/cajones_app/services.py:202-208 | size grouping loses an object exactly when its display is not one of the three labels |
| Ordenamiento.TodosConGrupo | backend/cajones/cajones_app/services.py:203 | every selected key has a size group exactly when every selected object displays as a label |
| Recomendacion.TrasPunto | backend/cajones/cajones_app/services.py:363 | `split('.', 1)[1]` is what follows the first dot |
| Recomendacion.TextoDe | backend/cajones/cajones_app/services.py:363 | a line with a dot gives the stripped text after its first dot; a line without one is kept whole |
| Recomendacion.NumeradaCaracteres | backend/cajones/cajones_app/services.py:361 | a stripped line is kept exactly when it begins with a digit 1–3 followed by a dot |
| Recomendacion.NumeradaTexto | backend/cajones/cajones_app/services.py:361-363 | a kept line gives the stripped text after its "N." |
| Recomendacion.ExtraidasLinea | backend/cajones/cajones_app/services.py:360-364 | one line contributes its text exactly when it is numbered once stripped, and nothing otherwise |
| Recomendacion.ExtraidasConcat | backend/cajones/cajones_app/services.py:359-364 | collecting distributes over concatenation: each line contributes on its own, in line order |
| Recomendacion.ExtraidasAcotadas | backend/cajones/cajones_app/services.py:359-364 | at most one recommendation per line of the reply |
| Recomendacion.Completar | backend/cajones/cajones_app/services.py:367-370 | padding and `[:3]` give exactly three strings: the first collected ones, then the fixed message |
| Recomendacion.Recoger | backend/cajones/cajones_app/services.py:358-364 | the for-loop collects exactly the contributions of the lines, in line order |
| Recomendacion.Rellenar | backend/cajones/cajones_app/services.py:367-370 | the `while` loop followed by `[:3]` equals the padding function |
| Recomendacion.Procesar | backend/cajones/cajones_app/services.py:355-370 | splitting the stripped reply, collecting, then padding: always exactly three strings |
| Recomendacion.Fallidas | backend/cajones/cajones_app/services.py:372-377 | the except branch gives three strings, the first carrying the exception's message after its fixed prefix |
| Recomendacion.Generar | backend/cajones/cajones_app/services.py:355-377 | exactly three strings; from the reply's numbered lines, or from the exception's message |
| Recomendacion.SinNumeradas | backend/cajones/cajones_app/services.py:358-370 | a reply with no numbered line gives the fixed message three times |
| Recomendacion.Descartadas | backend/cajones/cajones_app/services.py:370 | lines after the first three numbered ones never reach the result |
| Strings.Trim | backend/cajones/cajones_app/services.py:19 | trimming never lengthens, and gives the empty string exactly when the input is all whitespace |
| Strings.TrimRecorta | backend/cajones/cajones_app/services.py:24 | the trimmed string is the input's middle part: only whitespace is cut on either side, and it neither starts nor ends with whitespace |
| Strings.TrimIdempotent | frontend/cajones-frontend/src/components/CajonForm.tsx:47 | trimming twice is trimming once |
| Strings.Split | backend/cajones/cajones_app/services.py:359 | `split` gives at least one piece, none containing the separator |
| Strings.JoinSplit | frontend/cajones-frontend/src/components/Breadcrumbs.tsx:8 | joining the pieces of a split gives back the string |
| Strings.SplitJoin | frontend/cajones-frontend/src/components/Breadcrumbs.tsx:19 | splitting a join of separator-free pieces gives back the pieces |
| Strings.NatToString | backend/cajones/cajones_app/models.py:10 | the decimal rendering is digits without leading zeros whose value is the number |
| Strings.IntToString | backend/cajones/cajones_app/models.py:10 | a negative number renders as "-" followed by its magnitude |
| Strings.LexLessIrreflexive | backend/cajones/cajones_app/services.py:171 | no key sorts before itself |
| Strings.LexLessTransitive | backend/cajones/cajones_app/services.py:171 | code-point order is transitive |
| Strings.LexLessTotal | backend/cajones/cajones_app/services.py:171 | any two different keys are ordered one way or the other |
| Strings.Utf16Length | frontend/cajones-frontend/src/components/CajonForm.tsx:28 | a JavaScript length is between one and two units per character |
| Strings.AsciiUpper | frontend/cajones-frontend/src/components/Breadcrumbs.tsx:34 | a lower-case ASCII letter becomes its capital; every other character is unchanged |
| Counting.Dedup | frontend/cajones-frontend/src/pages/historial.tsx:35 | each value once, exactly the values present, never longer than the input |
| Counting.DedupMiembros | frontend/cajones-frontend/src/pages/historial.tsx:35 | a value is kept exactly when it occurs |
| Counting.DedupFirstOccurrenceOrder | frontend/cajones-frontend/src/pages/historial.tsx:35 | the kept values are in the order of their first occurrence |
| Counting.SumCountsCover | backend/cajones/cajones_app/services.py:119-121 | counting each of a list of distinct values that covers the sequence accounts for all of it |
| Counting.SumCountsFuera | backend/cajones/cajones_app/services.py:202-208 | counting a list of distinct values accounts for the whole sequence except the elements not in the list |
| Counting.TablaPaso | frontend/cajones-frontend/src/pages/historial.tsx:38-41 | one step of a counting pass (a new value enters with 1 at the end of the key order, a known one is incremented) keeps the dict exact |
| Counting.TablaSumaTotal | frontend/cajones-frontend/src/pages/historial.tsx:38-44 | the counts of a counting pass add up to the length of the sequence |
| Counting.Conjunto | frontend/cajones-frontend/src/pages/home.tsx:123 | `new Set(xs)` holds exactly the values of `xs` |
| Counting.CardinalDedup | frontend/cajones-frontend/src/pages/home.tsx:123 | a set's size is the number of distinct values, so never more than the sequence's length |
| Ocupacion.Porcentaje | frontend/cajones-frontend/src/pages/home.tsx:109-111 | for a positive capacity, the integer nearest to 100·n/c, a half rounding up; infinity for n/0 with n > 0; NaN for 0/0 |
| Ocupacion.PorcentajeAcotado | frontend/cajones-frontend/src/pages/home.tsx:110 | with no more objects than room the percentage is between 0 and 100; it is 0 when empty and 100 when full |
| Ocupacion.PorcentajeMonotono | frontend/cajones-frontend/src/pages/home.tsx:110 | more objects in the same room never lower the percentage |
| Ocupacion.Color | frontend/cajones-frontend/src/pages/home.tsx:113-117 | green exactly below 50, yellow exactly from 50 to below 80, red otherwise (NaN included); the same function is `getOcupacionColor` at cajon-detalle.tsx:146-150 |
| Ocupacion.ColorMonotono | frontend/cajones-frontend/src/pages/home.tsx:113-117 | a higher percentage never gets a less alarming colour |
| Ocupacion.Ancho | frontend/cajones-frontend/src/pages/home.tsx:209 | `Math.min(p, 100)` is never above 100; it keeps values up to 100, caps larger ones (plus infinity included) at 100, and keeps NaN as NaN |
| Home.Todos | frontend/cajones-frontend/src/pages/home.tsx:123 | the flattened list holds exactly the objects of the drawers |
| Home.TodosLongitud | frontend/cajones-frontend/src/pages/home.tsx:120-123 | the flattened list is as long as `totalObjetos` |
| Home.IdsDeTipo | frontend/cajones-frontend/src/pages/home.tsx:123 | one type id per object, in order |
| Home.TiposUnicos | frontend/cajones-frontend/src/pages/home.tsx:123 | the number of distinct type ids over all drawers, never more than `totalObjetos` |
| Home.OcupacionGeneral | frontend/cajones-frontend/src/pages/home.tsx:122 | 0 when the total capacity is not positive; otherwise the rounded percentage of the totals; never negative; at most 100 while objects do not exceed room |
| Home.PorcentajeNoNegativo | frontend/cajones-frontend/src/pages/home.tsx:122 | for a positive capacity the percentage is not negative, and at most 100 with no more objects than room |
| Home.BarraCajon | frontend/cajones-frontend/src/pages/home.tsx:208-209 | a card's bar is never wider than 100; it is exactly the percentage for a drawer within capacity; it is green exactly below 50 |
| Home.Recientes | frontend/cajones-frontend/src/pages/home.tsx:217 | `slice(0, 3)` is a prefix of at most three objects, all of them when there are fewer |
| Home.Restantes | frontend/cajones-frontend/src/pages/home.tsx:228-231 | "+N más" appears exactly with more than three objects; N is positive and, with the ones shown, makes up the drawer |
| Home.TamanioLabel | frontend/cajones-frontend/src/pages/home.tsx:91-98 | `getTamanioLabel` agrees with the backend's `get_tamanio_display`: PE, ME and GR get their labels and any other value is returned unchanged; the same function is at cajon-detalle.tsx:124-131 |
| CajonDetalle.Combinar | frontend/cajones-frontend/src/pages/cajon-detalle.tsx:44-47 | the merged drawer keeps every basic field and carries the separately fetched objects |
| CajonDetalle.ObjetosDe | frontend/cajones-frontend/src/pages/cajon-detalle.tsx:222 | a missing object list reads as empty |
| CajonDetalle.NumeroObjetos | frontend/cajones-frontend/src/pages/cajon-detalle.tsx:143 | the object count is the length of the list read that way, 0 when it is missing |
| CajonDetalle.PorcentajeDetalle | frontend/cajones-frontend/src/pages/cajon-detalle.tsx:142-144 | the detail page's percentage is the shared one over that count; 0 with a missing list and a non-zero capacity |
| CajonDetalle.PorcentajeCero | frontend/cajones-frontend/src/pages/cajon-detalle.tsx:143 | no objects are 0 % of any non-zero capacity, negative ones included |
| CajonDetalle.BarraDetalle | frontend/cajones-frontend/src/pages/cajon-detalle.tsx:236-237 | the bar is never wider than 100; it is green exactly below 50; it shows the percentage itself within capacity |
| CajonDetalle.IdsDeTipo | frontend/cajones-frontend/src/pages/cajon-detalle.tsx:222 | one type id per object, in order |
| CajonDetalle.TiposDistintos | frontend/cajones-frontend/src/pages/cajon-detalle.tsx:222 | the "Tipos" figure is the number of distinct type ids, exactly those of the drawer's objects, never more than its object count |
| CajonDetalle.PrimeraRecomendacion | frontend/cajones-frontend/src/pages/cajon-detalle.tsx:51 | the first recommendation; '' when the list is missing or empty |
| Historial.Acciones | frontend/cajones-frontend/src/pages/historial.tsx:35 | one action per entry, in order |
| Historial.Filtrado | frontend/cajones-frontend/src/pages/historial.tsx:31-33 | the empty filter shows the whole history; any other shows exactly the entries with that action, as many as it occurs; never more than the history |
| Historial.FiltradoConcat | frontend/cajones-frontend/src/pages/historial.tsx:31-33 | filtering a concatenation filters each part, so the shown entries keep their order |
| Historial.ConAccionPertenencia | frontend/cajones-frontend/src/pages/historial.tsx:32 | the entries with an action are exactly those of the history carrying it, as many as it occurs |
| Historial.ConAccionConcat | frontend/cajones-frontend/src/pages/historial.tsx:31-33 | selecting by action distributes over concatenation |
| Historial.AccionesUnicas | frontend/cajones-frontend/src/pages/historial.tsx:35 | no duplicates, exactly the actions present, in order of first occurrence |
| Historial.AccionesPresentes | frontend/cajones-frontend/src/pages/historial.tsx:35 | an action is offered exactly when some entry has it |
| Historial.EstadisticasAcciones | frontend/cajones-frontend/src/pages/historial.tsx:37-44 | the keys are the distinct actions in first-occurrence order; each count is the number of entries with that action; the counts add up to the history length |
| CajonForm.Inicial | frontend/cajones-frontend/src/components/CajonForm.tsx:12-21 | a new form starts empty with capacity 10; editing starts from the drawer's own values |
| CajonForm.ValidarFormulario | frontend/cajones-frontend/src/components/CajonForm.tsx:23-40 | a blank name gives the "requerido" message, a trimmed name under 3 units the length one; capacity ≤ 0 and > 1000 give their two messages; valid exactly when no message was set, that is, trimmed length ≥ 3 and 1 ≤ capacity ≤ 1000 |
| CajonForm.EnviarFormulario | frontend/cajones-frontend/src/components/CajonForm.tsx:42-51 | `onSubmit` is called exactly when the form is valid, with the trimmed name and the capacity |
| CajonForm.PayloadEstable | frontend/cajones-frontend/src/components/CajonForm.tsx:45-50 | a submitted payload passes the form again unchanged |
| CajonForm.CapacidadAceptada | frontend/cajones-frontend/src/components/CajonForm.tsx:26-36 | what the form lets through has a positive capacity and a non-empty trimmed name |
| CajonForm.NombreAceptadoSoloPorElFormulario | frontend/cajones-frontend/src/components/CajonForm.tsx:26-28 | three U+001C characters form a name the form accepts (JavaScript's `trim` keeps them) and one that `crear_cajon`'s `strip()` removes entirely |
| CajonForm.Digitos | frontend/cajones-frontend/src/components/CajonForm.tsx:88 | the longest run of decimal digits at the start |
| CajonForm.ParseIntJs | frontend/cajones-frontend/src/components/CajonForm.tsx:88 | `parseInt` is NaN exactly when no digit follows the leading whitespace and optional sign |
| CajonForm.CapacidadDeEntrada | frontend/cajones-frontend/src/components/CajonForm.tsx:88 | the typed value falls back to 0 when `parseInt` gives NaN (or zero), and is the parsed value otherwise |
| CajonForm.ParseIntPrefijo | frontend/cajones-frontend/src/components/CajonForm.tsx:88 | digits followed by a non-digit parse to the digits' value |
| CajonForm.ParseIntNatToString | frontend/cajones-frontend/src/components/CajonForm.tsx:88 | a typed decimal number becomes that capacity |
| CajonForm.SinDigitosEsCero | frontend/cajones-frontend/src/components/CajonForm.tsx:88 | input with no digit, including the empty value, becomes 0 |
| CajonForm.NoNumericaInvalida | frontend/cajones-frontend/src/components/CajonForm.tsx:88 | a non-numeric capacity becomes 0 or less and always fails validation |
| CajonForm.PorDefecto | frontend/cajones-frontend/src/components/CajonForm.tsx:13 | the default capacity 10 passes the capacity check; a fresh form is still invalid because of its empty name |
| ObjetoForm.ValidarFormulario | frontend/cajones-frontend/src/components/ObjetoForm.tsx:35-50 | a blank name gives the "requerido" message, a trimmed name under 2 units the length one; no type, or the falsy id 0, gives the type message; valid exactly when no message was set |
| ObjetoForm.EnviarFormulario | frontend/cajones-frontend/src/components/ObjetoForm.tsx:52-63 | submitted exactly when valid, with the drawer id, the trimmed name, the chosen non-zero type id and the chosen size |
| ObjetoForm.TamaniosSonChoices | frontend/cajones-frontend/src/components/ObjetoForm.tsx:26-33 | the options are the model's three choices, code and label, in order; the initial size is ME, which differs from the column default PE |
| ObjetoForm.OpcionConEtiqueta | frontend/cajones-frontend/src/components/ObjetoForm.tsx:128-132 | every selectable size is a valid code that fits the column and displays as its option's label |
| Breadcrumbs.NoVacios | frontend/cajones-frontend/src/components/Breadcrumbs.tsx:8 | the filter keeps exactly the non-empty segments, never more than there were |
| Breadcrumbs.NoVaciosConcat | frontend/cajones-frontend/src/components/Breadcrumbs.tsx:8 | filtering distributes over concatenation, so it keeps the segments' order |
| Breadcrumbs.NoVaciosIdentidad | frontend/cajones-frontend/src/components/Breadcrumbs.tsx:8 | segments that are all non-empty pass the filter unchanged |
| Breadcrumbs.Segmentos | frontend/cajones-frontend/src/components/Breadcrumbs.tsx:8 | every path segment is non-empty and contains no '/' |
| Breadcrumbs.BarraFinal | frontend/cajones-frontend/src/components/Breadcrumbs.tsx:8 | a trailing '/' does not change the segments |
| Breadcrumbs.Capitalizar | frontend/cajones-frontend/src/components/Breadcrumbs.tsx:34 | the first character is upper-cased, the rest and the length are kept |
| Breadcrumbs.NombreSegmento | frontend/cajones-frontend/src/components/Breadcrumbs.tsx:23-35 | historial, tipos-objeto and recomendaciones get their fixed names; every other segment is capitalised |
| Breadcrumbs.ItemsDeRuta | frontend/cajones-frontend/src/components/Breadcrumbs.tsx:7-45 | the root gives a single current Inicio at "/"; otherwise one more item than segments, a non-current Inicio first and item i+1 named after segment i, linking to "/" and the first i+1 segments joined by "/"; exactly the last item is current; more than one item (so the trail renders, lines 49-51) exactly when there is a segment |
| Breadcrumbs.MigasIndices | frontend/cajones-frontend/src/components/Breadcrumbs.tsx:14-42 | after n pushes the trail has n+1 items, Inicio first and item i+1 for segment i |
| Breadcrumbs.MigasActual | frontend/cajones-frontend/src/components/Breadcrumbs.tsx:20 | in the full trail, exactly the last item is current |
| Breadcrumbs.RutaCanonica | frontend/cajones-frontend/src/components/Breadcrumbs.tsx:19 | a canonical path yields exactly its segments, so the last item links back to the path itself |

## Left out

- The language-model call:
  - the API-key lookup, `genai.configure` and `generate_content`;
  - the prompt built by `generar_contexto_completo`.

  These are foreign calls. `Recomendacion.Generar` takes the reply text, or the exception's message, as a parameter. `str(e)` is that message as given.
- The Django ORM, queries and `transaction.atomic`. They are replaced by the fields of `CajonService.Store`, and a refused operation leaves those fields unchanged.
- The check-then-act race in `agregar_objeto_a_cajon`: the count is read outside the atomic block. Each store method is modelled as one indivisible step.
- The clock. `CajonHistorial.fecha` is not modelled.
- The primary-key counters are modelled as strictly increasing integers. The database's actual auto-increment is not modelled.
- CajonService.Store.AgregarObjetoACajon: a type id that does not exist is refused with `TipoNoExiste` and no change. This stands for the database's foreign-key failure rolling back the atomic block; the service code itself has no such check.
- CajonService.Store.AgregarObjetoACajon: `tamanio` is stored as given. `create()` runs no choice validation and the database does not enforce `max_length`, so the size can be any string. `get_tamanio_display` falls back to the stored value.
- CajonService.Store.CrearCajon: the `max_length=100` of names is not enforced, as the database does not enforce it.
- Integer widths:
  - `IntegerField` bounds are not modelled;
  - JavaScript numbers are exact integers, so there is no precision loss above 2^53, and `parseInt` never produces infinity.
- Floating point:
  - `porcentaje_ocupacion` in `obtener_estadisticas_cajon` is a float and is left out of `CajonService.Estadisticas`. Its division by a capacity of 0 is modelled, as the error `DivisionPorCero`.
  - Ocupacion.Porcentaje: `Math.round((n / c) * 100)` is computed on the exact quotient. A float product that lands just beside a .5 boundary could round differently.
- Row order of querysets: `cajon.objetos.all()`, `CajonObjeto.objects.all()` and `.filter(...)` have no `order_by`, and `CajonObjeto` has no `Meta.ordering`, so Django promises no row order. The model reads them in primary-key (insertion) order, the order of `Models.Db.objetos`. The order promises of `Ordenamiento.Agrupar`, `Ordenamiento.OrdenarPorTipo`, `Ordenamiento.OrdenarMixto`, `Ordenamiento.OrdenarPorTamanio` ("in input order"), of `CajonService.ContarPorTipo` (the first-occurrence order of the `estadisticas_por_tipo` keys) and of `CajonService.Reubicar` ("key order") are relative to that sequence; the database may return the rows in another order. The group keys, group contents as multisets and all counts do not depend on it.
- Ordenamiento.NombreTipo: a type key that does not resolve reads as the empty name. An intact database never has one (see `Models.Integro`). The grouping operations therefore do not require integrity.
- Ordenamiento.OrdenarMixto: the key `tipo + "_" + tamanio` can collide for names containing "_" (for example "a_b" + "_" + "c" and "a" + "_" + "b_c"). The model does the same, and such objects share a group whose `tipo` and `tamanio` come from its first object.
- Ordenamiento.Ordenar: `sorted(items())` compares only the keys, which are pairwise different. The grouped lists are never compared. The order is code-point order on characters, not a locale collation.
- Breadcrumbs.Capitalizar: `toUpperCase` is modelled for ASCII letters only. Other characters are kept as they are.
- Breadcrumbs.ItemsDeRuta: each item is stated through `Breadcrumbs.ItemDe`, which is name, link and current flag at position i, rather than field by field.
- CajonForm.ParseIntJs:
  - a "0x" prefix, which `parseInt` without a radix reads as hexadecimal, is not modelled; a number input never produces one;
  - minus zero is folded into 0.
- ObjetoForm: the type select's `parseInt` of the option value is taken as already done (`ObjetoForm.TipoElegido`). Option values are the type ids themselves.
- Home: the untyped `historial` of the page's `Cajon` interface is not read and is not modelled.
- Home.TotalObjetos and Home.TotalCapacidad are the two `reduce` sums. They are definitions, and what is proved about them is in `Home.TodosLongitud`, `Home.TiposUnicos` and `Home.OcupacionGeneral`.
- cajon-detalle.tsx:
  - `getTamanioLabel` and `getOcupacionColor` are word for word the home page's, and are modelled once by `Home.TamanioLabel` and `Ocupacion.Color`;
  - React state, `alert`/`confirm` and the fetch sequencing in `cargarDatos` are left out; only the merge and the first-recommendation choice are modelled.
- Historial.EstadisticasAcciones: JavaScript objects used as dictionaries are modelled as a map with an insertion-order list of keys.
  - Keys that look like integers, which JavaScript enumerates first, are not modelled.
  - Inherited prototype names such as "constructor" are not modelled.
- JavaScript `trim` and Python `strip` use different whitespace sets, and both are modelled (`Strings.IsJsSpace`, `Strings.IsPySpace`). `CajonForm.NombreAceptadoSoloPorElFormulario` exhibits a name on which they disagree.
- Left out as not part of this model:
  - presentation files and views, serializers, URLs and admin;
  - the API clients `api.ts` and `api.js`; their omission of a `cajon_id` of 0 mirrors the backend's falsy test, which is modelled by `Ordenamiento.Seleccion`;
  - `setup.py`;
  - the size colour classes `getTamanioColor`.
