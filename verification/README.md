# Workshop front end: list state, joins and forms, in Dafny

This project models the client-side logic of a React front end for a
mechanic workshop (budgets, products, clients and their vehicles). It covers
the state that sits between the REST calls and the tables:

- the budgets store and the reducers that change it in place;
- the join that turns flat budgets plus client, vehicle and product
  catalogues into display rows;
- the fallback texts of a budget row;
- the `usePresupuestos` hook's list/loading/error state;
- the "new budget" modal;
- the products page, its editable rows and the add-product form;
- the client page, with its expandable vehicle list and the new-client modal;
- the older budgets, orders, products and clients list pages.

The modelling choices:

- **Remote calls.** Each REST call is an outcome input, `Remote<T>`: the
  response body, or the rejection's message. `window.confirm` is a boolean
  input.
- **Handlers.** Every handler runs as one atomic step. When a handler starts
  another request without awaiting it (a refetch after a write), that
  request's outcome is a further input and it completes within the same
  step.
- **Components.** A component whose state hooks are updated by handlers is a
  class with one field per piece of state. Its derived values (filters,
  page slices, low-stock list, cell text) are functions of those fields.
- **Shared list operations.** Append, replace by id, update of the first
  match, removal by id and pagination are generic functions in `Lists`.
  Their laws are proved once there: only the matching id changes, order is
  kept, and pages partition the list.
- **Strings.** Lower-casing is ASCII only. `includes`, `join` and the
  template-literal rendering of numbers are written out in `Common`.
- **Numbers and form inputs.** Prices, stock and kilometres are integers. A
  number input is an `Option<int>`, where `None` means the input is empty.

Two things the code does are stated as they are:

- Saving in the new-client modal first posts the client. When that
  succeeds, the page's `onSave` then puts the same client to the client
  with id 0 (`ClientesPage.Clientes.SaveFromAddModal`).
- The product row's cancel restores the values the form had when the row
  mounted, not the last saved ones (`ProductRow.Row.Cancel`). Its
  read-only cells and badge, by contrast, read the `product` prop, which
  the page passes again after a successful update (`ProductRow.Row.Rerender`,
  called from `ProductosPage.Productos.SaveRow`).

Two types are not in the source: `types/presupuesto.ts` does not declare the
`Presupuesto` type that the hook and the budget modal import, and
`types/index.ts` does not declare the `Budget` and `Product` types of the
older pages. The model therefore handles the hook's and the modal's budgets
as records mapping field names to values (`Types.Registro`). It gives
`Budget` and `Product` the fields their pages use, with string ids as the
pages' handlers declare.

## Model

| member | source | states |
|---|---|---|
| PresupuestosSlice.PresupuestosState.constructor | src/slices/presupuestosSlice.ts:8-10 | the store starts with no budgets |
| PresupuestosSlice.PresupuestosState.SetPresupuestos | src/slices/presupuestosSlice.ts:16-18 | the payload becomes the whole list |
| PresupuestosSlice.PresupuestosState.AddPresupuesto | src/slices/presupuestosSlice.ts:19-21 | the payload is appended at the end; the length grows by one and earlier entries are unchanged |
| PresupuestosSlice.PresupuestosState.UpdatePresupuesto | src/slices/presupuestosSlice.ts:22-29 | only the first budget with the payload's id is overwritten; the length is kept; an absent id changes nothing |
| PresupuestosSlice.PresupuestosState.DeletePresupuesto | src/slices/presupuestosSlice.ts:30-34 | every budget with the id is dropped and no budget with that id remains |
| Lists.FirstIndex | src/slices/presupuestosSlice.ts:23-25 | `findIndex`: -1 exactly when no entry has the id, otherwise an index whose entry has the id with no earlier entry having it |
| Lists.UpdateFirstById | src/slices/presupuestosSlice.ts:22-29 | same length; the first entry with the id becomes the new value and every other position is unchanged |
| Lists.UpdateFirstByIdAbsent | src/slices/presupuestosSlice.ts:26-28 | when no entry has the id the list is unchanged |
| Lists.UpdateFirstIsReplaceWhenUnique | src/slices/presupuestosSlice.ts:22-29 | with unique ids, updating the first match equals replacing every match, so the reducer agrees with the pages' map-based replace |
| Lists.RemoveById | src/slices/presupuestosSlice.ts:31-33 | the result holds exactly the input's entries whose id differs |
| Lists.RemoveByIdKeepsOrder | src/slices/presupuestosSlice.ts:31-33 | removal distributes over concatenation, so survivors keep their order |
| Lists.RemoveByIdIdempotent | src/slices/presupuestosSlice.ts:31-33 | deleting an id twice is deleting it once |
| Lists.RemoveByIdAbsent | src/slices/presupuestosSlice.ts:31-33 | deleting an absent id changes nothing |
| Lists.RemoveByIdShrinks | src/slices/presupuestosSlice.ts:31-33 | the list gets shorter exactly when some entry had the id |
| Lists.Filter | src/pages/gestion/productos/Productos.tsx:105-107 | `filter`: no longer than the input; every kept entry comes from the input and passes; every passing entry is kept |
| Lists.FilterConcat | src/pages/gestion/productos/Productos.tsx:105-107 | filtering distributes over concatenation (list order is kept) |
| Lists.FilterKeepsAll | src/pages/gestion/productos/Productos.tsx:105-107 | when every entry passes, the filter returns the list itself |
| Lists.FilterKeepsNone | src/pages/gestion/productos/Productos.tsx:105-107 | when no entry passes, the filter returns the empty list |
| Lists.FilterIdempotent | src/pages/gestion/productos/Productos.tsx:105-107 | filtering twice by the same test is filtering once |
| Lists.FilterSameTest | src/pages/Presupuesto.tsx:29-31 | two tests that agree on every entry give the same result |
| Lists.ReplaceById | src/pages/gestion/productos/Productos.tsx:66-68 | `map(p => p.id === x.id ? x : p)`: same length and ids per position; entries with the id become the value, the others are unchanged |
| Lists.ReplaceByIdAbsent | src/pages/gestion/productos/Productos.tsx:66-68 | replacing an absent id changes nothing |
| Lists.ReplaceByIdIdempotent | src/pages/gestion/productos/Productos.tsx:66-68 | replacing twice with the same value is replacing once |
| Lists.ReplaceByIdPresent | src/pages/gestion/productos/Productos.tsx:66-68 | the value is in the result exactly when it was already there or some entry had its id |
| Lists.FindById | src/pages/gestion/presupuestos/Presupuesto.tsx:37-42 | `find` by id: None exactly when no entry has the id, otherwise the first entry that has it |
| Lists.RemoveAt | src/pages/gestion/clientes/AgregarClienteModal.tsx:38-40 | the entry at the index goes and the rest keep their order; an index out of range changes nothing |
| Lists.TotalPagesIsCeiling | src/pages/gestion/productos/Productos.tsx:109 | the page count is the ceiling of entries over page size: enough pages for all entries, and none of them empty |
| Lists.PageWindow | src/pages/gestion/productos/Productos.tsx:110-119 | page p (p at least 1) is the slice from (p-1)·n to p·n clipped to the list, with at most n entries |
| Lists.PagePastEnd | src/pages/gestion/productos/Productos.tsx:110-119 | a page beyond the last is empty |
| Lists.PageFull | src/pages/gestion/productos/Productos.tsx:110-119 | every page before the last is full |
| Lists.PagesUpToPrefix | src/pages/gestion/productos/Productos.tsx:110-119 | the first k pages, read in turn, are the list's prefix of length k·n |
| Lists.PagesPartition | src/pages/gestion/productos/Productos.tsx:109-119 | all pages, read in turn, are the whole list: each entry on exactly one page, in order |
| Common.IncludesOccurs | src/pages/gestion/productos/Productos.tsx:106 | `includes` holds exactly when the term occurs at some position of the text |
| Common.EmptyTermMatches | src/pages/gestion/productos/Productos.tsx:106 | the empty search term matches every text |
| Common.MatchIgnoresCase | src/pages/gestion/productos/Productos.tsx:106 | lower-casing the text or the term first does not change the case-insensitive match |
| Common.IntToString | src/components/presupuestos/PresupuestoRow.tsx:31 | a non-negative number renders as digits that spell it; a negative one as '-' followed by digits that spell its magnitude; no leading zero in either case (0 is "0") |
| Common.NatToString | src/components/presupuestos/PresupuestoRow.tsx:31 | a non-negative number renders as a non-empty run of digits that spells it in decimal, with no leading zero; 0 renders as "0" |
| Common.JoinEndsWithLastPart | src/components/presupuestos/PresupuestoRow.tsx:30-32 | a join of parts whose last part is non-empty ends with that part's last character |
| GestionPresupuestoPage.RelacionarLinea | src/pages/gestion/presupuestos/Presupuesto.tsx:43-51 | a line item keeps product id and quantity; it gains name and category of the first product with that id, and both are absent exactly when no product has it |
| GestionPresupuestoPage.RelacionarPresupuesto | src/pages/gestion/presupuestos/Presupuesto.tsx:34-52 | a budget keeps its own fields; `cliente` is the first client with its `cliente_id` (absent exactly when none has it), likewise `vehiculo`; the item count is unchanged and each item is joined |
| GestionPresupuestoPage.Relacionar | src/pages/gestion/presupuestos/Presupuesto.tsx:34-53 | one row per flat budget, same order and ids, each row joined against the snapshot's catalogues |
| GestionPresupuestoPage.RelacionarResuelveCliente | src/pages/gestion/presupuestos/Presupuesto.tsx:37-39 | with unique client ids, a row's client is the catalogue's client with that budget's `cliente_id` |
| GestionPresupuestoPage.FetchPresupuestos | src/pages/gestion/presupuestos/Presupuesto.tsx:26-60 | on success the store becomes the joined rows; a failed fetch leaves the store unchanged |
| GestionPresupuestoPage.HandleAddPresupuesto | src/pages/gestion/presupuestos/Presupuesto.tsx:65-84 | the draft posted is fixed (client 1, vehicle 1, one item of product 1 times 2, total 0); only on success is the server's record appended |
| GestionPresupuestoPage.HandleEditPresupuesto | src/pages/gestion/presupuestos/Presupuesto.tsx:85-95 | the edited record is put unchanged under its id; only on success does the server's returned record update the store |
| GestionPresupuestoPage.HandleDeletePresupuesto | src/pages/gestion/presupuestos/Presupuesto.tsx:97-104 | only on success is every budget with the id dropped from the store |
| PresupuestoRow.ClienteCelda | src/components/presupuestos/PresupuestoRow.tsx:19 | the client's name, or "No asignado" when the client is missing or the name is empty; never empty |
| PresupuestoRow.VehiculoCelda | src/components/presupuestos/PresupuestoRow.tsx:22 | the plate, or "No asignado" when the vehicle is missing or the plate is empty; never empty |
| PresupuestoRow.FechaRealizadoCelda | src/components/presupuestos/PresupuestoRow.tsx:27 | the completion date, or "No realizado" when null or empty; never empty |
| PresupuestoRow.Etiqueta | src/components/presupuestos/PresupuestoRow.tsx:31 | an item's label `nombre (xcantidad)` (a missing name reads "undefined") always ends with ')' |
| PresupuestoRow.Etiquetas | src/components/presupuestos/PresupuestoRow.tsx:30-31 | one label per item, in item order |
| PresupuestoRow.ProductosCeldaVacia | src/components/presupuestos/PresupuestoRow.tsx:30-32 | the products cell is "Sin productos" exactly when there are no items, and otherwise the labels joined by ", " |
| PresupuestoRow.OnClick | src/components/presupuestos/PresupuestoRow.tsx:35-41 | "Editar" hands over the whole record unchanged; "Eliminar" hands over exactly its id |
| UsePresupuestos.PresupuestosHook.constructor | src/hooks/usePresupuestos.ts:7-9 | empty list, not loading, no error |
| UsePresupuestos.PresupuestosHook.FetchPresupuestos | src/hooks/usePresupuestos.ts:12-22 | the response replaces the list; a failure records its message and keeps the list; loading ends false either way |
| UsePresupuestos.PresupuestosHook.AfterWrite | src/hooks/usePresupuestos.ts:33-38 | after a successful write the list is refetched; after a failed one the error is set and the list and loading flag are unchanged; an error once set stays set |
| UsePresupuestos.PresupuestosHook.CreatePresupuesto | src/hooks/usePresupuestos.ts:30-39 | the new budget is posted as given; after a successful post the refetch's list replaces the old one and keeps the error, or its failure sets the error, and loading ends either way; a failed post sets the error and changes neither list nor loading |
| UsePresupuestos.PresupuestosHook.UpdatePresupuesto | src/hooks/usePresupuestos.ts:42-52 | the budget is put as given under the given id; after a successful put the refetch's list replaces the old one and keeps the error, or its failure sets the error, and loading ends either way; a failed put sets the error and changes neither list nor loading |
| UsePresupuestos.PresupuestosHook.DeletePresupuesto | src/hooks/usePresupuestos.ts:55-62 | the given id is deleted; after a successful delete the refetch's list replaces the old one and keeps the error, or its failure sets the error, and loading ends either way; a failed delete sets the error and changes neither list nor loading |
| PresupuestoModal.SinId | src/components/presupuestos/PresupuestoModal.tsx:33 | the draft minus `id`: no `id` key, every other key kept with its value |
| PresupuestoModal.Modal.constructor | src/components/presupuestos/PresupuestoModal.tsx:13-21 | the default draft: id, client, vehicle and total 0, status "PENDIENTE", empty creation date, null completion date |
| PresupuestoModal.Modal.HandleChange | src/components/presupuestos/PresupuestoModal.tsx:23-29 | only the field named by the input changes, to its raw string value |
| PresupuestoModal.Modal.HandleSave | src/components/presupuestos/PresupuestoModal.tsx:31-39 | the draft without `id` is handed to create; the modal closes exactly when create resolves |
| AddProductModal.ValidoSinErrores | src/components/products/AddProductModal.tsx:40-94 | the form is valid (name and description given, purchase price at least 0, sale price at least 1, stock at least 0) exactly when no field shows an error |
| AddProductModal.Datos | src/components/products/AddProductModal.tsx:23-24 | the submitted data carries the form's five values |
| AddProductModal.OnSubmit | src/components/products/AddProductModal.tsx:23-26 | a valid form calls `onSave(data)` then `onClose`; an invalid one calls neither |
| AddProductModal.SubmitIffSinErrores | src/components/products/AddProductModal.tsx:23-38 | callbacks run exactly when no field shows an error, and the data handed over carries the typed stock |
| ProductRow.ValidoSinErrores | src/components/products/ProductRow.tsx:61-159 | the edit form is valid (name 1 to 30 characters, description 1 to 100, both prices and stock at least 1) exactly when no field shows an error |
| ProductRow.EdicionMasEstrictaQueAlta | src/components/products/ProductRow.tsx:142-150 | every form the row accepts the add-product form accepts too, but a stock of 0 is accepted only by the add form |
| ProductRow.Fusionar | src/components/products/ProductRow.tsx:164-172 | the saved product keeps id and order and takes the five edited fields from the form |
| ProductRow.FusionarDefaults | src/components/products/ProductRow.tsx:47-55 | merging a product's own default values back changes nothing |
| ProductRow.Row.constructor | src/components/products/ProductRow.tsx:25-55 | not editing; the edited product is the prop; the form holds the product's values |
| ProductRow.Row.StockLow | src/components/products/ProductRow.tsx:209 | the badge is red exactly when the current prop's stock is at or below the threshold |
| ProductRow.Row.Edit | src/components/products/ProductRow.tsx:221 | the pencil enters edit mode and changes nothing else |
| ProductRow.Row.Input | src/components/products/ProductRow.tsx:61-154 | typing changes only the form values |
| ProductRow.Row.Save | src/components/products/ProductRow.tsx:164-177 | a valid form hands the merged product to `onUpdate` once, stores it and leaves edit mode; an invalid one changes nothing |
| ProductRow.Row.Cancel | src/components/products/ProductRow.tsx:34-39 | the form returns to its mount-time values and edit mode ends; no update is sent |
| ProductRow.Row.DeleteClicked | src/components/products/ProductRow.tsx:225 | the bin hands over exactly the product's id |
| ProductRow.Row.Rerender | src/pages/gestion/productos/Productos.tsx:207-213 | a new `product` prop replaces the old one; edit mode, edited product and form (with its mount-time defaults) stay |
| ProductosPage.LowStockProducts | src/pages/gestion/productos/Productos.tsx:92-94 | the banner counts exactly the products with stock at or below 3 |
| ProductosPage.BannerMatchesBadges | src/pages/gestion/productos/Productos.tsx:92-94 | a product is counted by the banner exactly when its row, given the page's threshold, shows the low-stock badge |
| ProductosPage.FilteredProducts | src/pages/gestion/productos/Productos.tsx:105-107 | exactly the products whose name contains the term, ignoring case, are kept |
| ProductosPage.EmptySearchListsAll | src/pages/gestion/productos/Productos.tsx:105-107 | an empty search lists every product |
| ProductosPage.SearchKeepsOrder | src/pages/gestion/productos/Productos.tsx:105-107 | the search keeps list order |
| ProductosPage.SearchIdempotent | src/pages/gestion/productos/Productos.tsx:105-107 | searching the result again with the same term changes nothing |
| ProductosPage.PagesCoverSearch | src/pages/gestion/productos/Productos.tsx:109-119 | the pages of six, read in turn, are the whole search result; a page past the last is empty |
| ProductosPage.Productos.constructor | src/pages/gestion/productos/Productos.tsx:14-19 | empty list, loading, empty search, form hidden, page 1 |
| ProductosPage.Productos.TotalPages | src/pages/gestion/productos/Productos.tsx:109 | the ceiling of the result count over six |
| ProductosPage.Productos.CurrentProductos | src/pages/gestion/productos/Productos.tsx:110-119 | at most six rows, the current page's slice of the search result |
| ProductosPage.Productos.FetchProducts | src/pages/gestion/productos/Productos.tsx:31-41 | the server's list on success, the old one on failure; loading ends either way |
| ProductosPage.Productos.HandleAdd | src/pages/gestion/productos/Productos.tsx:46-58 | on success the server's record is appended and the form hides; on failure nothing changes |
| ProductosPage.Productos.HandleUpdate | src/pages/gestion/productos/Productos.tsx:63-74 | on success the products with the id are replaced by the input (not by a server record); on failure nothing changes |
| ProductosPage.Productos.HandleDelete | src/pages/gestion/productos/Productos.tsx:76-87 | nothing is requested unless confirmed; a confirmed, successful delete drops the id; otherwise nothing changes |
| ProductosPage.Productos.SetSearchTerm | src/pages/gestion/productos/Productos.tsx:171-174 | the term changes and the page goes back to 1 |
| ProductosPage.Productos.Paginate | src/pages/gestion/productos/Productos.tsx:120 | the page becomes the one clicked, unclamped |
| ProductosPage.Productos.PreviousPage | src/pages/gestion/productos/Productos.tsx:234-240 | goes back one page except on page 1; from a page in range it stays in range |
| ProductosPage.Productos.NextPage | src/pages/gestion/productos/Productos.tsx:250-256 | goes forward one page except on the last; from a page in range it stays in range |
| ProductosPage.Productos.ToggleAddForm | src/pages/gestion/productos/Productos.tsx:131 | the form's visibility flips |
| ProductosPage.Productos.CloseAddForm | src/pages/gestion/productos/Productos.tsx:159 | the form hides |
| ProductosPage.Productos.SubmitAddForm | src/pages/gestion/productos/Productos.tsx:156-163 | a valid form calls `handleAdd` with its data and then `onClose`, so the form hides whatever the outcome; only a successful post appends; an invalid form changes nothing |
| ProductosPage.Productos.SaveRow | src/pages/gestion/productos/Productos.tsx:206-214 | a valid edit merges the form into the row's edited product and leaves edit mode; if the server accepts it, the products with that id are replaced by the merged product and the row shows it as its prop; otherwise list and prop are unchanged; an invalid edit changes nothing |
| ClientesPage.FilteredClientes | src/pages/gestion/clientes/Clientes.tsx:54-58 | kept exactly: name contains the term ignoring case, or contact contains it as typed |
| ClientesPage.EmptySearchListsAll | src/pages/gestion/clientes/Clientes.tsx:54-58 | an empty search lists every client |
| ClientesPage.ContactoDistingueMayusculas | src/pages/gestion/clientes/Clientes.tsx:57 | the contact is matched case-sensitively: "abc" does not find contact "ABC", "ABC" does |
| ClientesPage.PagesCoverSearch | src/pages/gestion/clientes/Clientes.tsx:60-66 | the pages of ten, read in turn, are the whole search result; a page past the last is empty |
| ClientesPage.Toggle | src/pages/gestion/clientes/Clientes.tsx:49-51 | the client opens exactly when it was not the open one, and otherwise everything closes |
| ClientesPage.ToggleTwice | src/pages/gestion/clientes/Clientes.tsx:49-51 | toggling twice restores the state when nothing or that client was open, and closes all when another was |
| ClientesPage.Clientes.constructor | src/pages/gestion/clientes/Clientes.tsx:21-31 | empty list, loading, empty search, nothing expanded, page 1, both modals closed |
| ClientesPage.Clientes.TotalPages | src/pages/gestion/clientes/Clientes.tsx:60 | the ceiling of the result count over ten |
| ClientesPage.Clientes.CurrentClientes | src/pages/gestion/clientes/Clientes.tsx:61-66 | at most ten rows, the current page's slice of the search result |
| ClientesPage.Clientes.FetchClientes | src/pages/gestion/clientes/Clientes.tsx:37-47 | the server's list on success, the old one on failure; loading ends either way |
| ClientesPage.Clientes.ToggleExpandCliente | src/pages/gestion/clientes/Clientes.tsx:49-51 | the expanded client becomes the toggle of the old one; every other field stays |
| ClientesPage.Clientes.SetSearchTerm | src/pages/gestion/clientes/Clientes.tsx:121-124 | the term changes and the page goes back to 1; every other field stays |
| ClientesPage.Clientes.Paginate | src/pages/gestion/clientes/Clientes.tsx:68 | the page becomes the one clicked, unclamped; every other field stays |
| ClientesPage.Clientes.HandleSaveCliente | src/pages/gestion/clientes/Clientes.tsx:79-87 | the client is put as given; only on success is the list refetched (loading ends) and the edit modal closed; search, page, expansion, add modal and draft stay |
| ClientesPage.Clientes.OpenEdit | src/pages/gestion/clientes/Clientes.tsx:172-175 | the edit modal opens on that client; every other field stays |
| ClientesPage.Clientes.EditNombre | src/pages/gestion/clientes/Clientes.tsx:252-257 | only the draft's name changes; every other field stays |
| ClientesPage.Clientes.EditContacto | src/pages/gestion/clientes/Clientes.tsx:268-273 | only the draft's contact changes; every other field stays |
| ClientesPage.Clientes.CancelEdit | src/pages/gestion/clientes/Clientes.tsx:281 | the edit modal closes and keeps its draft; every other field stays |
| ClientesPage.Clientes.SubmitEdit | src/pages/gestion/clientes/Clientes.tsx:240-243 | the draft is saved; the modal stays open exactly when the put fails; a successful put refetches and ends loading; search, page, expansion, add modal and draft stay |
| ClientesPage.Clientes.OpenAddModal | src/pages/gestion/clientes/Clientes.tsx:102 | the new-client modal opens; every other field stays |
| ClientesPage.Clientes.SaveFromAddModal | src/pages/gestion/clientes/Clientes.tsx:106-113 | the modal ends closed; after a successful post the client is put to id 0, and a successful put refetches, ends loading and closes the edit modal; otherwise list, loading and edit modal are unchanged; search, page, expansion and draft stay |
| ClientesPage.AplicarCambio | src/pages/gestion/clientes/Clientes.tsx:363-369 | the same field update as on a new-client draft, with the id carried over: the changed field reads the new value, every other field, the owner and the id are unchanged |
| ClientesPage.CambiarPorId | src/pages/gestion/clientes/Clientes.tsx:362-442 | the vehicles with the id take the change; the others, the length and every id are unchanged |
| ClientesPage.CambiarBorrador | src/pages/gestion/clientes/Clientes.tsx:472-542 | the typed field is set; the others are as in the previous draft, or absent when there was none |
| ClientesPage.VehiculosList.constructor | src/pages/gestion/clientes/Clientes.tsx:298-303 | the client's vehicles, nothing in edit, no draft |
| ClientesPage.VehiculosList.HandleEditVehiculo | src/pages/gestion/clientes/Clientes.tsx:305-307 | that vehicle enters edit mode |
| ClientesPage.VehiculosList.ChangeEditedField | src/pages/gestion/clientes/Clientes.tsx:362-442 | typing changes that vehicle locally |
| ClientesPage.VehiculosList.HandleSaveVehiculo | src/pages/gestion/clientes/Clientes.tsx:309-319 | on success only the vehicles with its id are replaced and edit mode ends; on failure nothing changes |
| ClientesPage.VehiculosList.HandleCancelEdit | src/pages/gestion/clientes/Clientes.tsx:321-323 | edit mode ends; local edits stay |
| ClientesPage.VehiculosList.ChangeNewField | src/pages/gestion/clientes/Clientes.tsx:472-542 | the draft takes the typed field |
| ClientesPage.VehiculosList.HandleAddNewVehiculo | src/pages/gestion/clientes/Clientes.tsx:325-338 | no draft, no request; with a draft, success appends the server's vehicle and clears the draft, failure changes nothing |
| ClientesPage.SaveAfterEditKeepsOthers | src/pages/gestion/clientes/Clientes.tsx:309-319 | editing then saving a vehicle whose id is unique keeps the ids unique, stores the saved vehicle and leaves every other vehicle as it was |
| AgregarClienteModal.AplicarCambio | src/pages/gestion/clientes/AgregarClienteModal.tsx:47-49 | the changed field reads the new value, every other field is unchanged |
| AgregarClienteModal.AplicarCambioUltimoGana | src/pages/gestion/clientes/AgregarClienteModal.tsx:47-49 | writing a field twice keeps the second value |
| AgregarClienteModal.CambiarEn | src/pages/gestion/clientes/AgregarClienteModal.tsx:42-51 | only the draft at the index changes; length kept |
| AgregarClienteModal.CambiarEnUltimoGana | src/pages/gestion/clientes/AgregarClienteModal.tsx:42-51 | changing the same field of the same draft twice keeps the second value |
| AgregarClienteModal.EliminarDeshaceAgregar | src/pages/gestion/clientes/AgregarClienteModal.tsx:23-40 | removing the draft just added gives back the list before |
| AgregarClienteModal.ConIds | src/pages/gestion/clientes/AgregarClienteModal.tsx:54-57 | vehicle i gets id i and is otherwise the draft |
| AgregarClienteModal.ConIdsUnicos | src/pages/gestion/clientes/AgregarClienteModal.tsx:54-57 | the numbered vehicles have pairwise different ids |
| AgregarClienteModal.NuevoCliente | src/pages/gestion/clientes/AgregarClienteModal.tsx:59-64 | id 0, the typed name and contact, the numbered vehicles |
| AgregarClienteModal.Modal.constructor | src/pages/gestion/clientes/AgregarClienteModal.tsx:19-21 | empty name, contact and vehicle list |
| AgregarClienteModal.Modal.SetNombre | src/pages/gestion/clientes/AgregarClienteModal.tsx:90 | only the name changes |
| AgregarClienteModal.Modal.SetContacto | src/pages/gestion/clientes/AgregarClienteModal.tsx:96 | only the contact changes |
| AgregarClienteModal.Modal.HandleAgregarVehiculo | src/pages/gestion/clientes/AgregarClienteModal.tsx:23-36 | one blank draft (empty texts, 0 km, no client) is appended |
| AgregarClienteModal.Modal.HandleEliminarVehiculo | src/pages/gestion/clientes/AgregarClienteModal.tsx:38-40 | exactly the draft at the index is removed |
| AgregarClienteModal.Modal.HandleChangeVehiculo | src/pages/gestion/clientes/AgregarClienteModal.tsx:42-51 | one field of the draft at the index changes |
| AgregarClienteModal.Modal.HandleGuardarCliente | src/pages/gestion/clientes/AgregarClienteModal.tsx:53-75 | posts id 0, the name, the contact and vehicle i with id i; `onSave` only after a successful post, `onClose` either way |
| PresupuestoLegacyPage.FilteredPresupuestos | src/pages/Presupuesto.tsx:29-31 | exactly the budgets whose status contains the term, ignoring case |
| PresupuestoLegacyPage.EmptySearchListsAll | src/pages/Presupuesto.tsx:29-31 | an empty search lists every budget |
| PresupuestoLegacyPage.SearchIgnoresTermCase | src/pages/Presupuesto.tsx:30 | lower-casing the term first gives the same result |
| PresupuestoLegacyPage.ClienteCelda | src/pages/Presupuesto.tsx:110-112 | the client's name when there is a client, "Sin cliente" otherwise |
| PresupuestoLegacyPage.ClienteCeldaVacia | src/pages/Presupuesto.tsx:110-112 | the cell is empty exactly when a client is present with an empty name |
| PresupuestoLegacyPage.PresupuestoPage.constructor | src/pages/Presupuesto.tsx:10-12 | empty list, loading, empty search |
| PresupuestoLegacyPage.PresupuestoPage.FetchPresupuestos | src/pages/Presupuesto.tsx:18-27 | the server's list on success, the old one on failure; loading ends either way |
| PresupuestoLegacyPage.PresupuestoPage.SetSearchTerm | src/pages/Presupuesto.tsx:78 | only the term changes |
| PresupuestoLegacyPage.PresupuestoPage.HandleDelete | src/pages/Presupuesto.tsx:33-46 | nothing is requested unless confirmed; a successful delete drops every budget with the id; a failed one changes nothing |
| OrdenesPage.FilteredBudgets | src/pages/Ordenes.tsx:30-34 | exactly the budgets whose title or category contains the term, ignoring case |
| OrdenesPage.EmptySearchListsAll | src/pages/Ordenes.tsx:30-34 | an empty search lists every budget |
| OrdenesPage.StatusColor | src/pages/Ordenes.tsx:48-59 | green exactly for "active", blue exactly for "completed", gray for "draft" and every other status |
| OrdenesPage.BudgetList.constructor | src/pages/Ordenes.tsx:10-12 | empty list, loading, empty search |
| OrdenesPage.BudgetList.FetchBudgets | src/pages/Ordenes.tsx:18-28 | the server's list on success, the old one on failure; loading ends either way |
| OrdenesPage.BudgetList.SetSearchTerm | src/pages/Ordenes.tsx:91 | only the term changes |
| OrdenesPage.BudgetList.HandleDelete | src/pages/Ordenes.tsx:36-46 | nothing is requested unless confirmed; a successful delete drops every budget with the string id; a failed one changes nothing |
| ProductsPage.FilteredProducts | src/pages/Products.tsx:29-33 | exactly the products whose name or description contains the term, ignoring case |
| ProductsPage.EmptySearchListsAll | src/pages/Products.tsx:29-33 | an empty search lists every product |
| ProductsPage.Products.constructor | src/pages/Products.tsx:10-12 | empty list, loading, empty search |
| ProductsPage.Products.FetchProducts | src/pages/Products.tsx:18-27 | the server's list on success, the old one on failure; loading ends either way |
| ProductsPage.Products.SetSearchTerm | src/pages/Products.tsx:76 | only the term changes |
| ProductsPage.Products.HandleDelete | src/pages/Products.tsx:35-46 | nothing is requested unless confirmed; a successful delete drops every product with the string id; a failed one changes nothing |
| ClientesListPage.FilteredClientes | src/pages/gestion/Clientes.tsx:30-32 | exactly the clients whose name contains the term, ignoring case |
| ClientesListPage.EmptySearchListsAll | src/pages/gestion/Clientes.tsx:30-32 | an empty search lists every client |
| ClientesListPage.SearchKeepsOrder | src/pages/gestion/Clientes.tsx:30-32 | the search keeps list order |
| ClientesListPage.Clientes.constructor | src/pages/gestion/Clientes.tsx:10-12 | empty list, loading, empty search |
| ClientesListPage.Clientes.FetchClientes | src/pages/gestion/Clientes.tsx:19-28 | the server's list on success, the old one on failure; loading ends either way |
| ClientesListPage.Clientes.SetSearchTerm | src/pages/gestion/Clientes.tsx:77 | only the term changes |
| ClientesListPage.Clientes.HandleDelete | src/pages/gestion/Clientes.tsx:34-45 | nothing is requested unless confirmed; a successful delete drops every client with the id; a failed one changes nothing |

## Left out

- HTTP transport: the axios instance, base URL, bearer-token interceptor and 401 redirect. Each call is an outcome input instead.
- Toasts, `console` logging and the text of `window.confirm`. The confirmation is a boolean input.
- Authentication and session storage, because they depend on browser storage.
- Rendering and styling. This covers JSX, CSS classes, the Button and Input components, the navbar, routing, the login page, the dashboard's fixed figures and the filter bar of the budgets page, which holds no logic. The orders page's status colours are an enumeration rather than class strings.
- Floating point and formatting: `toFixed`, currency and date formatting. Prices, totals, stock and kilometres are integers.
- Conversion of typed text to numbers (`parseInt`, `Number`, NaN). A number input is an integer, or None when it is empty.
- Validation is limited to each form library's declared rules, which the model states as a validator predicate. Its internals (touched fields, error timing) are not modelled.
- Unicode case mapping. `toLowerCase` is modelled for ASCII letters only.
- Interleaving of asynchronous handlers. Each handler is one atomic step, and a refetch it starts without awaiting is assumed to finish within that step.
- The hook's and the budget modal's budget type. `types/presupuesto.ts` does not declare it, so those budgets are field maps. `Budget` and `Product` of the older pages are likewise not declared, so their shapes follow the fields the pages use.
- PresupuestoModal.Modal.HandleSave: takes the outcome of `createPresupuesto` as an input. The modal is not mounted anywhere, and the hook's `createPresupuesto` never rejects, so that pairing is not modelled.
