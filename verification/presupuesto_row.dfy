/** One row of the budgets table: the text of each cell, with its fallback
    for missing data, and what the row's two buttons hand to the page. */
module PresupuestoRow {
  import opened Common
  import opened Types

  const NoAsignado := "No asignado"
  const NoRealizado := "No realizado"
  const SinProductos := "Sin productos"

  /** `presupuesto.cliente?.nombre || "No asignado"`. */
  function ClienteCelda(p: IPresupuesto): (r: string)
    ensures r != ""
    ensures p.cliente.Some? && p.cliente.value.nombre != "" ==> r == p.cliente.value.nombre
    ensures p.cliente.None? || p.cliente.value.nombre == "" ==> r == NoAsignado
  {
    if p.cliente.Some? && p.cliente.value.nombre != "" then p.cliente.value.nombre else NoAsignado
  }

  /** `presupuesto.vehiculo?.matricula || "No asignado"`. */
  function VehiculoCelda(p: IPresupuesto): (r: string)
    ensures r != ""
    ensures p.vehiculo.Some? && p.vehiculo.value.matricula != "" ==> r == p.vehiculo.value.matricula
    ensures p.vehiculo.None? || p.vehiculo.value.matricula == "" ==> r == NoAsignado
  {
    if p.vehiculo.Some? && p.vehiculo.value.matricula != "" then p.vehiculo.value.matricula else NoAsignado
  }

  /** `presupuesto.fecha_realizado || "No realizado"`. */
  function FechaRealizadoCelda(p: IPresupuesto): (r: string)
    ensures r != ""
    ensures p.fecha_realizado.Some? && p.fecha_realizado.value != "" ==> r == p.fecha_realizado.value
    ensures p.fecha_realizado.None? || p.fecha_realizado.value == "" ==> r == NoRealizado
  {
    if p.fecha_realizado.Some? && p.fecha_realizado.value != "" then p.fecha_realizado.value else NoRealizado
  }

  /** A template literal shows an undefined name as the text "undefined". */
  function NombreTexto(nombre: Option<string>): string
  {
    if nombre.Some? then nombre.value else "undefined"
  }

  /** `${producto.nombre} (x${producto.cantidad})`. */
  function Etiqueta(l: Linea): (r: string)
    ensures |r| > 0 && r[|r| - 1] == ')'
  {
    NombreTexto(l.nombre) + " (x" + IntToString(l.cantidad) + ")"
  }

  function Etiquetas(ls: seq<Linea>): (r: seq<string>)
    ensures |r| == |ls|
    ensures forall i :: 0 <= i < |ls| ==> r[i] == Etiqueta(ls[i])
  {
    seq(|ls|, i requires 0 <= i < |ls| => Etiqueta(ls[i]))
  }

  /** The products cell: the item labels in order joined by ", ", or
      "Sin productos" when that text is empty. */
  function ProductosCelda(p: IPresupuesto): string
  {
    var texto := Join(Etiquetas(p.productos), ", ");
    if texto != "" then texto else SinProductos
  }

  /** The products cell shows "Sin productos" exactly when the budget has
      no items; otherwise it is the joined labels of all items, in order. */
  lemma ProductosCeldaVacia(p: IPresupuesto)
    ensures ProductosCelda(p) == SinProductos <==> p.productos == []
    ensures p.productos != [] ==> ProductosCelda(p) == Join(Etiquetas(p.productos), ", ")
  {
    var ls := Etiquetas(p.productos);
    if p.productos != [] {
      JoinEndsWithLastPart(ls, ", ");
      var j := Join(ls, ", ");
      assert j[|j| - 1] == ')';
      assert SinProductos[|SinProductos| - 1] == 's';
    }
  }

  /** The two buttons of a row. */
  datatype Boton = Editar | Eliminar

  /** What a button hands to the page: the whole record, or just its id. */
  datatype Accion = EditRequested(presupuesto: IPresupuesto) | DeleteRequested(id: int)

  function OnClick(p: IPresupuesto, b: Boton): (a: Accion)
    ensures b == Editar ==> a == EditRequested(p)
    ensures b == Eliminar ==> a == DeleteRequested(p.id)
  {
    match b
    case Editar => EditRequested(p)
    case Eliminar => DeleteRequested(p.id)
  }
}
