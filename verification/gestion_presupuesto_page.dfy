/** The budgets management page: it loads the combined snapshot, joins each
    flat budget with its client, vehicle and products, and sends add, edit
    and delete requests, touching the store only when a request succeeds. */
module GestionPresupuestoPage {
  import opened Common
  import opened Types
  import Lists
  import opened PresupuestosSlice

  // ------------------------------------------------------------ the join

  /** One line item: it keeps its product id and quantity and gains the
      name and category of the first product with that id, if any. */
  function RelacionarLinea(l: LineaRef, productos: seq<ProductoRef>): (r: Linea)
    ensures r.producto_id == l.producto_id && r.cantidad == l.cantidad
    ensures r.nombre.None? == r.categoria.None?
    ensures r.nombre.None? <==> forall j :: 0 <= j < |productos| ==> productos[j].id != l.producto_id
    ensures r.nombre.Some? ==> exists j :: Lists.FirstWithId(productos, ProductoRefKey, l.producto_id, j)
                                      && r.nombre.value == productos[j].nombre
                                      && r.categoria.value == productos[j].categoria
  {
    var p := Lists.FindById(productos, ProductoRefKey, l.producto_id);
    Linea(l.producto_id, l.cantidad,
          if p.Some? then Some(p.value.nombre) else None,
          if p.Some? then Some(p.value.categoria) else None)
  }

  /** One budget: its own fields spread unchanged, `cliente` and `vehiculo`
      the first client and vehicle with the referenced id (undefined when
      none matches), and every line item joined in order. */
  function RelacionarPresupuesto(b: PresupuestoPlano, data: PresupuestoData): (r: IPresupuesto)
    ensures r.id == b.id && r.total_estimado == b.total_estimado && r.estado == b.estado
    ensures r.fecha_creacion == b.fecha_creacion && r.fecha_realizado == b.fecha_realizado
    ensures r.cliente_id == Some(b.cliente_id) && r.vehiculo_id == Some(b.vehiculo_id)
    ensures r.cliente.None? <==> forall j :: 0 <= j < |data.clientes| ==> data.clientes[j].id != b.cliente_id
    ensures r.cliente.Some? ==> exists j :: Lists.FirstWithId(data.clientes, ClienteRefKey, b.cliente_id, j)
                                        && data.clientes[j] == r.cliente.value
    ensures r.vehiculo.None? <==> forall j :: 0 <= j < |data.vehiculos| ==> data.vehiculos[j].id != b.vehiculo_id
    ensures r.vehiculo.Some? ==> exists j :: Lists.FirstWithId(data.vehiculos, VehiculoRefKey, b.vehiculo_id, j)
                                         && data.vehiculos[j] == r.vehiculo.value
    ensures |r.productos| == |b.productos|
    ensures forall i :: 0 <= i < |b.productos| ==> r.productos[i] == RelacionarLinea(b.productos[i], data.productos)
  {
    IPresupuesto(
      b.id, Some(b.cliente_id), Some(b.vehiculo_id), b.total_estimado, b.estado,
      b.fecha_creacion, b.fecha_realizado,
      Lists.FindById(data.clientes, ClienteRefKey, b.cliente_id),
      Lists.FindById(data.vehiculos, VehiculoRefKey, b.vehiculo_id),
      seq(|b.productos|, i requires 0 <= i < |b.productos| => RelacionarLinea(b.productos[i], data.productos)))
  }

  /** `presupuestosConRelaciones`: one joined row per budget of the
      response, in the response's order. */
  function Relacionar(data: PresupuestoData): (r: seq<IPresupuesto>)
    ensures |r| == |data.presupuestos|
    ensures forall i :: 0 <= i < |r| ==> r[i].id == data.presupuestos[i].id
    ensures forall i :: 0 <= i < |r| ==> r[i] == RelacionarPresupuesto(data.presupuestos[i], data)
  {
    seq(|data.presupuestos|, i requires 0 <= i < |data.presupuestos| =>
      RelacionarPresupuesto(data.presupuestos[i], data))
  }

  /** The join resolves a client reference to the client record itself. */
  lemma RelacionarResuelveCliente(data: PresupuestoData, i: int, c: ClienteRef)
    requires 0 <= i < |data.presupuestos|
    requires c in data.clientes && c.id == data.presupuestos[i].cliente_id
    requires Lists.UniqueKeys(data.clientes, ClienteRefKey)
    ensures Relacionar(data)[i].cliente == Some(c)
  {
    var r := Relacionar(data)[i];
    var k :| 0 <= k < |data.clientes| && data.clientes[k] == c;
    assert r.cliente.Some?;
    var j :| Lists.FirstWithId(data.clientes, ClienteRefKey, data.presupuestos[i].cliente_id, j)
           && data.clientes[j] == r.cliente.value;
    assert ClienteRefKey(data.clientes[j]) == ClienteRefKey(data.clientes[k]);
  }

  // ---------------------------------------------------------- the handlers

  /** `fetchPresupuestos`: on success the joined rows replace the store's
      list; a failed request dispatches nothing. */
  method FetchPresupuestos(store: PresupuestosState, response: Remote<PresupuestoData>)
    modifies store
    ensures response.Success? ==> store.presupuestos == Relacionar(response.payload)
    ensures response.Failure? ==> store.presupuestos == old(store.presupuestos)
  {
    if response.Success? {
      store.SetPresupuestos(Relacionar(response.payload));
    }
  }

  /** `handleAddPresupuesto`: posts a fixed draft and appends the server's
      record on success. Returns the body that was posted. */
  method HandleAddPresupuesto(store: PresupuestosState, response: Remote<IPresupuesto>)
    returns (sent: IPresupuestoForm)
    modifies store
    ensures sent.cliente_id == 1 && sent.vehiculo_id == 1 && sent.total_estimado == 0
    ensures sent.productos == [LineaRef(1, 2)]
    ensures response.Success? ==> store.presupuestos == old(store.presupuestos) + [response.payload]
    ensures response.Failure? ==> store.presupuestos == old(store.presupuestos)
  {
    sent := IPresupuestoForm(1, 1, [LineaRef(1, 2)], 0);
    if response.Success? {
      store.AddPresupuesto(response.payload);
    }
  }

  /** `handleEditPresupuesto`: puts the whole row as it is (joined fields
      included) and, on success, stores the record the server returned. */
  method HandleEditPresupuesto(store: PresupuestosState, updated: IPresupuesto, response: Remote<IPresupuesto>)
    returns (sentId: int, sent: IPresupuesto)
    modifies store
    ensures sentId == updated.id && sent == updated
    ensures response.Success? ==>
              store.presupuestos == Lists.UpdateFirstById(old(store.presupuestos), PresupuestoKey, response.payload)
    ensures response.Failure? ==> store.presupuestos == old(store.presupuestos)
  {
    sentId, sent := updated.id, updated;
    if response.Success? {
      store.UpdatePresupuesto(response.payload);
    }
  }

  /** `handleDeletePresupuesto`: on success, drops the id from the store. */
  method HandleDeletePresupuesto(store: PresupuestosState, id: int, response: Remote<()>)
    modifies store
    ensures response.Success? ==> store.presupuestos == Lists.RemoveById(old(store.presupuestos), PresupuestoKey, id)
    ensures response.Failure? ==> store.presupuestos == old(store.presupuestos)
  {
    if response.Success? {
      store.DeletePresupuesto(id);
    }
  }
}
