/** The budgets store (a Redux slice): one list of budget rows that four
    reducers update in place. */
module PresupuestosSlice {
  import opened Types
  import Lists

  class PresupuestosState {
    var presupuestos: seq<IPresupuesto>

    /** `initialState`: no budgets. */
    constructor ()
      ensures presupuestos == []
    {
      presupuestos := [];
    }

    /** `setPresupuestos`: the payload becomes the whole list. */
    method SetPresupuestos(payload: seq<IPresupuesto>)
      modifies this
      ensures presupuestos == payload
    {
      presupuestos := payload;
    }

    /** `addPresupuesto`: push at the end. */
    method AddPresupuesto(payload: IPresupuesto)
      modifies this
      ensures presupuestos == old(presupuestos) + [payload]
      ensures |presupuestos| == |old(presupuestos)| + 1
      ensures forall i :: 0 <= i < |old(presupuestos)| ==> presupuestos[i] == old(presupuestos)[i]
    {
      presupuestos := presupuestos + [payload];
    }

    /** `updatePresupuesto`: `findIndex` by id, then overwrite that one
        position; nothing happens when the id is absent. */
    method UpdatePresupuesto(payload: IPresupuesto)
      modifies this
      ensures presupuestos == Lists.UpdateFirstById(old(presupuestos), PresupuestoKey, payload)
      ensures |presupuestos| == |old(presupuestos)|
      ensures (forall i :: 0 <= i < |old(presupuestos)| ==> old(presupuestos)[i].id != payload.id) ==>
                presupuestos == old(presupuestos)
    {
      var index := Lists.FirstIndex(presupuestos, PresupuestoKey, payload.id);
      if index != -1 {
        presupuestos := presupuestos[index := payload];
      }
    }

    /** `deletePresupuesto`: keep the budgets whose id differs. */
    method DeletePresupuesto(id: int)
      modifies this
      ensures presupuestos == Lists.RemoveById(old(presupuestos), PresupuestoKey, id)
      ensures forall i :: 0 <= i < |presupuestos| ==> presupuestos[i].id != id
    {
      presupuestos := Lists.RemoveById(presupuestos, PresupuestoKey, id);
    }
  }
}
