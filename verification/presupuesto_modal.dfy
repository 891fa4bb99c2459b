/** The "new budget" modal: a draft record edited field by field from the
    inputs, saved without its `id`, and closed once the save resolves. */
module PresupuestoModal {
  import opened Common
  import opened Types

  /** `const { id, ...presupuestoSinId } = draft`: the draft minus its `id`. */
  function SinId(draft: Registro): (r: Registro)
    ensures "id" !in r
    ensures r.Keys == draft.Keys - {"id"}
    ensures forall k :: k in r ==> r[k] == draft[k]
  {
    draft - {"id"}
  }

  class Modal {
    var nuevoPresupuesto: Registro

    /** The default draft. */
    constructor ()
      ensures nuevoPresupuesto.Keys ==
                {"id", "cliente_id", "vehiculo_id", "total_estimado", "estado", "fecha_creacion", "fecha_realizado"}
      ensures nuevoPresupuesto["id"] == Num(0)
      ensures nuevoPresupuesto["cliente_id"] == Num(0) && nuevoPresupuesto["vehiculo_id"] == Num(0)
      ensures nuevoPresupuesto["total_estimado"] == Num(0)
      ensures nuevoPresupuesto["estado"] == Texto("PENDIENTE")
      ensures nuevoPresupuesto["fecha_creacion"] == Texto("")
      ensures nuevoPresupuesto["fecha_realizado"] == Nulo
    {
      nuevoPresupuesto := map[
        "id" := Num(0),
        "cliente_id" := Num(0),
        "vehiculo_id" := Num(0),
        "total_estimado" := Num(0),
        "estado" := Texto("PENDIENTE"),
        "fecha_creacion" := Texto(""),
        "fecha_realizado" := Nulo];
    }

    /** `handleChange`: the input named `name` stores its raw string value;
        every other field keeps its value. */
    method HandleChange(name: string, value: string)
      modifies this
      ensures nuevoPresupuesto == old(nuevoPresupuesto)[name := Texto(value)]
      ensures forall k :: k in old(nuevoPresupuesto) && k != name ==> k in nuevoPresupuesto && nuevoPresupuesto[k] == old(nuevoPresupuesto)[k]
    {
      nuevoPresupuesto := nuevoPresupuesto[name := Texto(value)];
    }

    /** `handleSave`: hands the draft without its `id` to `createPresupuesto`
        (whose promise settles as `created`); `onClose` runs only when it
        resolves. */
    method HandleSave(created: Remote<()>) returns (sent: Registro, closed: bool)
      ensures "id" !in sent && sent.Keys == nuevoPresupuesto.Keys - {"id"}
      ensures forall k :: k in sent ==> sent[k] == nuevoPresupuesto[k]
      ensures closed <==> created.Success?
    {
      sent := SinId(nuevoPresupuesto);
      closed := created.Success?;
    }
  }
}
