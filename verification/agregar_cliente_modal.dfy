/** The new-client modal: a name, a contact and a list of vehicle drafts
    that the user adds, removes and fills in; saving numbers the vehicles,
    posts the client and reports back to the page. */
module AgregarClienteModal {
  import opened Common
  import opened Types
  import Lists

  /** The vehicle "Agregar Vehículo" appends: empty texts, 0 km, no client. */
  const VehiculoEnBlanco := VehiculoNuevo("", "", "", "", "", 0, None)

  /** `{ ...vehiculo, [field]: value }`: one field takes the new value. */
  function AplicarCambio(v: VehiculoNuevo, c: Cambio): (r: VehiculoNuevo)
    ensures r.cliente == v.cliente
    ensures LeerVehiculoNuevo(r, c.Campo()) == c.Valor()
    ensures forall f :: f != c.Campo() ==> LeerVehiculoNuevo(r, f) == LeerVehiculoNuevo(v, f)
  {
    match c
    case SetTipo(s) => v.(tipo := s)
    case SetColor(s) => v.(color := s)
    case SetMarca(s) => v.(marca := s)
    case SetModelo(s) => v.(modelo := s)
    case SetMatricula(s) => v.(matricula := s)
    case SetKilometros(n) => v.(kilometros := n)
  }

  /** Writing a field twice keeps only the second value. */
  lemma AplicarCambioUltimoGana(v: VehiculoNuevo, c1: Cambio, c2: Cambio)
    requires c1.Campo() == c2.Campo()
    ensures AplicarCambio(AplicarCambio(v, c1), c2) == AplicarCambio(v, c2)
  {
  }

  /** `handleChangeVehiculo`'s map: the draft at `index` changes, the
      others stay. */
  function CambiarEn(vs: seq<VehiculoNuevo>, index: int, c: Cambio): (r: seq<VehiculoNuevo>)
    ensures |r| == |vs|
    ensures forall i :: 0 <= i < |vs| && i != index ==> r[i] == vs[i]
    ensures 0 <= index < |vs| ==> r[index] == AplicarCambio(vs[index], c)
  {
    seq(|vs|, i requires 0 <= i < |vs| => if i == index then AplicarCambio(vs[i], c) else vs[i])
  }

  /** Changing the same field of the same draft twice keeps the second value. */
  lemma CambiarEnUltimoGana(vs: seq<VehiculoNuevo>, index: int, c1: Cambio, c2: Cambio)
    requires c1.Campo() == c2.Campo()
    ensures CambiarEn(CambiarEn(vs, index, c1), index, c2) == CambiarEn(vs, index, c2)
  {
    var a, b := CambiarEn(CambiarEn(vs, index, c1), index, c2), CambiarEn(vs, index, c2);
    forall i | 0 <= i < |vs| ensures a[i] == b[i] {
      if i == index {
        AplicarCambioUltimoGana(vs[i], c1, c2);
      }
    }
  }

  /** Removing the draft just added gives back the list before the add. */
  lemma EliminarDeshaceAgregar(vs: seq<VehiculoNuevo>)
    ensures Lists.RemoveAt(vs + [VehiculoEnBlanco], |vs|) == vs
  {
    assert (vs + [VehiculoEnBlanco])[..|vs|] == vs;
  }

  function ConId(v: VehiculoNuevo, id: int): Vehiculo
  {
    Vehiculo(id, v.tipo, v.color, v.marca, v.modelo, v.matricula, v.kilometros, v.cliente)
  }

  /** `Omit<Vehiculo, "id">`. */
  function SinId(v: Vehiculo): VehiculoNuevo
  {
    VehiculoNuevo(v.tipo, v.color, v.marca, v.modelo, v.matricula, v.kilometros, v.cliente)
  }

  /** `vehiculosConId`: each draft gets its position as id, and nothing
      else about it changes. */
  function ConIds(vs: seq<VehiculoNuevo>): (r: seq<Vehiculo>)
    ensures |r| == |vs|
    ensures forall i :: 0 <= i < |vs| ==> r[i].id == i && SinId(r[i]) == vs[i]
  {
    seq(|vs|, i requires 0 <= i < |vs| => ConId(vs[i], i))
  }

  /** The numbered vehicles have pairwise different ids. */
  lemma ConIdsUnicos(vs: seq<VehiculoNuevo>)
    ensures Lists.UniqueKeys(ConIds(vs), VehiculoKey)
  {
    var r := ConIds(vs);
    forall i, j | 0 <= i < |r| && 0 <= j < |r| && VehiculoKey(r[i]) == VehiculoKey(r[j])
      ensures i == j
    {
      assert r[i].id == i && r[j].id == j;
    }
  }

  /** `nuevoCliente`: id 0, the typed name and contact, the numbered vehicles. */
  function NuevoCliente(nombre: string, contacto: string, vs: seq<VehiculoNuevo>): (c: Cliente)
    ensures c.id == 0 && c.nombre == nombre && c.contacto == contacto
    ensures |c.vehiculos| == |vs|
    ensures forall i :: 0 <= i < |vs| ==> c.vehiculos[i].id == i && SinId(c.vehiculos[i]) == vs[i]
  {
    Cliente(0, nombre, contacto, ConIds(vs))
  }

  /** The callbacks the modal calls, in order. */
  datatype Llamada = OnSave(cliente: Cliente) | OnClose

  class Modal {
    var nombre: string
    var contacto: string
    var vehiculos: seq<VehiculoNuevo>

    constructor ()
      ensures nombre == "" && contacto == "" && vehiculos == []
    {
      nombre, contacto, vehiculos := "", "", [];
    }

    method SetNombre(value: string)
      modifies this
      ensures nombre == value && contacto == old(contacto) && vehiculos == old(vehiculos)
    {
      nombre := value;
    }

    method SetContacto(value: string)
      modifies this
      ensures contacto == value && nombre == old(nombre) && vehiculos == old(vehiculos)
    {
      contacto := value;
    }

    /** `handleAgregarVehiculo`: one blank draft more, at the end. */
    method HandleAgregarVehiculo()
      modifies this
      ensures vehiculos == old(vehiculos) + [VehiculoEnBlanco]
      ensures nombre == old(nombre) && contacto == old(contacto)
    {
      vehiculos := vehiculos + [VehiculoEnBlanco];
    }

    /** `handleEliminarVehiculo`: the draft at `index` goes, the rest keep
        their order. */
    method HandleEliminarVehiculo(index: int)
      modifies this
      ensures vehiculos == Lists.RemoveAt(old(vehiculos), index)
      ensures nombre == old(nombre) && contacto == old(contacto)
    {
      vehiculos := Lists.RemoveAt(vehiculos, index);
    }

    /** `handleChangeVehiculo`: one field of the draft at `index` changes. */
    method HandleChangeVehiculo(index: int, c: Cambio)
      modifies this
      ensures vehiculos == CambiarEn(old(vehiculos), index, c)
      ensures nombre == old(nombre) && contacto == old(contacto)
    {
      vehiculos := CambiarEn(vehiculos, index, c);
    }

    /** `handleGuardarCliente`: the client posted is id 0 with the typed
        name and contact and the drafts numbered by position; `onSave`
        runs only when the post succeeds, `onClose` runs either way. */
    method HandleGuardarCliente(response: Remote<()>) returns (sent: Cliente, calls: seq<Llamada>)
      ensures sent.id == 0 && sent.nombre == nombre && sent.contacto == contacto
      ensures |sent.vehiculos| == |vehiculos|
      ensures forall i :: 0 <= i < |vehiculos| ==>
                sent.vehiculos[i].id == i && SinId(sent.vehiculos[i]) == vehiculos[i]
      ensures response.Success? ==> calls == [OnSave(sent), OnClose]
      ensures response.Failure? ==> calls == [OnClose]
    {
      sent := NuevoCliente(nombre, contacto, vehiculos);
      calls := [];
      if response.Success? {
        calls := calls + [OnSave(sent)];
      }
      calls := calls + [OnClose];
    }
  }
}
