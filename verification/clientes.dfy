/** The client management page: a searchable, paginated client table whose
    rows expand into an editable vehicle list, an edit-client modal and the
    new-client modal. */
module ClientesPage {
  import opened Common
  import opened Types
  import Lists
  import AgregarClienteModal

  /** Clients per page. */
  const PorPagina: nat := 10

  /** The search test: the name contains the term ignoring case, or the
      contact contains it exactly as typed. */
  function CoincideCliente(term: string): Cliente -> bool
  {
    (c: Cliente) => MatchesIgnoringCase(c.nombre, term) || Includes(c.contacto, term)
  }

  /** `filteredClientes`, in list order. */
  function FilteredClientes(cs: seq<Cliente>, term: string): (r: seq<Cliente>)
    ensures |r| <= |cs|
    ensures forall i :: 0 <= i < |r| ==>
              r[i] in cs && (MatchesIgnoringCase(r[i].nombre, term) || Includes(r[i].contacto, term))
    ensures forall i :: 0 <= i < |cs| && (MatchesIgnoringCase(cs[i].nombre, term) || Includes(cs[i].contacto, term)) ==>
              cs[i] in r
  {
    Lists.Filter(cs, CoincideCliente(term))
  }

  /** An empty search box lists every client. */
  lemma EmptySearchListsAll(cs: seq<Cliente>)
    ensures FilteredClientes(cs, "") == cs
  {
    forall i | 0 <= i < |cs| ensures CoincideCliente("")(cs[i]) {
      EmptyTermMatches(cs[i].nombre);
    }
    Lists.FilterKeepsAll(cs, CoincideCliente(""));
  }

  /** Only the name is matched ignoring case: a client whose contact holds
      the term in other letter case, and whose name does not hold it, is
      not listed. */
  lemma ContactoDistingueMayusculas()
    ensures var c := Cliente(1, "Ana", "ABC", []);
            !CoincideCliente("abc")(c) && CoincideCliente("ABC")(c)
  {
    var c := Cliente(1, "Ana", "ABC", []);
    assert Lower(c.nombre) == "ana" && Lower("abc") == "abc";
    assert "ana"[..3][1] != "abc"[1] && "ABC"[..3][0] != "abc"[0];
    assert !Includes("ana"[1..], "abc") && !Includes("ABC"[1..], "abc");
    assert c.contacto[..3] == "ABC";
  }

  /** Reading every page of the search result in turn gives back the whole
      result, and a page beyond the last is empty. */
  lemma PagesCoverSearch(cs: seq<Cliente>, term: string, page: int)
    ensures var f := FilteredClientes(cs, term);
            Lists.PagesUpTo(f, PorPagina, Lists.TotalPages(|f|, PorPagina)) == f
    ensures var f := FilteredClientes(cs, term);
            page > Lists.TotalPages(|f|, PorPagina) ==> Lists.Page(f, page, PorPagina) == []
  {
    var f := FilteredClientes(cs, term);
    Lists.PagesPartition(f, PorPagina);
    if page > Lists.TotalPages(|f|, PorPagina) {
      Lists.PagePastEnd(f, page, PorPagina);
    }
  }

  /** `toggleExpandCliente`: the client's vehicles open unless they are
      the ones open, which close; at most one client is ever expanded. */
  function Toggle(expanded: Option<int>, id: int): (r: Option<int>)
    ensures r == Some(id) <==> expanded != Some(id)
    ensures r.None? <==> expanded == Some(id)
  {
    if expanded == Some(id) then None else Some(id)
  }

  /** Toggling the same client twice restores the state only when nothing
      or that same client was open; when another client was open, all end
      up closed. */
  lemma ToggleTwice(expanded: Option<int>, id: int)
    ensures expanded.None? || expanded == Some(id) ==> Toggle(Toggle(expanded, id), id) == expanded
    ensures expanded.Some? && expanded != Some(id) ==> Toggle(Toggle(expanded, id), id) == None
  {
  }

  class Clientes {
    var clientes: seq<Cliente>
    var isLoading: bool
    var searchTerm: string
    var expandedClienteId: Option<int>
    var currentPage: int
    var isModalOpen: bool
    var isEditModalOpen: bool
    var clienteToEdit: Option<Cliente>

    constructor ()
      ensures clientes == [] && isLoading && searchTerm == "" && expandedClienteId == None
      ensures currentPage == 1 && !isModalOpen && !isEditModalOpen && clienteToEdit == None
    {
      clientes, isLoading, searchTerm := [], true, "";
      expandedClienteId, currentPage := None, 1;
      isModalOpen, isEditModalOpen, clienteToEdit := false, false, None;
    }

    function Filtered(): seq<Cliente>
      reads this
    {
      FilteredClientes(clientes, searchTerm)
    }

    /** `totalPages`: the ceiling of the result count over ten. */
    function TotalPages(): (n: nat)
      reads this
      ensures n * PorPagina >= |Filtered()|
      ensures n == 0 || (n - 1) * PorPagina < |Filtered()|
    {
      Lists.TotalPagesIsCeiling(|Filtered()|, PorPagina);
      Lists.TotalPages(|Filtered()|, PorPagina)
    }

    /** `currentClientes`: the rows of the current page. */
    function CurrentClientes(): (r: seq<Cliente>)
      reads this
      ensures |r| <= PorPagina
      ensures currentPage >= 1 ==>
                r == Filtered()[Lists.Min((currentPage - 1) * PorPagina, |Filtered()|)..
                                Lists.Min(currentPage * PorPagina, |Filtered()|)]
    {
      if currentPage >= 1 then
        Lists.PageWindow(Filtered(), currentPage, PorPagina);
        Lists.Page(Filtered(), currentPage, PorPagina)
      else
        Lists.Page(Filtered(), currentPage, PorPagina)
    }

    /** `fetchClientes`: the list becomes the server's on success and stays
        on failure; loading ends either way. */
    method FetchClientes(response: Remote<seq<Cliente>>)
      modifies this
      ensures response.Success? ==> clientes == response.payload
      ensures response.Failure? ==> clientes == old(clientes)
      ensures !isLoading
      ensures searchTerm == old(searchTerm) && currentPage == old(currentPage)
      ensures expandedClienteId == old(expandedClienteId)
      ensures isModalOpen == old(isModalOpen) && isEditModalOpen == old(isEditModalOpen)
      ensures clienteToEdit == old(clienteToEdit)
    {
      if response.Success? {
        clientes := response.payload;
      }
      isLoading := false;
    }

    /** The chevron of a client row. */
    method ToggleExpandCliente(id: int)
      modifies this
      ensures expandedClienteId == Toggle(old(expandedClienteId), id)
      ensures clientes == old(clientes) && isLoading == old(isLoading)
      ensures searchTerm == old(searchTerm) && currentPage == old(currentPage)
      ensures isModalOpen == old(isModalOpen) && isEditModalOpen == old(isEditModalOpen)
      ensures clienteToEdit == old(clienteToEdit)
    {
      expandedClienteId := Toggle(expandedClienteId, id);
    }

    /** Typing in the search box goes back to the first page. */
    method SetSearchTerm(term: string)
      modifies this
      ensures searchTerm == term && currentPage == 1
      ensures clientes == old(clientes) && isLoading == old(isLoading)
      ensures expandedClienteId == old(expandedClienteId)
      ensures isModalOpen == old(isModalOpen) && isEditModalOpen == old(isEditModalOpen)
      ensures clienteToEdit == old(clienteToEdit)
    {
      searchTerm := term;
      currentPage := 1;
    }

    /** A numbered page button; the arrows call it with the page before or
        after, and are disabled on the first and on the last page. */
    method Paginate(page: int)
      modifies this
      ensures currentPage == page
      ensures clientes == old(clientes) && isLoading == old(isLoading)
      ensures searchTerm == old(searchTerm) && expandedClienteId == old(expandedClienteId)
      ensures isModalOpen == old(isModalOpen) && isEditModalOpen == old(isEditModalOpen)
      ensures clienteToEdit == old(clienteToEdit)
    {
      currentPage := page;
    }

    /** `handleSaveCliente`: the client is put as given; on success the
        list is fetched again (its outcome is `refetch`) and the edit modal
        closes; on failure nothing changes. */
    method HandleSaveCliente(cliente: Cliente, put: Remote<()>, refetch: Remote<seq<Cliente>>)
      returns (sentId: int, sent: Cliente)
      modifies this
      ensures sentId == cliente.id && sent == cliente
      ensures put.Success? && refetch.Success? ==> clientes == refetch.payload
      ensures !(put.Success? && refetch.Success?) ==> clientes == old(clientes)
      ensures put.Success? ==> !isEditModalOpen && !isLoading
      ensures put.Failure? ==> isEditModalOpen == old(isEditModalOpen) && isLoading == old(isLoading)
      ensures isModalOpen == old(isModalOpen) && clienteToEdit == old(clienteToEdit)
      ensures searchTerm == old(searchTerm) && currentPage == old(currentPage)
      ensures expandedClienteId == old(expandedClienteId)
    {
      sentId, sent := cliente.id, cliente;
      if put.Success? {
        FetchClientes(refetch);
        isEditModalOpen := false;
      }
    }

    /** The pencil of a client row opens the edit modal on that client. */
    method OpenEdit(cliente: Cliente)
      modifies this
      ensures clienteToEdit == Some(cliente) && isEditModalOpen
      ensures clientes == old(clientes) && isLoading == old(isLoading)
      ensures searchTerm == old(searchTerm) && currentPage == old(currentPage)
      ensures expandedClienteId == old(expandedClienteId) && isModalOpen == old(isModalOpen)
    {
      clienteToEdit := Some(cliente);
      isEditModalOpen := true;
    }

    /** The name input of the edit modal changes only the draft's name. */
    method EditNombre(value: string)
      requires clienteToEdit.Some?
      modifies this
      ensures clienteToEdit == Some(old(clienteToEdit).value.(nombre := value))
      ensures clientes == old(clientes) && isLoading == old(isLoading)
      ensures searchTerm == old(searchTerm) && currentPage == old(currentPage)
      ensures expandedClienteId == old(expandedClienteId)
      ensures isModalOpen == old(isModalOpen) && isEditModalOpen == old(isEditModalOpen)
    {
      clienteToEdit := Some(clienteToEdit.value.(nombre := value));
    }

    /** The contact input of the edit modal changes only the draft's contact. */
    method EditContacto(value: string)
      requires clienteToEdit.Some?
      modifies this
      ensures clienteToEdit == Some(old(clienteToEdit).value.(contacto := value))
      ensures clientes == old(clientes) && isLoading == old(isLoading)
      ensures searchTerm == old(searchTerm) && currentPage == old(currentPage)
      ensures expandedClienteId == old(expandedClienteId)
      ensures isModalOpen == old(isModalOpen) && isEditModalOpen == old(isEditModalOpen)
    {
      clienteToEdit := Some(clienteToEdit.value.(contacto := value));
    }

    /** "Cancelar" closes the edit modal and keeps the draft. */
    method CancelEdit()
      modifies this
      ensures !isEditModalOpen && clienteToEdit == old(clienteToEdit)
      ensures clientes == old(clientes) && isLoading == old(isLoading)
      ensures searchTerm == old(searchTerm) && currentPage == old(currentPage)
      ensures expandedClienteId == old(expandedClienteId) && isModalOpen == old(isModalOpen)
    {
      isEditModalOpen := false;
    }

    /** "Guardar Cambios" saves the edited draft. */
    method SubmitEdit(put: Remote<()>, refetch: Remote<seq<Cliente>>) returns (sent: Cliente)
      requires isEditModalOpen && clienteToEdit.Some?
      modifies this
      ensures sent == old(clienteToEdit).value
      ensures put.Success? && refetch.Success? ==> clientes == refetch.payload
      ensures !(put.Success? && refetch.Success?) ==> clientes == old(clientes)
      ensures isEditModalOpen <==> put.Failure?
      ensures put.Success? ==> !isLoading
      ensures put.Failure? ==> isLoading == old(isLoading)
      ensures searchTerm == old(searchTerm) && currentPage == old(currentPage)
      ensures expandedClienteId == old(expandedClienteId) && isModalOpen == old(isModalOpen)
      ensures clienteToEdit == old(clienteToEdit)
    {
      var _, s := HandleSaveCliente(clienteToEdit.value, put, refetch);
      sent := s;
    }

    /** "Agregar Cliente" opens the new-client modal. */
    method OpenAddModal()
      modifies this
      ensures isModalOpen
      ensures clientes == old(clientes) && isLoading == old(isLoading)
      ensures searchTerm == old(searchTerm) && currentPage == old(currentPage)
      ensures expandedClienteId == old(expandedClienteId)
      ensures isEditModalOpen == old(isEditModalOpen) && clienteToEdit == old(clienteToEdit)
    {
      isModalOpen := true;
    }

    /** Saving in the new-client modal shown on this page. The modal posts
        the client and, when that succeeds, its `onSave` hands the client
        (id 0) to `handleSaveCliente`, which puts it to the client with id
        0 and refetches, and closes the modal; the modal's own `onClose`
        then closes it either way. */
    method SaveFromAddModal(modal: AgregarClienteModal.Modal, post: Remote<()>,
                            put: Remote<()>, refetch: Remote<seq<Cliente>>)
      returns (putId: Option<int>)
      requires isModalOpen
      modifies this
      ensures !isModalOpen
      ensures post.Success? ==> putId == Some(0)
      ensures post.Failure? ==> putId == None
      ensures post.Success? && put.Success? && refetch.Success? ==> clientes == refetch.payload
      ensures !(post.Success? && put.Success? && refetch.Success?) ==> clientes == old(clientes)
      ensures post.Success? && put.Success? ==> !isEditModalOpen && !isLoading
      ensures !(post.Success? && put.Success?) ==>
                isEditModalOpen == old(isEditModalOpen) && isLoading == old(isLoading)
      ensures searchTerm == old(searchTerm) && currentPage == old(currentPage)
      ensures expandedClienteId == old(expandedClienteId) && clienteToEdit == old(clienteToEdit)
    {
      var cliente, calls := modal.HandleGuardarCliente(post);
      if post.Success? {
        assert calls[0] == AgregarClienteModal.OnSave(cliente);
        var id, _ := HandleSaveCliente(cliente, put, refetch);
        putId := Some(id);
        isModalOpen := false;
      } else {
        putId := None;
      }
      assert calls[|calls| - 1] == AgregarClienteModal.OnClose;
      isModalOpen := false;
    }
  }

  // ------------------------------------------------------- the vehicle list

  /** `{ ...v, [field]: value }` on a listed vehicle: the same field update
      as on a draft of the new-client modal, with the id carried over; one
      field takes the new value, id and owner stay. */
  function AplicarCambio(v: Vehiculo, c: Cambio): (r: Vehiculo)
    ensures r.id == v.id && r.cliente == v.cliente
    ensures LeerVehiculo(r, c.Campo()) == c.Valor()
    ensures forall f :: f != c.Campo() ==> LeerVehiculo(r, f) == LeerVehiculo(v, f)
  {
    AgregarClienteModal.ConId(AgregarClienteModal.AplicarCambio(AgregarClienteModal.SinId(v), c), v.id)
  }

  /** The edit inputs' map: every vehicle with the id takes the change, the
      others stay; order and length are kept. */
  function CambiarPorId(vs: seq<Vehiculo>, id: int, c: Cambio): (r: seq<Vehiculo>)
    ensures |r| == |vs|
    ensures forall i :: 0 <= i < |vs| ==> r[i].id == vs[i].id
    ensures forall i :: 0 <= i < |vs| && vs[i].id != id ==> r[i] == vs[i]
    ensures forall i :: 0 <= i < |vs| && vs[i].id == id ==> r[i] == AplicarCambio(vs[i], c)
  {
    seq(|vs|, i requires 0 <= i < |vs| => if vs[i].id == id then AplicarCambio(vs[i], c) else vs[i])
  }

  /** The new-vehicle row's draft, built by spreading the previous draft
      (or nothing) and one field: fields never typed are absent. */
  datatype Borrador = Borrador(
    tipo: Option<string>,
    color: Option<string>,
    marca: Option<string>,
    modelo: Option<string>,
    matricula: Option<string>,
    kilometros: Option<int>)

  const BorradorVacio := Borrador(None, None, None, None, None, None)

  function LeerBorrador(b: Borrador, f: CampoVehiculo): Option<Valor>
  {
    match f
    case Tipo => if b.tipo.Some? then Some(Texto(b.tipo.value)) else None
    case Color => if b.color.Some? then Some(Texto(b.color.value)) else None
    case Marca => if b.marca.Some? then Some(Texto(b.marca.value)) else None
    case Modelo => if b.modelo.Some? then Some(Texto(b.modelo.value)) else None
    case Matricula => if b.matricula.Some? then Some(Texto(b.matricula.value)) else None
    case Kilometros => if b.kilometros.Some? then Some(Num(b.kilometros.value)) else None
  }

  /** `{ ...newVehiculo, field: value }`: the field is set, the others are
      as in the previous draft, and all absent when there was none. */
  function CambiarBorrador(draft: Option<Borrador>, c: Cambio): (r: Borrador)
    ensures LeerBorrador(r, c.Campo()) == Some(c.Valor())
    ensures draft.Some? ==> forall f :: f != c.Campo() ==> LeerBorrador(r, f) == LeerBorrador(draft.value, f)
    ensures draft.None? ==> forall f :: f != c.Campo() ==> LeerBorrador(r, f) == None
  {
    var b := if draft.Some? then draft.value else BorradorVacio;
    match c
    case SetTipo(s) => b.(tipo := Some(s))
    case SetColor(s) => b.(color := Some(s))
    case SetMarca(s) => b.(marca := Some(s))
    case SetModelo(s) => b.(modelo := Some(s))
    case SetMatricula(s) => b.(matricula := Some(s))
    case SetKilometros(n) => b.(kilometros := Some(n))
  }

  /** `VehiculosList`: the vehicles of one expanded client. */
  class VehiculosList {
    const clienteId: int
    var vehiculos: seq<Vehiculo>
    var editableVehiculoId: Option<int>
    var newVehiculo: Option<Borrador>

    constructor (cliente: Cliente)
      ensures clienteId == cliente.id && vehiculos == cliente.vehiculos
      ensures editableVehiculoId == None && newVehiculo == None
    {
      clienteId := cliente.id;
      vehiculos := cliente.vehiculos;
      editableVehiculoId := None;
      newVehiculo := None;
    }

    /** `handleEditVehiculo`: that vehicle's row turns into inputs. */
    method HandleEditVehiculo(id: int)
      modifies this
      ensures editableVehiculoId == Some(id)
      ensures vehiculos == old(vehiculos) && newVehiculo == old(newVehiculo)
    {
      editableVehiculoId := Some(id);
    }

    /** Typing into an edited row changes that vehicle locally; nothing is sent. */
    method ChangeEditedField(id: int, c: Cambio)
      modifies this
      ensures vehiculos == CambiarPorId(old(vehiculos), id, c)
      ensures editableVehiculoId == old(editableVehiculoId) && newVehiculo == old(newVehiculo)
    {
      vehiculos := CambiarPorId(vehiculos, id, c);
    }

    /** `handleSaveVehiculo`: the vehicle is put as given; on success every
        vehicle with its id is replaced by it and edit mode ends; on
        failure nothing changes. */
    method HandleSaveVehiculo(vehiculo: Vehiculo, response: Remote<()>) returns (sentId: int, sent: Vehiculo)
      modifies this
      ensures sentId == vehiculo.id && sent == vehiculo
      ensures response.Success? ==>
                vehiculos == Lists.ReplaceById(old(vehiculos), VehiculoKey, vehiculo) && editableVehiculoId == None
      ensures response.Failure? ==>
                vehiculos == old(vehiculos) && editableVehiculoId == old(editableVehiculoId)
      ensures newVehiculo == old(newVehiculo)
    {
      sentId, sent := vehiculo.id, vehiculo;
      if response.Success? {
        vehiculos := Lists.ReplaceById(vehiculos, VehiculoKey, vehiculo);
        editableVehiculoId := None;
      }
    }

    /** `handleCancelEdit`: edit mode ends; the local edits stay. */
    method HandleCancelEdit()
      modifies this
      ensures editableVehiculoId == None
      ensures vehiculos == old(vehiculos) && newVehiculo == old(newVehiculo)
    {
      editableVehiculoId := None;
    }

    /** Typing into the new-vehicle row. */
    method ChangeNewField(c: Cambio)
      modifies this
      ensures newVehiculo == Some(CambiarBorrador(old(newVehiculo), c))
      ensures vehiculos == old(vehiculos) && editableVehiculoId == old(editableVehiculoId)
    {
      newVehiculo := Some(CambiarBorrador(newVehiculo, c));
    }

    /** `handleAddNewVehiculo`: without a draft nothing is posted; with one,
        the draft is posted for this client and, on success, the vehicle the
        server returns is appended and the draft is cleared. */
    method HandleAddNewVehiculo(response: Remote<Vehiculo>) returns (sent: Option<(int, Borrador)>)
      modifies this
      ensures old(newVehiculo).None? ==> sent == None && vehiculos == old(vehiculos) && newVehiculo == None
      ensures old(newVehiculo).Some? ==> sent == Some((clienteId, old(newVehiculo).value))
      ensures old(newVehiculo).Some? && response.Success? ==>
                vehiculos == old(vehiculos) + [response.payload] && newVehiculo == None
      ensures old(newVehiculo).Some? && response.Failure? ==>
                vehiculos == old(vehiculos) && newVehiculo == old(newVehiculo)
      ensures editableVehiculoId == old(editableVehiculoId)
    {
      sent := None;
      if newVehiculo.Some? {
        sent := Some((clienteId, newVehiculo.value));
        if response.Success? {
          vehiculos := vehiculos + [response.payload];
          newVehiculo := None;
        }
      }
    }
  }

  /** A save of the vehicle just edited, with its id unique in the list,
      leaves every other vehicle as it was and stores the edited one. */
  lemma SaveAfterEditKeepsOthers(vs: seq<Vehiculo>, id: int, c: Cambio, saved: Vehiculo)
    requires Lists.UniqueKeys(vs, VehiculoKey)
    requires saved.id == id
    ensures var r := Lists.ReplaceById(CambiarPorId(vs, id, c), VehiculoKey, saved);
            |r| == |vs| && Lists.UniqueKeys(r, VehiculoKey)
            && forall i :: 0 <= i < |vs| ==> (if vs[i].id == id then r[i] == saved else r[i] == vs[i])
  {
    var e := CambiarPorId(vs, id, c);
    var r := Lists.ReplaceById(e, VehiculoKey, saved);
    forall i, j | 0 <= i < |r| && 0 <= j < |r| && VehiculoKey(r[i]) == VehiculoKey(r[j])
      ensures i == j
    {
      assert VehiculoKey(vs[i]) == VehiculoKey(vs[j]);
    }
  }
}
