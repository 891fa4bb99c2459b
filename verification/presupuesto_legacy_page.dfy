/** The older budgets page: a list of budgets with nested client and
    vehicle, searched by status, with a confirm-gated delete. */
module PresupuestoLegacyPage {
  import opened Common
  import opened Types
  import Lists

  /** The search test: the status contains the term, ignoring case. */
  function CoincideEstado(term: string): Presupuesto -> bool
  {
    (p: Presupuesto) => MatchesIgnoringCase(p.estado, term)
  }

  /** `filteredPresupuestos`, in list order. */
  function FilteredPresupuestos(ps: seq<Presupuesto>, term: string): (r: seq<Presupuesto>)
    ensures |r| <= |ps|
    ensures forall i :: 0 <= i < |r| ==> r[i] in ps && MatchesIgnoringCase(r[i].estado, term)
    ensures forall i :: 0 <= i < |ps| && MatchesIgnoringCase(ps[i].estado, term) ==> ps[i] in r
  {
    Lists.Filter(ps, CoincideEstado(term))
  }

  /** An empty search box lists every budget. */
  lemma EmptySearchListsAll(ps: seq<Presupuesto>)
    ensures FilteredPresupuestos(ps, "") == ps
  {
    forall i | 0 <= i < |ps| ensures CoincideEstado("")(ps[i]) {
      EmptyTermMatches(ps[i].estado);
    }
    Lists.FilterKeepsAll(ps, CoincideEstado(""));
  }

  /** The search ignores the letter case of the term. */
  lemma SearchIgnoresTermCase(ps: seq<Presupuesto>, term: string)
    ensures FilteredPresupuestos(ps, Lower(term)) == FilteredPresupuestos(ps, term)
  {
    forall i | 0 <= i < |ps| ensures CoincideEstado(Lower(term))(ps[i]) == CoincideEstado(term)(ps[i]) {
      MatchIgnoresCase(ps[i].estado, term);
    }
    Lists.FilterSameTest(ps, CoincideEstado(Lower(term)), CoincideEstado(term));
  }

  const SinCliente := "Sin cliente"

  /** The client cell: the nested client's name whenever there is a client
      (even an empty name), and "Sin cliente" only when there is none. */
  function ClienteCelda(p: Presupuesto): (r: string)
    ensures p.cliente.None? ==> r == SinCliente
    ensures p.cliente.Some? ==> r == p.cliente.value.nombre
  {
    if p.cliente.Some? then p.cliente.value.nombre else SinCliente
  }

  /** The fallback shows only for a missing client: a client with an empty
      name leaves the cell empty. */
  lemma ClienteCeldaVacia(p: Presupuesto)
    ensures ClienteCelda(p) == "" <==> p.cliente.Some? && p.cliente.value.nombre == ""
  {
  }

  class PresupuestoPage {
    var presupuestos: seq<Presupuesto>
    var isLoading: bool
    var searchTerm: string

    constructor ()
      ensures presupuestos == [] && isLoading && searchTerm == ""
    {
      presupuestos, isLoading, searchTerm := [], true, "";
    }

    /** `fetchPresupuestos`: the server's list on success, the old one on
        failure; loading ends either way. */
    method FetchPresupuestos(response: Remote<seq<Presupuesto>>)
      modifies this
      ensures response.Success? ==> presupuestos == response.payload
      ensures response.Failure? ==> presupuestos == old(presupuestos)
      ensures !isLoading && searchTerm == old(searchTerm)
    {
      if response.Success? {
        presupuestos := response.payload;
      }
      isLoading := false;
    }

    method SetSearchTerm(term: string)
      modifies this
      ensures searchTerm == term && presupuestos == old(presupuestos) && isLoading == old(isLoading)
    {
      searchTerm := term;
    }

    /** `handleDelete`: nothing is requested unless the user confirms; a
        confirmed, successful delete drops every budget with that id; a
        failed one changes nothing. */
    method HandleDelete(id: int, confirmed: bool, response: Remote<()>) returns (requested: bool)
      modifies this
      ensures requested == confirmed
      ensures confirmed && response.Success? ==>
                presupuestos == Lists.RemoveById(old(presupuestos), LegacyPresupuestoKey, id)
      ensures !(confirmed && response.Success?) ==> presupuestos == old(presupuestos)
      ensures isLoading == old(isLoading) && searchTerm == old(searchTerm)
    {
      requested := confirmed;
      if confirmed && response.Success? {
        presupuestos := Lists.RemoveById(presupuestos, LegacyPresupuestoKey, id);
      }
    }
  }
}
