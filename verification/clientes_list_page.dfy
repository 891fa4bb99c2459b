/** The older clients page: a list of clients searched by name, with a
    confirm-gated delete. */
module ClientesListPage {
  import opened Common
  import opened Types
  import Lists

  /** The search test: the name contains the term, ignoring case. */
  function CoincideNombre(term: string): Cliente -> bool
  {
    (c: Cliente) => MatchesIgnoringCase(c.nombre, term)
  }

  /** `filteredClientes`, in list order. */
  function FilteredClientes(cs: seq<Cliente>, term: string): (r: seq<Cliente>)
    ensures |r| <= |cs|
    ensures forall i :: 0 <= i < |r| ==> r[i] in cs && MatchesIgnoringCase(r[i].nombre, term)
    ensures forall i :: 0 <= i < |cs| && MatchesIgnoringCase(cs[i].nombre, term) ==> cs[i] in r
  {
    Lists.Filter(cs, CoincideNombre(term))
  }

  /** An empty search box lists every client. */
  lemma EmptySearchListsAll(cs: seq<Cliente>)
    ensures FilteredClientes(cs, "") == cs
  {
    forall i | 0 <= i < |cs| ensures CoincideNombre("")(cs[i]) {
      EmptyTermMatches(cs[i].nombre);
    }
    Lists.FilterKeepsAll(cs, CoincideNombre(""));
  }

  /** Searching keeps list order: a list made of two parts is searched
      part by part. */
  lemma SearchKeepsOrder(a: seq<Cliente>, b: seq<Cliente>, term: string)
    ensures FilteredClientes(a + b, term) == FilteredClientes(a, term) + FilteredClientes(b, term)
  {
    Lists.FilterConcat(a, b, CoincideNombre(term));
  }

  class Clientes {
    var clientes: seq<Cliente>
    var isLoading: bool
    var searchTerm: string

    constructor ()
      ensures clientes == [] && isLoading && searchTerm == ""
    {
      clientes, isLoading, searchTerm := [], true, "";
    }

    /** `fetchClientes`: the server's list on success, the old one on
        failure; loading ends either way. */
    method FetchClientes(response: Remote<seq<Cliente>>)
      modifies this
      ensures response.Success? ==> clientes == response.payload
      ensures response.Failure? ==> clientes == old(clientes)
      ensures !isLoading && searchTerm == old(searchTerm)
    {
      if response.Success? {
        clientes := response.payload;
      }
      isLoading := false;
    }

    method SetSearchTerm(term: string)
      modifies this
      ensures searchTerm == term && clientes == old(clientes) && isLoading == old(isLoading)
    {
      searchTerm := term;
    }

    /** `handleDelete`: nothing is requested unless the user confirms; a
        confirmed, successful delete drops every client with that id; a
        failed one changes nothing. */
    method HandleDelete(id: int, confirmed: bool, response: Remote<()>) returns (requested: bool)
      modifies this
      ensures requested == confirmed
      ensures confirmed && response.Success? ==> clientes == Lists.RemoveById(old(clientes), ClienteKey, id)
      ensures !(confirmed && response.Success?) ==> clientes == old(clientes)
      ensures isLoading == old(isLoading) && searchTerm == old(searchTerm)
    {
      requested := confirmed;
      if confirmed && response.Success? {
        clientes := Lists.RemoveById(clientes, ClienteKey, id);
      }
    }
  }
}
