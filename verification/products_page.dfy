/** The older products page: a list of products with string ids, searched
    by name or description, with a confirm-gated delete. */
module ProductsPage {
  import opened Common
  import opened Types
  import Lists

  /** The search test: the name or the description contains the term,
      ignoring case. */
  function CoincideProducto(term: string): Product -> bool
  {
    (p: Product) => MatchesIgnoringCase(p.name, term) || MatchesIgnoringCase(p.description, term)
  }

  /** `filteredProducts`, in list order. */
  function FilteredProducts(ps: seq<Product>, term: string): (r: seq<Product>)
    ensures |r| <= |ps|
    ensures forall i :: 0 <= i < |r| ==>
              r[i] in ps && (MatchesIgnoringCase(r[i].name, term) || MatchesIgnoringCase(r[i].description, term))
    ensures forall i :: 0 <= i < |ps| && (MatchesIgnoringCase(ps[i].name, term) || MatchesIgnoringCase(ps[i].description, term)) ==>
              ps[i] in r
  {
    Lists.Filter(ps, CoincideProducto(term))
  }

  /** An empty search box lists every product. */
  lemma EmptySearchListsAll(ps: seq<Product>)
    ensures FilteredProducts(ps, "") == ps
  {
    forall i | 0 <= i < |ps| ensures CoincideProducto("")(ps[i]) {
      EmptyTermMatches(ps[i].name);
    }
    Lists.FilterKeepsAll(ps, CoincideProducto(""));
  }

  class Products {
    var products: seq<Product>
    var isLoading: bool
    var searchTerm: string

    constructor ()
      ensures products == [] && isLoading && searchTerm == ""
    {
      products, isLoading, searchTerm := [], true, "";
    }

    /** `fetchProducts`: the server's list on success, the old one on
        failure; loading ends either way. */
    method FetchProducts(response: Remote<seq<Product>>)
      modifies this
      ensures response.Success? ==> products == response.payload
      ensures response.Failure? ==> products == old(products)
      ensures !isLoading && searchTerm == old(searchTerm)
    {
      if response.Success? {
        products := response.payload;
      }
      isLoading := false;
    }

    method SetSearchTerm(term: string)
      modifies this
      ensures searchTerm == term && products == old(products) && isLoading == old(isLoading)
    {
      searchTerm := term;
    }

    /** `handleDelete`: nothing is requested unless the user confirms; a
        confirmed, successful delete drops every product with that string
        id; a failed one changes nothing. */
    method HandleDelete(id: string, confirmed: bool, response: Remote<()>) returns (requested: bool)
      modifies this
      ensures requested == confirmed
      ensures confirmed && response.Success? ==> products == Lists.RemoveById(old(products), ProductKey, id)
      ensures !(confirmed && response.Success?) ==> products == old(products)
      ensures isLoading == old(isLoading) && searchTerm == old(searchTerm)
    {
      requested := confirmed;
      if confirmed && response.Success? {
        products := Lists.RemoveById(products, ProductKey, id);
      }
    }
  }
}
