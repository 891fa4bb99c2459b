/** The orders page: a list of budgets with string ids, searched by title
    or category, with a confirm-gated delete and a colour per status. */
module OrdenesPage {
  import opened Common
  import opened Types
  import Lists

  /** The search test: the title or the category contains the term,
      ignoring case. */
  function CoincideOrden(term: string): Budget -> bool
  {
    (b: Budget) => MatchesIgnoringCase(b.title, term) || MatchesIgnoringCase(b.category, term)
  }

  /** `filteredBudgets`, in list order. */
  function FilteredBudgets(bs: seq<Budget>, term: string): (r: seq<Budget>)
    ensures |r| <= |bs|
    ensures forall i :: 0 <= i < |r| ==>
              r[i] in bs && (MatchesIgnoringCase(r[i].title, term) || MatchesIgnoringCase(r[i].category, term))
    ensures forall i :: 0 <= i < |bs| && (MatchesIgnoringCase(bs[i].title, term) || MatchesIgnoringCase(bs[i].category, term)) ==>
              bs[i] in r
  {
    Lists.Filter(bs, CoincideOrden(term))
  }

  /** An empty search box lists every budget. */
  lemma EmptySearchListsAll(bs: seq<Budget>)
    ensures FilteredBudgets(bs, "") == bs
  {
    forall i | 0 <= i < |bs| ensures CoincideOrden("")(bs[i]) {
      EmptyTermMatches(bs[i].title);
    }
    Lists.FilterKeepsAll(bs, CoincideOrden(""));
  }

  /** The badge colour of a status. */
  datatype Color = Verde | Azul | Gris

  /** `getStatusColor`: "active" is green, "completed" blue, and "draft"
      or any other status gray. */
  function StatusColor(status: string): (r: Color)
    ensures r == Verde <==> status == "active"
    ensures r == Azul <==> status == "completed"
    ensures r == Gris <==> status != "active" && status != "completed"
  {
    match status
    case "active" => Verde
    case "completed" => Azul
    case "draft" => Gris
    case _ => Gris
  }

  class BudgetList {
    var budgets: seq<Budget>
    var isLoading: bool
    var searchTerm: string

    constructor ()
      ensures budgets == [] && isLoading && searchTerm == ""
    {
      budgets, isLoading, searchTerm := [], true, "";
    }

    /** `fetchBudgets`: the server's list on success, the old one on
        failure; loading ends either way. */
    method FetchBudgets(response: Remote<seq<Budget>>)
      modifies this
      ensures response.Success? ==> budgets == response.payload
      ensures response.Failure? ==> budgets == old(budgets)
      ensures !isLoading && searchTerm == old(searchTerm)
    {
      if response.Success? {
        budgets := response.payload;
      }
      isLoading := false;
    }

    method SetSearchTerm(term: string)
      modifies this
      ensures searchTerm == term && budgets == old(budgets) && isLoading == old(isLoading)
    {
      searchTerm := term;
    }

    /** `handleDelete`: nothing is requested unless the user confirms; a
        confirmed, successful delete drops every budget with that id; a
        failed one changes nothing. */
    method HandleDelete(id: string, confirmed: bool, response: Remote<()>) returns (requested: bool)
      modifies this
      ensures requested == confirmed
      ensures confirmed && response.Success? ==> budgets == Lists.RemoveById(old(budgets), BudgetKey, id)
      ensures !(confirmed && response.Success?) ==> budgets == old(budgets)
      ensures isLoading == old(isLoading) && searchTerm == old(searchTerm)
    {
      requested := confirmed;
      if confirmed && response.Success? {
        budgets := Lists.RemoveById(budgets, BudgetKey, id);
      }
    }
  }
}
