/** The products page: the inventory list, the low-stock banner, the search
    box, the paginated table of product rows and the add-product form. */
module ProductosPage {
  import opened Common
  import opened Types
  import Lists
  import ProductRow
  import AddProductModal

  /** `MINIMO_STOCK`: stock at or below it is low. */
  const MinimoStock := 3
  /** Rows per page of the table. */
  const PorPagina: nat := 6

  predicate BajoStock(p: ProductoType)
  {
    p.stock <= MinimoStock
  }

  /** The products the low-stock banner counts, in list order. */
  function LowStockProducts(ps: seq<ProductoType>): (r: seq<ProductoType>)
    ensures forall i :: 0 <= i < |r| ==> r[i] in ps && r[i].stock <= MinimoStock
    ensures forall i :: 0 <= i < |ps| && ps[i].stock <= MinimoStock ==> ps[i] in r
  {
    Lists.Filter(ps, BajoStock)
  }

  /** The banner and the row badges agree: a product is counted by the
      banner exactly when its row, given the page's threshold, shows the
      low-stock colour. */
  lemma BannerMatchesBadges(ps: seq<ProductoType>, i: int)
    requires 0 <= i < |ps|
    ensures ps[i] in LowStockProducts(ps) <==> ProductRow.StockBajo(ps[i].stock, MinimoStock)
  {
    if ps[i] in LowStockProducts(ps) {
      var r := LowStockProducts(ps);
      var j :| 0 <= j < |r| && r[j] == ps[i];
    }
  }

  /** The search test: the product's name contains the term, ignoring case. */
  function CoincideNombre(term: string): ProductoType -> bool
  {
    (p: ProductoType) => MatchesIgnoringCase(p.nombre, term)
  }

  /** `filteredProducts`: the products whose name contains the search term
      (ignoring case), in list order. */
  function FilteredProducts(ps: seq<ProductoType>, term: string): (r: seq<ProductoType>)
    ensures |r| <= |ps|
    ensures forall i :: 0 <= i < |r| ==> r[i] in ps && MatchesIgnoringCase(r[i].nombre, term)
    ensures forall i :: 0 <= i < |ps| && MatchesIgnoringCase(ps[i].nombre, term) ==> ps[i] in r
  {
    Lists.Filter(ps, CoincideNombre(term))
  }

  /** An empty search box lists every product. */
  lemma EmptySearchListsAll(ps: seq<ProductoType>)
    ensures FilteredProducts(ps, "") == ps
  {
    forall i | 0 <= i < |ps| ensures CoincideNombre("")(ps[i]) {
      EmptyTermMatches(ps[i].nombre);
    }
    Lists.FilterKeepsAll(ps, CoincideNombre(""));
  }

  /** The search keeps list order: searching a list made of two parts is
      searching each part. */
  lemma SearchKeepsOrder(a: seq<ProductoType>, b: seq<ProductoType>, term: string)
    ensures FilteredProducts(a + b, term) == FilteredProducts(a, term) + FilteredProducts(b, term)
  {
    Lists.FilterConcat(a, b, CoincideNombre(term));
  }

  /** Searching again with the same term changes nothing. */
  lemma SearchIdempotent(ps: seq<ProductoType>, term: string)
    ensures FilteredProducts(FilteredProducts(ps, term), term) == FilteredProducts(ps, term)
  {
    Lists.FilterIdempotent(ps, CoincideNombre(term));
  }

  /** Reading every page of the search result in turn gives back the whole
      result, and a page beyond the last is empty. */
  lemma PagesCoverSearch(ps: seq<ProductoType>, term: string, page: int)
    ensures var f := FilteredProducts(ps, term);
            Lists.PagesUpTo(f, PorPagina, Lists.TotalPages(|f|, PorPagina)) == f
    ensures var f := FilteredProducts(ps, term);
            page > Lists.TotalPages(|f|, PorPagina) ==> Lists.Page(f, page, PorPagina) == []
  {
    var f := FilteredProducts(ps, term);
    Lists.PagesPartition(f, PorPagina);
    if page > Lists.TotalPages(|f|, PorPagina) {
      Lists.PagePastEnd(f, page, PorPagina);
    }
  }

  class Productos {
    var products: seq<ProductoType>
    var isLoading: bool
    var searchTerm: string
    var showAddForm: bool
    var currentPage: int

    constructor ()
      ensures products == [] && isLoading && searchTerm == ""
      ensures !showAddForm && currentPage == 1
    {
      products := [];
      isLoading := true;
      searchTerm := "";
      showAddForm := false;
      currentPage := 1;
    }

    function Filtered(): seq<ProductoType>
      reads this
    {
      FilteredProducts(products, searchTerm)
    }

    /** `totalPages`: the ceiling of the result count over six. */
    function TotalPages(): (n: nat)
      reads this
      ensures n * PorPagina >= |Filtered()|
      ensures n == 0 || (n - 1) * PorPagina < |Filtered()|
    {
      Lists.TotalPagesIsCeiling(|Filtered()|, PorPagina);
      Lists.TotalPages(|Filtered()|, PorPagina)
    }

    /** `currentProductos`: the rows of the current page. */
    function CurrentProductos(): (r: seq<ProductoType>)
      reads this
      ensures |r| <= PorPagina
      ensures currentPage >= 1 ==>
                r == Filtered()[Lists.Min((currentPage - 1) * PorPagina, |Filtered()|)..
                                Lists.Min(currentPage * PorPagina, |Filtered()|)]
    {
      if currentPage >= 1 then
        Lists.PageWindow(Filtered(), currentPage, PorPagina);
        Lists.Page(Filtered(), currentPage, PorPagina)
      else
        Lists.Page(Filtered(), currentPage, PorPagina)
    }

    /** `fetchProducts`: the list becomes the server's on success and stays
        as it was on failure; loading ends either way. */
    method FetchProducts(response: Remote<seq<ProductoType>>)
      modifies this
      ensures response.Success? ==> products == response.payload
      ensures response.Failure? ==> products == old(products)
      ensures !isLoading
      ensures searchTerm == old(searchTerm) && showAddForm == old(showAddForm)
      ensures currentPage == old(currentPage)
    {
      if response.Success? {
        products := response.payload;
      }
      isLoading := false;
    }

    /** `handleAdd`: the new product is posted as given; on success the
        stored record the server returns is appended and the form hides. */
    method HandleAdd(product: NuevoProducto, response: Remote<ProductoType>) returns (sent: NuevoProducto)
      modifies this
      ensures sent == product
      ensures response.Success? ==> products == old(products) + [response.payload] && !showAddForm
      ensures response.Failure? ==> products == old(products) && showAddForm == old(showAddForm)
      ensures isLoading == old(isLoading) && searchTerm == old(searchTerm)
      ensures currentPage == old(currentPage)
    {
      sent := product;
      if response.Success? {
        products := products + [response.payload];
        showAddForm := false;
      }
    }

    /** `handleUpdate`: the product is put as given; on success every row
        with its id is replaced by it (not by what the server returns). */
    method HandleUpdate(updated: ProductoType, response: Remote<()>) returns (sentId: int, sent: ProductoType)
      modifies this
      ensures sentId == updated.id && sent == updated
      ensures response.Success? ==> products == Lists.ReplaceById(old(products), ProductoKey, updated)
      ensures response.Failure? ==> products == old(products)
      ensures isLoading == old(isLoading) && searchTerm == old(searchTerm)
      ensures showAddForm == old(showAddForm) && currentPage == old(currentPage)
    {
      sentId, sent := updated.id, updated;
      if response.Success? {
        products := Lists.ReplaceById(products, ProductoKey, updated);
      }
    }

    /** `handleDelete`: nothing is requested unless the user confirms; on a
        confirmed, successful delete the rows with that id go. */
    method HandleDelete(id: int, confirmed: bool, response: Remote<()>) returns (requested: bool)
      modifies this
      ensures requested == confirmed
      ensures confirmed && response.Success? ==> products == Lists.RemoveById(old(products), ProductoKey, id)
      ensures !(confirmed && response.Success?) ==> products == old(products)
      ensures isLoading == old(isLoading) && searchTerm == old(searchTerm)
      ensures showAddForm == old(showAddForm) && currentPage == old(currentPage)
    {
      requested := confirmed;
      if confirmed && response.Success? {
        products := Lists.RemoveById(products, ProductoKey, id);
      }
    }

    /** Typing in the search box goes back to the first page. */
    method SetSearchTerm(term: string)
      modifies this
      ensures searchTerm == term && currentPage == 1
      ensures products == old(products) && isLoading == old(isLoading) && showAddForm == old(showAddForm)
    {
      currentPage := 1;
      searchTerm := term;
    }

    /** A numbered page button. */
    method Paginate(page: int)
      modifies this
      ensures currentPage == page
      ensures products == old(products) && searchTerm == old(searchTerm)
      ensures isLoading == old(isLoading) && showAddForm == old(showAddForm)
    {
      currentPage := page;
    }

    /** The back arrow, disabled on page 1. */
    method PreviousPage()
      modifies this
      ensures old(currentPage) == 1 ==> currentPage == 1
      ensures old(currentPage) != 1 ==> currentPage == old(currentPage) - 1
      ensures 1 <= old(currentPage) <= old(TotalPages()) ==> 1 <= currentPage <= TotalPages()
      ensures products == old(products) && searchTerm == old(searchTerm)
      ensures isLoading == old(isLoading) && showAddForm == old(showAddForm)
    {
      if currentPage != 1 {
        Paginate(currentPage - 1);
      }
    }

    /** The forward arrow, disabled on the last page. */
    method NextPage()
      modifies this
      ensures old(currentPage) == old(TotalPages()) ==> currentPage == old(currentPage)
      ensures old(currentPage) != old(TotalPages()) ==> currentPage == old(currentPage) + 1
      ensures 1 <= old(currentPage) <= old(TotalPages()) ==> 1 <= currentPage <= TotalPages()
      ensures products == old(products) && searchTerm == old(searchTerm)
      ensures isLoading == old(isLoading) && showAddForm == old(showAddForm)
    {
      if currentPage != TotalPages() {
        Paginate(currentPage + 1);
      }
    }

    /** The "Agregar producto" button shows or hides the form. */
    method ToggleAddForm()
      modifies this
      ensures showAddForm == !old(showAddForm)
      ensures products == old(products) && searchTerm == old(searchTerm)
      ensures isLoading == old(isLoading) && currentPage == old(currentPage)
    {
      showAddForm := !showAddForm;
    }

    /** The form's `onClose`. */
    method CloseAddForm()
      modifies this
      ensures !showAddForm
      ensures products == old(products) && searchTerm == old(searchTerm)
      ensures isLoading == old(isLoading) && currentPage == old(currentPage)
    {
      showAddForm := false;
    }

    /** Submitting the add-product form shown on this page: a valid form
        posts its data (`onSave` is `handleAdd`) and then closes itself
        without waiting, so the form hides even when the post fails; an
        invalid form changes nothing. */
    method SubmitAddForm(form: AddProductModal.AddProductForm, response: Remote<ProductoType>)
      returns (sent: Option<NuevoProducto>)
      requires showAddForm
      modifies this
      ensures AddProductModal.Valido(form) ==> sent == Some(AddProductModal.Datos(form)) && !showAddForm
      ensures AddProductModal.Valido(form) && response.Success? ==> products == old(products) + [response.payload]
      ensures !(AddProductModal.Valido(form) && response.Success?) ==> products == old(products)
      ensures !AddProductModal.Valido(form) ==> sent == None && showAddForm
      ensures isLoading == old(isLoading) && searchTerm == old(searchTerm)
      ensures currentPage == old(currentPage)
    {
      var calls := AddProductModal.OnSubmit(form);
      if AddProductModal.Valido(form) {
        assert calls == [AddProductModal.OnSave(AddProductModal.Datos(form)), AddProductModal.OnClose];
        var s := HandleAdd(AddProductModal.Datos(form), response);
        sent := Some(s);
        CloseAddForm();
      } else {
        assert calls == [];
        sent := None;
      }
    }

    /** The save of one product row on this page: a valid edit merges the
        form into the row's `editedProduct`, leaves edit mode and puts the
        merged product; on success it replaces the entries with its id, and
        the row is rendered again with it as its `product`. A `Row` object
        stands for the row component only while it is mounted: when the
        merged product no longer matches the search term, or falls on
        another page, the component unmounts and its edit state is lost,
        which this method does not model. */
    method SaveRow(row: ProductRow.Row, response: Remote<()>)
      requires row.isEditing
      modifies this, row
      ensures ProductRow.Valido(old(row.form)) ==>
                row.editedProduct == ProductRow.Fusionar(old(row.editedProduct), old(row.form)) && !row.isEditing
      ensures ProductRow.Valido(old(row.form)) && response.Success? ==>
                var merged := ProductRow.Fusionar(old(row.editedProduct), old(row.form));
                products == Lists.ReplaceById(old(products), ProductoKey, merged) && row.product == merged
      ensures !(ProductRow.Valido(old(row.form)) && response.Success?) ==>
                products == old(products) && row.product == old(row.product)
      ensures !ProductRow.Valido(old(row.form)) ==> row.isEditing && row.editedProduct == old(row.editedProduct)
      ensures row.form == old(row.form)
      ensures isLoading == old(isLoading) && showAddForm == old(showAddForm)
      ensures searchTerm == old(searchTerm) && currentPage == old(currentPage)
    {
      var update := row.Save();
      if update.Some? {
        var _, _ := HandleUpdate(update.value, response);
        if response.Success? {
          row.Rerender(update.value);
        }
      }
    }
  }
}
