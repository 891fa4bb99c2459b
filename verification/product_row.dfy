/** One row of the products table: a read-only view with a low-stock badge,
    and an edit mode whose form declares validation rules and whose save
    merges the form into the product before handing it to the page. */
module ProductRow {
  import opened Common
  import opened Types
  import AddProductModal

  /** The edit form's values: text inputs as strings, number inputs as an
      integer or None when left empty. */
  datatype EditForm = EditForm(
    nombre: string,
    descripcion: string,
    precio_compra: Option<int>,
    precio_venta: Option<int>,
    stock: Option<int>)

  datatype Campo = Nombre | Descripcion | PrecioCompra | PrecioVenta | Stock

  /** A number input's message: `required` first, then `min: 1`. */
  function MinimoUno(v: Option<int>, requerido: string, minimo: string): Option<string>
  {
    if v.None? then Some(requerido) else if v.value < 1 then Some(minimo) else None
  }

  /** The message a field shows, or None when its rules hold. */
  function Error(f: EditForm, c: Campo): Option<string>
  {
    match c
    case Nombre =>
      if f.nombre == "" then Some("El nombre es obligatorio.")
      else if |f.nombre| > 30 then Some("El nombre no puede superar los 30 caracteres.")
      else None
    case Descripcion =>
      if f.descripcion == "" then Some("La descripción es obligatoria")
      else if |f.descripcion| > 100 then Some("La descripción no puede superar los 100 caracteres.")
      else None
    case PrecioCompra =>
      MinimoUno(f.precio_compra, "Precio de compra es obligatorio.", "El precio de compra debe ser mayor a 0")
    case PrecioVenta =>
      MinimoUno(f.precio_venta, "Precio de venta es obligatorio.", "Precio de venta debe ser mayor a 0.")
    case Stock =>
      MinimoUno(f.stock, "Stock es obligatorio.", "El stock debe ser mayor a 0")
  }

  /** The declared rules: a name of 1 to 30 characters, a description of 1
      to 100, and both prices and the stock present and at least 1. */
  predicate Valido(f: EditForm)
  {
    && 0 < |f.nombre| <= 30
    && 0 < |f.descripcion| <= 100
    && f.precio_compra.Some? && f.precio_compra.value >= 1
    && f.precio_venta.Some? && f.precio_venta.value >= 1
    && f.stock.Some? && f.stock.value >= 1
  }

  /** A form is valid exactly when no field shows an error. */
  lemma ValidoSinErrores(f: EditForm)
    ensures Valido(f) <==> forall c :: Error(f, c).None?
  {
    if forall c :: Error(f, c).None? {
      assert Error(f, Nombre).None? && Error(f, Descripcion).None?;
      assert Error(f, PrecioCompra).None? && Error(f, PrecioVenta).None?;
      assert Error(f, Stock).None?;
    }
  }

  /** The edit rules are stricter than the add-product rules: every product
      the row accepts the modal would accept, but not the other way round
      (the modal takes a stock or purchase price of 0). */
  lemma EdicionMasEstrictaQueAlta(f: EditForm)
    ensures Valido(f) ==> AddProductModal.Valido(AddProductModal.AddProductForm(
              f.nombre, f.descripcion, f.precio_compra, f.precio_venta, f.stock))
    ensures var sinStock := AddProductModal.AddProductForm("a", "b", Some(0), Some(1), Some(0));
            AddProductModal.Valido(sinStock)
            && !Valido(EditForm("a", "b", Some(0), Some(1), Some(0)))
  {
  }

  /** The form's default values, taken from the product when the row mounts. */
  function Defaults(p: ProductoType): EditForm
  {
    EditForm(p.nombre, p.descripcion, Some(p.precioCompra), Some(p.precioVenta), Some(p.stock))
  }

  /** The product a valid save builds: `editedProduct` with its five edited
      fields taken from the form; id and order stay. */
  function Fusionar(edited: ProductoType, data: EditForm): (r: ProductoType)
    requires Valido(data)
    ensures r.id == edited.id && r.orden_id == edited.orden_id
    ensures r.nombre == data.nombre && r.descripcion == data.descripcion
    ensures r.precioCompra == data.precio_compra.value && r.precioVenta == data.precio_venta.value
    ensures r.stock == data.stock.value
  {
    edited.(nombre := data.nombre, descripcion := data.descripcion, stock := data.stock.value,
            precioCompra := data.precio_compra.value, precioVenta := data.precio_venta.value)
  }

  /** Merging a product's own defaults back into it changes nothing. */
  lemma FusionarDefaults(p: ProductoType)
    requires Valido(Defaults(p))
    ensures Fusionar(p, Defaults(p)) == p
  {
  }

  /** The badge colour test: stock at or below the threshold is low. */
  predicate StockBajo(stock: int, threshold: int)
  {
    stock <= threshold
  }

  class Row {
    /** The `product` prop: the page's entry with this row's id, passed
        again on every render of the page. */
    var product: ProductoType
    const lowStockThreshold: int
    /** `useForm`'s default values, fixed when the row mounts. */
    const defaultValues: EditForm
    var isEditing: bool
    var editedProduct: ProductoType
    var form: EditForm

    constructor (product: ProductoType, lowStockThreshold: int)
      ensures this.product == product && this.lowStockThreshold == lowStockThreshold
      ensures defaultValues == Defaults(product) && form == defaultValues
      ensures !isEditing && editedProduct == product
    {
      this.product := product;
      this.lowStockThreshold := lowStockThreshold;
      defaultValues := Defaults(product);
      form := Defaults(product);
      isEditing := false;
      editedProduct := product;
    }

    /** The badge of the read-only row. */
    function StockLow(): (r: bool)
      reads this
      ensures r <==> product.stock <= lowStockThreshold
    {
      StockBajo(product.stock, lowStockThreshold)
    }

    /** The pencil button. */
    method Edit()
      modifies this
      ensures isEditing && editedProduct == old(editedProduct) && form == old(form)
      ensures product == old(product)
    {
      isEditing := true;
    }

    /** Typing into the edit inputs. */
    method Input(values: EditForm)
      requires isEditing
      modifies this
      ensures form == values && isEditing && editedProduct == old(editedProduct)
      ensures product == old(product)
    {
      form := values;
    }

    /** The check button: a valid form builds the merged product, stores it
        as `editedProduct`, hands it to `onUpdate` once (the result) and
        leaves edit mode; an invalid form changes nothing and calls nothing. */
    method Save() returns (update: Option<ProductoType>)
      requires isEditing
      modifies this
      ensures Valido(form) ==> update == Some(Fusionar(old(editedProduct), form))
      ensures Valido(form) ==> editedProduct == update.value && !isEditing
      ensures !Valido(form) ==> update == None && isEditing && editedProduct == old(editedProduct)
      ensures form == old(form) && product == old(product)
    {
      if Valido(form) {
        var updated := Fusionar(editedProduct, form);
        editedProduct := updated;
        update := Some(updated);
        isEditing := false;
      } else {
        update := None;
      }
    }

    /** The cross button: `reset()` restores the mount-time default values
        (not the last saved ones) and edit mode ends; `onUpdate` is not called. */
    method Cancel()
      modifies this
      ensures form == defaultValues && !isEditing && editedProduct == old(editedProduct)
      ensures product == old(product)
    {
      form := defaultValues;
      isEditing := false;
    }

    /** The page renders the row again with a new `product` prop. The
        row's own state (`editedProduct`, edit mode, and the form with its
        mount-time defaults) is kept; the read-only cells and the badge
        read the new prop. */
    method Rerender(p: ProductoType)
      modifies this
      ensures product == p
      ensures isEditing == old(isEditing) && editedProduct == old(editedProduct) && form == old(form)
    {
      product := p;
    }

    /** The bin button hands exactly the product's id to `onDelete`. */
    method DeleteClicked() returns (id: int)
      ensures id == product.id
    {
      id := product.id;
    }
  }
}
