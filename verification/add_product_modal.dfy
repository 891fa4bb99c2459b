/** The add-product modal: the rules its form declares for a new product,
    and the submit that hands the data to `onSave` and then calls `onClose`. */
module AddProductModal {
  import opened Common
  import opened Types

  /** The form's values: text inputs as strings, number inputs as an
      integer or None when left empty. */
  datatype AddProductForm = AddProductForm(
    nombre: string,
    descripcion: string,
    precioCompra: Option<int>,
    precioVenta: Option<int>,
    stock: Option<int>)

  datatype Campo = Nombre | Descripcion | PrecioCompra | PrecioVenta | Stock

  /** The message a field shows, or None when its rules hold. The
      `required` rule is checked before `min`. */
  function Error(f: AddProductForm, c: Campo): Option<string>
  {
    match c
    case Nombre => if f.nombre == "" then Some("El nombre es obligatorio") else None
    case Descripcion => if f.descripcion == "" then Some("La descripción es obligatoria") else None
    case PrecioCompra =>
      if f.precioCompra.None? then Some("El precio de compra es obligatorio")
      else if f.precioCompra.value < 0 then Some("El precio de compra no puede ser negativo")
      else None
    case PrecioVenta =>
      if f.precioVenta.None? then Some("El precio de venta es obligatorio")
      else if f.precioVenta.value < 1 then Some("El precio de venta debe ser mayor a 0")
      else None
    case Stock =>
      if f.stock.None? then Some("El stock es obligatorio")
      else if f.stock.value < 0 then Some("El stock no puede ser negativo")
      else None
  }

  /** The declared rules: name and description required; purchase price
      present and at least 0; sale price present and at least 1; stock
      present and at least 0. */
  predicate Valido(f: AddProductForm)
  {
    && f.nombre != ""
    && f.descripcion != ""
    && f.precioCompra.Some? && f.precioCompra.value >= 0
    && f.precioVenta.Some? && f.precioVenta.value >= 1
    && f.stock.Some? && f.stock.value >= 0
  }

  /** A form is valid exactly when no field shows an error. */
  lemma ValidoSinErrores(f: AddProductForm)
    ensures Valido(f) <==> forall c :: Error(f, c).None?
  {
    if forall c :: Error(f, c).None? {
      assert Error(f, Nombre).None? && Error(f, Descripcion).None?;
      assert Error(f, PrecioCompra).None? && Error(f, PrecioVenta).None?;
      assert Error(f, Stock).None?;
    }
  }

  /** The data a valid form submits. */
  function Datos(f: AddProductForm): (d: NuevoProducto)
    requires Valido(f)
    ensures d.nombre == f.nombre && d.descripcion == f.descripcion
    ensures d.precioCompra == f.precioCompra.value && d.precioVenta == f.precioVenta.value
    ensures d.stock == f.stock.value
  {
    NuevoProducto(f.nombre, f.descripcion, f.precioCompra.value, f.precioVenta.value, f.stock.value)
  }

  datatype Llamada = OnSave(data: NuevoProducto) | OnClose

  /** Submitting: the callbacks called, in order. A valid form calls
      `onSave(data)` then `onClose`; an invalid one calls neither. */
  function OnSubmit(f: AddProductForm): (calls: seq<Llamada>)
    ensures Valido(f) ==> calls == [OnSave(Datos(f)), OnClose]
    ensures !Valido(f) ==> calls == []
  {
    if Valido(f) then [OnSave(Datos(f)), OnClose] else []
  }

  /** Submitting calls back exactly when no field shows an error, and the
      data handed over carries the form's values. */
  lemma SubmitIffSinErrores(f: AddProductForm)
    ensures OnSubmit(f) != [] <==> forall c :: Error(f, c).None?
    ensures OnSubmit(f) != [] ==> OnSubmit(f)[0].OnSave? && OnSubmit(f)[0].data.stock == f.stock.value
  {
    ValidoSinErrores(f);
  }
}
