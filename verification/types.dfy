/** The record shapes the screens exchange with the REST API. Optional and
    nullable fields (`?:`, `| null`) are `Option`; prices, totals, stock and
    kilometres are integers. */
module Types {
  import opened Common

  // ------------------------------------------------ src/types/presupuesto.ts

  /** The status of a budget. */
  datatype Estado = Pendiente | Cancelado | Realizado
  {
    function Text(): string
    {
      match this
      case Pendiente => "PENDIENTE"
      case Cancelado => "CANCELADO"
      case Realizado => "REALIZADO"
    }
  }

  datatype ClienteRef = ClienteRef(id: int, nombre: string)
  datatype VehiculoRef = VehiculoRef(id: int, matricula: string)
  datatype ProductoRef = ProductoRef(id: int, nombre: string, categoria: string)

  /** A line item as the API sends and receives it: a product id and a quantity. */
  datatype LineaRef = LineaRef(producto_id: int, cantidad: int)

  /** One flat budget of the combined snapshot: foreign keys only. */
  datatype PresupuestoPlano = PresupuestoPlano(
    id: int,
    cliente_id: int,
    vehiculo_id: int,
    total_estimado: int,
    estado: Estado,
    fecha_creacion: string,
    fecha_realizado: Option<string>,
    productos: seq<LineaRef>)

  /** `PresupuestoDTO`: the combined snapshot of `/presupuestos/data`. */
  datatype PresupuestoData = PresupuestoData(
    presupuestos: seq<PresupuestoPlano>,
    clientes: seq<ClienteRef>,
    vehiculos: seq<VehiculoRef>,
    productos: seq<ProductoRef>)

  /** A line item after the join: the product's name and category are
      looked up on the client (`undefined` when the product is unknown). */
  datatype Linea = Linea(producto_id: int, cantidad: int, nombre: Option<string>, categoria: Option<string>)

  /** `IPresupuesto`: a budget row of the store. A row built by the join still
      carries the flat `cliente_id`/`vehiculo_id` it was spread from; a row
      returned by the server may lack them. */
  datatype IPresupuesto = IPresupuesto(
    id: int,
    cliente_id: Option<int>,
    vehiculo_id: Option<int>,
    total_estimado: int,
    estado: Estado,
    fecha_creacion: string,
    fecha_realizado: Option<string>,
    cliente: Option<ClienteRef>,
    vehiculo: Option<VehiculoRef>,
    productos: seq<Linea>)

  function PresupuestoKey(p: IPresupuesto): int { p.id }
  function ClienteRefKey(c: ClienteRef): int { c.id }
  function VehiculoRefKey(v: VehiculoRef): int { v.id }
  function ProductoRefKey(p: ProductoRef): int { p.id }

  /** `IPresupuestoForm`: the flat body posted to create a budget. */
  datatype IPresupuestoForm = IPresupuestoForm(
    cliente_id: int,
    vehiculo_id: int,
    productos: seq<LineaRef>,
    total_estimado: int)

  /** A loosely typed record, field name to value, for the budget shapes the
      hook and the budget modal handle: input fields store raw strings. */
  datatype Valor = Num(n: int) | Texto(s: string) | Nulo
  type Registro = map<string, Valor>

  // ---------------------------------------------- src/types/productoType.ts

  datatype ProductoType = ProductoType(
    id: int,
    nombre: string,
    descripcion: string,
    precioCompra: int,
    precioVenta: int,
    stock: int,
    orden_id: Option<int>)

  function ProductoKey(p: ProductoType): int { p.id }

  /** `Omit<ProductoType, "id">` as the add-product form produces it: the
      five registered fields. */
  datatype NuevoProducto = NuevoProducto(
    nombre: string,
    descripcion: string,
    precioCompra: int,
    precioVenta: int,
    stock: int)

  // ----------------------------------------------------- src/types/index.ts

  datatype Cliente = Cliente(id: int, nombre: string, contacto: string, vehiculos: seq<Vehiculo>)

  datatype Vehiculo = Vehiculo(
    id: int,
    tipo: string,
    color: string,
    marca: string,
    modelo: string,
    matricula: string,
    kilometros: int,
    cliente: Option<Cliente>)

  /** `Omit<Vehiculo, "id">`, a vehicle being drafted in the new-client modal. */
  datatype VehiculoNuevo = VehiculoNuevo(
    tipo: string,
    color: string,
    marca: string,
    modelo: string,
    matricula: string,
    kilometros: int,
    cliente: Option<Cliente>)

  function ClienteKey(c: Cliente): int { c.id }
  function VehiculoKey(v: Vehiculo): int { v.id }

  /** The vehicle fields an input edits. */
  datatype CampoVehiculo = Tipo | Color | Marca | Modelo | Matricula | Kilometros

  /** One keystroke's worth of change: the field and the value put into it
      (text fields take the raw string, kilometres a number). */
  datatype Cambio =
    | SetTipo(s: string)
    | SetColor(s: string)
    | SetMarca(s: string)
    | SetModelo(s: string)
    | SetMatricula(s: string)
    | SetKilometros(n: int)
  {
    function Campo(): CampoVehiculo
    {
      match this
      case SetTipo(_) => Tipo
      case SetColor(_) => Color
      case SetMarca(_) => Marca
      case SetModelo(_) => Modelo
      case SetMatricula(_) => Matricula
      case SetKilometros(_) => Kilometros
    }

    function Valor(): Valor
    {
      if this.SetKilometros? then Num(n) else Texto(s)
    }
  }

  /** A drafted vehicle's field, read as a value. */
  function LeerVehiculoNuevo(v: VehiculoNuevo, f: CampoVehiculo): Valor
  {
    match f
    case Tipo => Texto(v.tipo)
    case Color => Texto(v.color)
    case Marca => Texto(v.marca)
    case Modelo => Texto(v.modelo)
    case Matricula => Texto(v.matricula)
    case Kilometros => Num(v.kilometros)
  }

  /** A listed vehicle's field: the same field of its id-less part. */
  function LeerVehiculo(v: Vehiculo, f: CampoVehiculo): Valor
  {
    LeerVehiculoNuevo(VehiculoNuevo(v.tipo, v.color, v.marca, v.modelo, v.matricula, v.kilometros, v.cliente), f)
  }

  datatype Producto = Producto(
    id: int,
    nombre: string,
    descripcion: string,
    precio_compra: int,
    precio_venta: int,
    stock: int)

  datatype Servicio = Servicio(
    id: int,
    descripcion: string,
    costoManoDeObra: int,
    fechaServicio: string,
    ordenId: Option<int>,
    repuestosUsados: seq<Producto>)

  /** The budget shape of the older budgets page. */
  datatype Presupuesto = Presupuesto(
    id: int,
    cliente: Option<Cliente>,
    vehiculo: Option<Vehiculo>,
    servicios: seq<Servicio>,
    totalEstimado: int,
    fechaCreacion: string,
    estado: string)

  function LegacyPresupuestoKey(p: Presupuesto): int { p.id }

  /** The budget shape of the orders page (string ids), as its fields are used. */
  datatype Budget = Budget(
    id: string,
    title: string,
    category: string,
    amount: int,
    status: string,
    startDate: string,
    endDate: string)

  function BudgetKey(b: Budget): string { b.id }

  /** The product shape of the older products page (string ids), as its fields are used. */
  datatype Product = Product(
    id: string,
    name: string,
    description: string,
    category: string,
    price: int,
    createdAt: string)

  function ProductKey(p: Product): string { p.id }
}
