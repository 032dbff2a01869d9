/**
 * The FastAPI back end: the `ProductoBase` request model with its field
 * constraints and its strip-and-reject-blank validator, the mapping of
 * database rows to `ProductoDB` records, and the decision logic of the
 * single-product endpoints over an abstract product table.
 */
module Api {
  import opened Wrappers
  import opened Strings

  const MaxTextLength: nat := 200
  const MaxEstadoLength: nat := 20
  const DefaultEstado: string := "Activo"

  // ---------------------------------------------------------------------
  // Request validation (ProductoBase)
  // ---------------------------------------------------------------------

  datatype Field =
    Nombre | Categoria | Descripcion | PrecioDeCompra | PrecioDeVenta | Stock | Proveedor | Estado

  /** Why a field was refused. */
  datatype Violation =
    | Missing   // a required key is absent
    | TooShort  // below `min_length`
    | TooLong   // above `max_length`
    | Negative  // below `ge=0`
    | Empty     // rejected by the validator: empty or whitespace only

  datatype FieldError = FieldError(field: Field, violation: Violation)

  /** The JSON body of a POST or PUT as received: `None` is an absent key. */
  datatype Body = Body(
    nombre: Option<string>,
    categoria: Option<string>,
    descripcion: Option<string>,
    precioDeCompra: Option<real>,
    precioDeVenta: Option<real>,
    stock: Option<int>,
    proveedor: Option<string>,
    estado: Option<string>)

  /** A validated `ProductoCreate` / `ProductoUpdate`. */
  datatype ProductoBase = ProductoBase(
    nombre: string,
    categoria: string,
    descripcion: string,
    precioDeCompra: real,
    precioDeVenta: real,
    stock: int,
    proveedor: string,
    estado: string)

  /** Text the model accepts: stripped, non-empty, within its length limit. */
  predicate TextOk(s: string, maxLength: nat) {
    1 <= |s| <= maxLength && IsTrimmed(s)
  }

  /** Every value a successful validation can produce satisfies this. */
  predicate ValidProducto(p: ProductoBase) {
    && TextOk(p.nombre, MaxTextLength)
    && TextOk(p.categoria, MaxTextLength)
    && TextOk(p.descripcion, MaxTextLength)
    && TextOk(p.proveedor, MaxTextLength)
    && TextOk(p.estado, MaxEstadoLength)
    && p.precioDeCompra >= 0.0
    && p.precioDeVenta >= 0.0
    && p.stock >= 0
  }

  /**
   * `validar_nombre_categoria`: refuses empty or whitespace-only text and
   * otherwise keeps the stripped text.
   */
  function ValidarNombreCategoria(v: string): (r: Result<string, Violation>)
    ensures r.Failure? <==> IsBlank(v)
    ensures r.Failure? ==> r.error == Empty
    ensures r.Success? ==> r.value == Trim(v) && r.value != [] && IsTrimmed(r.value)
  {
    if IsBlank(v) then Failure(Empty) else Success(Trim(v))
  }

  /**
   * Why a text field is refused, if it is: a required key that is absent;
   * otherwise the length constraints on the text as sent, and only then
   * the validator's blank test.
   */
  function TextViolation(v: Option<string>, minLength: nat, maxLength: nat, hasDefault: bool)
    : Option<Violation>
  {
    match v
    case None => if hasDefault then None else Some(Missing)
    case Some(s) =>
      if |s| < minLength then Some(TooShort)
      else if |s| > maxLength then Some(TooLong)
      else if IsBlank(s) then Some(Empty)
      else None
  }

  /**
   * One text field of `ProductoBase`, validated: refused for the first
   * violation, else the default for an absent key or the stripped text.
   */
  function TextField(v: Option<string>, minLength: nat, maxLength: nat, default: Option<string>)
    : (r: Result<string, Violation>)
    ensures r.Success? <==> TextViolation(v, minLength, maxLength, default.Some?).None?
    ensures v.None? ==> r == (if default.Some? then Success(default.value) else Failure(Missing))
    ensures v.Some? ==>
      (r.Success? <==> minLength <= |v.value| <= maxLength && !IsBlank(v.value))
    ensures v.Some? && r.Success? ==> r.value == Trim(v.value) && TextOk(r.value, maxLength)
    ensures v.Some? && |v.value| < minLength ==> r == Failure(TooShort)
    ensures v.Some? && minLength <= |v.value| && |v.value| > maxLength ==> r == Failure(TooLong)
    ensures v.Some? && minLength <= |v.value| <= maxLength ==> r == ValidarNombreCategoria(v.value)
  {
    match TextViolation(v, minLength, maxLength, default.Some?)
    case Some(e) => Failure(e)
    case None => if v.Some? then Success(Trim(v.value)) else Success(default.value)
  }

  /** A price: `float = Field(default=0.00, ge=0)`. */
  function Amount(v: Option<real>): (r: Result<real, Violation>)
    ensures r.Success? ==> r.value >= 0.0
    ensures v.None? ==> r == Success(0.0)
    ensures v.Some? ==> r == (if v.value >= 0.0 then Success(v.value) else Failure(Negative))
  {
    match v
    case None => Success(0.0)
    case Some(x) => if x >= 0.0 then Success(x) else Failure(Negative)
  }

  /** The stock: `int = Field(default=0, ge=0)`. */
  function Quantity(v: Option<int>): (r: Result<int, Violation>)
    ensures r.Success? ==> r.value >= 0
    ensures v.None? ==> r == Success(0)
    ensures v.Some? ==> r == (if v.value >= 0 then Success(v.value) else Failure(Negative))
  {
    match v
    case None => Success(0)
    case Some(n) => if n >= 0 then Success(n) else Failure(Negative)
  }

  function ViolationOf<T>(r: Result<T, Violation>): Option<Violation> {
    if r.Failure? then Some(r.error) else None
  }

  /** The violation, if any, of one field of a body. */
  function FieldViolation(b: Body, f: Field): Option<Violation> {
    match f
    case Nombre => TextViolation(b.nombre, 1, MaxTextLength, false)
    case Categoria => TextViolation(b.categoria, 1, MaxTextLength, false)
    case Descripcion => TextViolation(b.descripcion, 0, MaxTextLength, false)
    case PrecioDeCompra => ViolationOf(Amount(b.precioDeCompra))
    case PrecioDeVenta => ViolationOf(Amount(b.precioDeVenta))
    case Stock => ViolationOf(Quantity(b.stock))
    case Proveedor => TextViolation(b.proveedor, 1, MaxTextLength, false)
    case Estado => TextViolation(b.estado, 0, MaxEstadoLength, true)
  }

  /** The fields in declaration order, the order in which errors are reported. */
  const AllFields: seq<Field> :=
    [Nombre, Categoria, Descripcion, PrecioDeCompra, PrecioDeVenta, Stock, Proveedor, Estado]

  lemma AllFieldsListed()
    ensures forall f :: f in AllFields
  {
    forall f ensures f in AllFields {
      match f
      case Nombre => assert AllFields[0] == f;
      case Categoria => assert AllFields[1] == f;
      case Descripcion => assert AllFields[2] == f;
      case PrecioDeCompra => assert AllFields[3] == f;
      case PrecioDeVenta => assert AllFields[4] == f;
      case Stock => assert AllFields[5] == f;
      case Proveedor => assert AllFields[6] == f;
      case Estado => assert AllFields[7] == f;
    }
  }

  /** The errors of the fields `fs`, in their order. */
  function ErrorsIn(b: Body, fs: seq<Field>): (r: seq<FieldError>)
    ensures forall e :: e in r <==> e.field in fs && FieldViolation(b, e.field) == Some(e.violation)
  {
    if fs == [] then []
    else
      var rest := ErrorsIn(b, fs[1..]);
      assert forall f :: f in fs <==> f == fs[0] || f in fs[1..];
      match FieldViolation(b, fs[0])
      case None => rest
      case Some(v) => [FieldError(fs[0], v)] + rest
  }

  /** The errors of `fs[k..]`: those of field `fs[k]` followed by those of the rest. */
  lemma ErrorsInStep(b: Body, fs: seq<Field>, k: nat)
    requires k < |fs|
    ensures ErrorsIn(b, fs[k..]) ==
      (if FieldViolation(b, fs[k]).Some? then [FieldError(fs[k], FieldViolation(b, fs[k]).value)] else [])
      + ErrorsIn(b, fs[k + 1..])
  {
    assert fs[k..][1..] == fs[k + 1..];
  }

  /** No field of the body is refused. */
  predicate Passes(b: Body) {
    && FieldViolation(b, Nombre).None?
    && FieldViolation(b, Categoria).None?
    && FieldViolation(b, Descripcion).None?
    && FieldViolation(b, PrecioDeCompra).None?
    && FieldViolation(b, PrecioDeVenta).None?
    && FieldViolation(b, Stock).None?
    && FieldViolation(b, Proveedor).None?
    && FieldViolation(b, Estado).None?
  }

  /** A body passes exactly when no field has a violation. */
  lemma PassesIffNoViolation(b: Body)
    ensures Passes(b) <==> forall f :: FieldViolation(b, f).None?
  {
    if Passes(b) {
      forall f ensures FieldViolation(b, f).None? {
        match f
        case Nombre =>
        case Categoria =>
        case Descripcion =>
        case PrecioDeCompra =>
        case PrecioDeVenta =>
        case Stock =>
        case Proveedor =>
        case Estado =>
      }
    }
  }

  /** A refused body has at least one error to report. */
  lemma ErrorsReported(b: Body)
    requires !Passes(b)
    ensures ErrorsIn(b, AllFields) != []
  {
    PassesIffNoViolation(b);
    var f :| FieldViolation(b, f).Some?;
    AllFieldsListed();
    assert FieldError(f, FieldViolation(b, f).value) in ErrorsIn(b, AllFields);
  }

  /**
   * The record holds the body's values: every text stripped, the numbers as
   * sent, and the defaults 0, 0, 0 and `Activo` for absent keys.
   */
  predicate Keeps(b: Body, p: ProductoBase) {
    && b.nombre.Some? && p.nombre == Trim(b.nombre.value)
    && b.categoria.Some? && p.categoria == Trim(b.categoria.value)
    && b.descripcion.Some? && p.descripcion == Trim(b.descripcion.value)
    && b.proveedor.Some? && p.proveedor == Trim(b.proveedor.value)
    && p.estado == (if b.estado.Some? then Trim(b.estado.value) else DefaultEstado)
    && p.precioDeCompra == (if b.precioDeCompra.Some? then b.precioDeCompra.value else 0.0)
    && p.precioDeVenta == (if b.precioDeVenta.Some? then b.precioDeVenta.value else 0.0)
    && p.stock == (if b.stock.Some? then b.stock.value else 0)
  }

  /** The record a passing body yields, built from the validated fields. */
  function Accepted(b: Body): (p: ProductoBase)
    requires Passes(b)
    ensures ValidProducto(p)
    ensures Keeps(b, p)
  {
    var estado := TextField(b.estado, 0, MaxEstadoLength, Some(DefaultEstado));
    assert TextOk(estado.value, MaxEstadoLength) by {
      if b.estado.None? {
        assert !IsSpace(DefaultEstado[0]) && !IsSpace(DefaultEstado[|DefaultEstado| - 1]);
      }
    }
    ProductoBase(
      TextField(b.nombre, 1, MaxTextLength, None).value,
      TextField(b.categoria, 1, MaxTextLength, None).value,
      TextField(b.descripcion, 0, MaxTextLength, None).value,
      Amount(b.precioDeCompra).value,
      Amount(b.precioDeVenta).value,
      Quantity(b.stock).value,
      TextField(b.proveedor, 1, MaxTextLength, None).value,
      estado.value)
  }

  /**
   * Validation of a request body against `ProductoBase`: every field is
   * checked and every failing field is reported (FastAPI answers 422 with
   * the list); when none fails the result is the stripped, defaulted record.
   */
  function Validate(b: Body): (r: Result<ProductoBase, seq<FieldError>>)
    ensures r.Success? <==> Passes(b)
    ensures r.Success? <==> forall f :: FieldViolation(b, f).None?
    ensures r.Success? ==> ValidProducto(r.value)
    ensures r.Failure? ==> r.error != []
    ensures r.Failure? ==> forall e :: e in r.error <==> FieldViolation(b, e.field) == Some(e.violation)
    ensures r.Success? ==> Keeps(b, r.value)
  {
    PassesIffNoViolation(b);
    if Passes(b) then
      Success(Accepted(b))
    else
      ErrorsReported(b);
      AllFieldsListed();
      Failure(ErrorsIn(b, AllFields))
  }

  /** The body a client sends for a record: every key present. */
  function BodyOf(p: ProductoBase): Body {
    Body(Some(p.nombre), Some(p.categoria), Some(p.descripcion), Some(p.precioDeCompra),
         Some(p.precioDeVenta), Some(p.stock), Some(p.proveedor), Some(p.estado))
  }

  /**
   * Validation is a projection: a record that satisfies the constraints
   * passes validation unchanged.
   */
  lemma ValidateValid(p: ProductoBase)
    requires ValidProducto(p)
    ensures Validate(BodyOf(p)) == Success(p)
  {
    TextFieldAccepts(p.nombre, 1, MaxTextLength, None);
    TextFieldAccepts(p.categoria, 1, MaxTextLength, None);
    TextFieldAccepts(p.descripcion, 0, MaxTextLength, None);
    TextFieldAccepts(p.proveedor, 1, MaxTextLength, None);
    TextFieldAccepts(p.estado, 0, MaxEstadoLength, Some(DefaultEstado));
  }

  /** Stripped, non-empty text within the limits is accepted unchanged. */
  lemma TextFieldAccepts(s: string, minLength: nat, maxLength: nat, default: Option<string>)
    requires minLength <= 1 && TextOk(s, maxLength)
    ensures TextField(Some(s), minLength, maxLength, default) == Success(s)
  {
    TrimmedNonEmptyNotBlank(s);
    TrimTrimmed(s);
  }

  /** Validating what validation produced gives the same record back. */
  lemma ValidateIdempotent(b: Body)
    requires Validate(b).Success?
    ensures Validate(BodyOf(Validate(b).value)) == Validate(b)
  {
    ValidateValid(Validate(b).value);
  }

  // ---------------------------------------------------------------------
  // Rows and ProductoDB (map_rows_to_productos)
  // ---------------------------------------------------------------------

  /** A price column as the driver returns it: a `Decimal` or already a `float`. */
  datatype Price = DecimalPrice(amount: real) | FloatPrice(amount: real)

  /** A row of `SELECT * FROM productos`. */
  datatype Row = Row(
    cod: int,
    nombre: string,
    categoria: string,
    descripcion: string,
    precioDeCompra: Price,
    precioDeVenta: Price,
    stock: int,
    proveedor: string,
    estado: string)

  /** The record the endpoints return. */
  datatype ProductoDB = ProductoDB(
    cod: int,
    nombre: string,
    categoria: string,
    descripcion: string,
    precioDeCompra: real,
    precioDeVenta: real,
    stock: int,
    proveedor: string,
    estado: string)

  /** `float(...)` applied when the column is a `Decimal`; a float is kept. */
  function AsFloat(p: Price): real {
    match p
    case DecimalPrice(d) => d
    case FloatPrice(f) => f
  }

  /** One row as a `ProductoDB`. */
  function RowToProducto(row: Row): ProductoDB {
    ProductoDB(row.cod, row.nombre, row.categoria, row.descripcion, AsFloat(row.precioDeCompra),
               AsFloat(row.precioDeVenta), row.stock, row.proveedor, row.estado)
  }

  /** `map_rows_to_productos`: one record per row, in row order. */
  method MapRowsToProductos(rows: seq<Row>) returns (productos: seq<ProductoDB>)
    ensures |productos| == |rows|
    ensures forall i :: 0 <= i < |rows| ==> productos[i] == RowToProducto(rows[i])
  {
    productos := [];
    for i := 0 to |rows|
      invariant |productos| == i
      invariant forall j :: 0 <= j < i ==> productos[j] == RowToProducto(rows[j])
    {
      var row := rows[i];
      var compra := row.precioDeCompra;
      if compra.DecimalPrice? {
        compra := FloatPrice(compra.amount);
      }
      var venta := row.precioDeVenta;
      if venta.DecimalPrice? {
        venta := FloatPrice(venta.amount);
      }
      var producto := ProductoDB(row.cod, row.nombre, row.categoria, row.descripcion, compra.amount,
                                 venta.amount, row.stock, row.proveedor, row.estado);
      productos := productos + [producto];
    }
  }

  /** The row the database stores for a validated record under a key. */
  function RowOf(cod: int, p: ProductoBase): Row {
    Row(cod, p.nombre, p.categoria, p.descripcion, DecimalPrice(p.precioDeCompra),
        DecimalPrice(p.precioDeVenta), p.stock, p.proveedor, p.estado)
  }

  /** The record a stored row reads back as: the key and every validated value. */
  lemma StoredRowReadsBack(cod: int, p: ProductoBase)
    ensures var q := RowToProducto(RowOf(cod, p));
      && q.cod == cod
      && ProductoBase(q.nombre, q.categoria, q.descripcion, q.precioDeCompra, q.precioDeVenta,
                      q.stock, q.proveedor, q.estado) == p
  {
  }

  // ---------------------------------------------------------------------
  // Endpoints
  // ---------------------------------------------------------------------

  /** The `detail` of an `HTTPException`, or the 422 list of field errors. */
  datatype Detail = Message(text: string) | Invalid(errors: seq<FieldError>)

  datatype Response<T> = Ok(code: int, body: T) | HttpError(code: int, detail: Detail)

  /** The body of a successful DELETE. */
  datatype Deletion = Deletion(mensaje: string, idProducto: int)

  function NotFound(id: int): Detail {
    Message("Producto con ID " + IntToString(id) + " no encontrado")
  }

  const InsertFailed: Detail := Message("Error al insertar el producto en la base de datos")
  const CreatedMissing: Detail := Message("Error al recuperar el producto recién creado")
  const UpdateFailed: Detail := Message("Error al actualizar el producto en la base de datos")
  const UpdatedMissing: Detail := Message("Error al recuperar el producto actualizado")
  const DeleteFailed: Detail := Message("Error al eliminar el producto de la base de datos")
  const Deleted: string := "Producto eliminado exitosamente"

  /**
   * The `productos` table as the endpoints see it through `app.database`:
   * rows by primary key. The outcome of each write (the id the insert
   * reports, whether an update or delete succeeded) is a parameter of the
   * endpoint that performs it.
   */
  class Database {
    var table: map<int, Row>

    /** Every row is stored under its own `cod`. */
    ghost predicate Keyed()
      reads this
    {
      forall k :: k in table ==> table[k].cod == k
    }

    /** Every row holds values that passed validation. */
    ghost predicate Sound()
      reads this
    {
      forall k :: k in table ==> exists p :: ValidProducto(p) && table[k] == RowOf(k, p)
    }

    /** A table whose rows are stored under their own `cod`, as the primary key keeps them. */
    constructor (rows: map<int, Row>)
      requires forall k :: k in rows ==> rows[k].cod == k
      ensures table == rows
      ensures Keyed()
    {
      table := rows;
    }

    /** `obtener_producto`: the stored record, or 404 when the id is unknown. */
    method ObtenerProducto(id: int) returns (r: Response<ProductoDB>)
      requires Keyed()
      ensures id !in table ==> r == HttpError(404, NotFound(id))
      ensures id in table ==> r == Ok(200, RowToProducto(table[id])) && r.body.cod == id
    {
      if id !in table {
        return HttpError(404, NotFound(id));
      }
      var productos := MapRowsToProductos([table[id]]);
      r := Ok(200, productos[0]);
    }

    /**
     * `crear_producto`: an invalid body is refused with 422 before the
     * database is touched; an insert that reports a falsy id (`None` or 0)
     * yields 500; otherwise the new row is stored under the reported id and
     * read back as the 201 response.
     */
    method CrearProducto(body: Body, newId: Option<int>) returns (r: Response<ProductoDB>)
      requires Keyed()
      requires newId.Some? && newId.value != 0 ==> newId.value !in table
      modifies this
      ensures Keyed()
      ensures old(Sound()) ==> Sound()
      ensures Validate(body).Failure? ==>
        r == HttpError(422, Invalid(Validate(body).error)) && table == old(table)
      ensures Validate(body).Success? && (newId.None? || newId.value == 0) ==>
        r == HttpError(500, InsertFailed) && table == old(table)
      ensures Validate(body).Success? && newId.Some? && newId.value != 0 ==>
        var k := newId.value;
        && table == old(table)[k := RowOf(k, Validate(body).value)]
        && r == Ok(201, RowToProducto(table[k]))
    {
      var v := Validate(body);
      if v.Failure? {
        return HttpError(422, Invalid(v.error));
      }
      if newId.None? || newId.value == 0 {
        return HttpError(500, InsertFailed);
      }
      var k := newId.value;
      table := table[k := RowOf(k, v.value)];
      if k !in table {
        return HttpError(500, CreatedMissing);
      }
      var productos := MapRowsToProductos([table[k]]);
      r := Ok(201, productos[0]);
    }

    /**
     * `actualizar_producto`: 422 for an invalid body, then 404 for an unknown
     * id before any update is attempted, 500 when the update reports failure,
     * and otherwise the row replaced and read back.
     */
    method ActualizarProducto(id: int, body: Body, updated: bool) returns (r: Response<ProductoDB>)
      requires Keyed()
      modifies this
      ensures Keyed()
      ensures old(Sound()) ==> Sound()
      ensures Validate(body).Failure? ==>
        r == HttpError(422, Invalid(Validate(body).error)) && table == old(table)
      ensures Validate(body).Success? && id !in old(table) ==>
        r == HttpError(404, NotFound(id)) && table == old(table)
      ensures Validate(body).Success? && id in old(table) && !updated ==>
        r == HttpError(500, UpdateFailed) && table == old(table)
      ensures Validate(body).Success? && id in old(table) && updated ==>
        && table == old(table)[id := RowOf(id, Validate(body).value)]
        && r == Ok(200, RowToProducto(table[id]))
    {
      var v := Validate(body);
      if v.Failure? {
        return HttpError(422, Invalid(v.error));
      }
      if id !in table {
        return HttpError(404, NotFound(id));
      }
      if !updated {
        return HttpError(500, UpdateFailed);
      }
      table := table[id := RowOf(id, v.value)];
      if id !in table {
        return HttpError(500, UpdatedMissing);
      }
      var productos := MapRowsToProductos([table[id]]);
      r := Ok(200, productos[0]);
    }

    /**
     * `eliminar_producto`: 404 for an unknown id before any delete is
     * attempted, 500 when the delete reports failure, otherwise the row is
     * gone and the response echoes the id.
     */
    method EliminarProducto(id: int, deleted: bool) returns (r: Response<Deletion>)
      requires Keyed()
      modifies this
      ensures Keyed()
      ensures old(Sound()) ==> Sound()
      ensures id !in old(table) ==> r == HttpError(404, NotFound(id)) && table == old(table)
      ensures id in old(table) && !deleted ==> r == HttpError(500, DeleteFailed) && table == old(table)
      ensures id in old(table) && deleted ==>
        && table == old(table) - {id}
        && id !in table
        && r == Ok(200, Deletion(Deleted, id))
    {
      if id !in table {
        return HttpError(404, NotFound(id));
      }
      if !deleted {
        return HttpError(500, DeleteFailed);
      }
      table := table - {id};
      r := Ok(200, Deletion(Deleted, id));
    }
  }
}
