/**
 * How the console and the API meet: the JSON body the console sends is
 * what the API validates, and the record the API returns is what the
 * console holds.
 */
module Exchange {
  import opened Wrappers
  import opened Strings
  import Inventory
  import Api

  /** The body of a POST or PUT from the console: the payload with every key present. */
  function RequestBody(p: Inventory.Payload): Api.Body {
    Api.Body(Some(p.nombre), Some(p.categoria), Some(p.descripcion), Some(p.precioDeCompra),
             Some(p.precioDeVenta), Some(p.stock), Some(p.proveedor), Some(p.estado))
  }

  /** The payload's values as a `ProductoBase`, before any validation. */
  function RecordOf(p: Inventory.Payload): Api.ProductoBase {
    Api.ProductoBase(p.nombre, p.categoria, p.descripcion, p.precioDeCompra, p.precioDeVenta,
                     p.stock, p.proveedor, p.estado)
  }

  /** A record returned by the API as the console holds it: every number present. */
  function ProductoOf(d: Api.ProductoDB): Inventory.Producto {
    Inventory.Producto(d.cod, d.nombre, d.categoria, d.descripcion, Some(d.precioDeCompra),
                       Some(d.precioDeVenta), Some(d.stock), d.proveedor, d.estado)
  }

  /**
   * A normalized draft is accepted exactly when its values already meet
   * the constraints, and then the API keeps them unchanged: over the six
   * ASCII whitespace characters `Strings.IsSpace` names (a subset of what
   * both trims remove), the console's trimming leaves the API's stripping
   * nothing to do.
   */
  lemma NormalizedPayloadAccepted(f: Inventory.Form)
    ensures var p := Inventory.NormalizePayload(f);
      Api.Validate(RequestBody(p)).Success? <==> Api.ValidProducto(RecordOf(p))
    ensures var p := Inventory.NormalizePayload(f);
      Api.Validate(RequestBody(p)).Success? ==> Api.Validate(RequestBody(p)).value == RecordOf(p)
  {
    var p := Inventory.NormalizePayload(f);
    if Api.ValidProducto(RecordOf(p)) {
      assert RequestBody(p) == Api.BodyOf(RecordOf(p));
      Api.ValidateValid(RecordOf(p));
    }
    if Api.Validate(RequestBody(p)).Success? {
      TrimTrimmed(p.nombre);
      TrimTrimmed(p.categoria);
      TrimTrimmed(p.descripcion);
      TrimTrimmed(p.proveedor);
      TrimTrimmed(p.estado);
    }
  }

  /**
   * The API's answer to the body the untouched create draft normalizes to
   * is 422: `nombre`, `categoria` and `proveedor` are too short and
   * `descripcion`, which may be empty by its length, is refused by the
   * validator. (In the browser the `required` inputs keep this draft from
   * being submitted at all.)
   */
  lemma EmptyCreateFormRejected()
    ensures Api.Validate(RequestBody(Inventory.NormalizePayload(Inventory.EmptyForm))) ==
      Failure([
        Api.FieldError(Api.Nombre, Api.TooShort),
        Api.FieldError(Api.Categoria, Api.TooShort),
        Api.FieldError(Api.Descripcion, Api.Empty),
        Api.FieldError(Api.Proveedor, Api.TooShort)])
  {
    Inventory.NormalizeEmptyForm();
    EmptyBodyErrors(RequestBody(Inventory.NormalizePayload(Inventory.EmptyForm)));
  }

  /** The field errors of the body the empty draft produces, in field order. */
  lemma EmptyBodyErrors(b: Api.Body)
    requires b == Api.Body(Some(""), Some(""), Some(""), Some(0.0), Some(0.0), Some(0), Some(""),
                           Some(Api.DefaultEstado))
    ensures !Api.Passes(b)
    ensures Api.ErrorsIn(b, Api.AllFields) == [
        Api.FieldError(Api.Nombre, Api.TooShort),
        Api.FieldError(Api.Categoria, Api.TooShort),
        Api.FieldError(Api.Descripcion, Api.Empty),
        Api.FieldError(Api.Proveedor, Api.TooShort)]
  {
    assert IsBlank("");
    assert !IsBlank(Api.DefaultEstado) by {
      assert !IsSpace(Api.DefaultEstado[0]);
    }
    var fs := Api.AllFields;
    assert Api.FieldViolation(b, Api.Estado) == None;
    assert Api.FieldViolation(b, Api.Proveedor) == Some(Api.TooShort);
    assert Api.FieldViolation(b, Api.Stock) == None;
    assert Api.FieldViolation(b, Api.PrecioDeVenta) == None;
    assert Api.FieldViolation(b, Api.PrecioDeCompra) == None;
    assert Api.FieldViolation(b, Api.Descripcion) == Some(Api.Empty);
    assert Api.FieldViolation(b, Api.Categoria) == Some(Api.TooShort);
    assert Api.FieldViolation(b, Api.Nombre) == Some(Api.TooShort);
    assert Api.ErrorsIn(b, fs[7..]) == [] by {
      assert fs[8..] == [];
      Api.ErrorsInStep(b, fs, 7);
    }
    var e6 := [Api.FieldError(Api.Proveedor, Api.TooShort)];
    assert Api.ErrorsIn(b, fs[6..]) == e6 by {
      Api.ErrorsInStep(b, fs, 6);
    }
    assert Api.ErrorsIn(b, fs[5..]) == e6 by {
      Api.ErrorsInStep(b, fs, 5);
    }
    assert Api.ErrorsIn(b, fs[4..]) == e6 by {
      Api.ErrorsInStep(b, fs, 4);
    }
    assert Api.ErrorsIn(b, fs[3..]) == e6 by {
      Api.ErrorsInStep(b, fs, 3);
    }
    var e2 := [Api.FieldError(Api.Descripcion, Api.Empty)] + e6;
    assert Api.ErrorsIn(b, fs[2..]) == e2 by {
      Api.ErrorsInStep(b, fs, 2);
    }
    var e1 := [Api.FieldError(Api.Categoria, Api.TooShort)] + e2;
    assert Api.ErrorsIn(b, fs[1..]) == e1 by {
      Api.ErrorsInStep(b, fs, 1);
    }
    assert Api.ErrorsIn(b, fs[0..]) == [Api.FieldError(Api.Nombre, Api.TooShort)] + e1 by {
      Api.ErrorsInStep(b, fs, 0);
    }
    assert fs[0..] == fs;
    ListOfFour(Api.FieldError(Api.Nombre, Api.TooShort), Api.FieldError(Api.Categoria, Api.TooShort),
               Api.FieldError(Api.Descripcion, Api.Empty), Api.FieldError(Api.Proveedor, Api.TooShort));
  }

  lemma ListOfFour<T>(a: T, b: T, c: T, d: T)
    ensures [a] + ([b] + ([c] + [d])) == [a, b, c, d]
  {
  }

  /**
   * Opening a stored record in the edit draft and submitting it untouched
   * sends back exactly the stored values, and the API accepts them as they
   * are.
   */
  lemma EditUnchangedResubmits(k: int, v: Api.ProductoBase)
    requires Api.ValidProducto(v)
    ensures var shown := ProductoOf(Api.RowToProducto(Api.RowOf(k, v)));
      && Inventory.EditFormOf(shown).cod == Some(k)
      && Api.Validate(RequestBody(Inventory.NormalizePayload(Inventory.EditFormOf(shown).fields))) ==
         Success(v)
  {
    var shown := ProductoOf(Api.RowToProducto(Api.RowOf(k, v)));
    assert Inventory.CleanRecord(shown);
    Inventory.StartEditRoundTrip(shown);
    var p := Inventory.NormalizePayload(Inventory.EditFormOf(shown).fields);
    assert RecordOf(p) == v;
    assert RequestBody(p) == Api.BodyOf(v);
    Api.ValidateValid(v);
  }
}
