/**
 * The pure part of the React console: the product records it holds, the
 * form drafts and the payload built from them, the dashboard statistics,
 * the list updates applied after a create, update or delete, and the
 * error text shown after a failed request.
 */
module Inventory {
  import opened Wrappers
  import opened Strings

  /**
   * A product as the console holds it: the JSON record the API returned.
   * A numeric field is `None` when the record lacks it (absent or `null`).
   */
  datatype Producto = Producto(
    cod: int,
    nombre: string,
    categoria: string,
    descripcion: string,
    precioDeCompra: Option<real>,
    precioDeVenta: Option<real>,
    stock: Option<int>,
    proveedor: string,
    estado: string)

  /**
   * A create or edit draft. A numeric field is `None` while its input box
   * holds the empty text `''`, and `Some(x)` once it holds a number.
   */
  datatype Form = Form(
    nombre: string,
    categoria: string,
    descripcion: string,
    precioDeCompra: Option<real>,
    precioDeVenta: Option<real>,
    stock: Option<int>,
    proveedor: string,
    estado: string)

  /** The edit draft: the fields plus the selected `cod` (`None` is `''`, nothing selected). */
  datatype EditForm = EditForm(cod: Option<int>, fields: Form)

  /** The JSON body sent on create and update. */
  datatype Payload = Payload(
    nombre: string,
    categoria: string,
    descripcion: string,
    precioDeCompra: real,
    precioDeVenta: real,
    stock: int,
    proveedor: string,
    estado: string)

  const DefaultEstado: string := "Activo"

  /** `emptyForm`: every text empty, every number box empty, `estado` preset. */
  const EmptyForm: Form := Form("", "", "", None, None, None, "", DefaultEstado)

  /** `{ ...emptyForm, cod: '' }`. */
  const EmptyEditForm: EditForm := EditForm(None, EmptyForm)

  // ---------------------------------------------------------------------
  // normalizePayload
  // ---------------------------------------------------------------------

  /** `Number(...)` of an input box: the empty text converts to 0. */
  function NumberOf(v: Option<real>): real {
    if v.Some? then v.value else 0.0
  }

  function IntegerOf(v: Option<int>): int {
    if v.Some? then v.value else 0
  }

  /**
   * `normalizePayload`: every text field trimmed, the number boxes
   * converted, and `estado` falling back to `Activo` when it trims to
   * nothing.
   */
  function NormalizePayload(f: Form): (p: Payload)
    ensures IsTrimmed(p.nombre) && IsTrimmed(p.categoria) && IsTrimmed(p.descripcion)
    ensures IsTrimmed(p.proveedor) && IsTrimmed(p.estado)
    ensures p.nombre == Trim(f.nombre) && p.categoria == Trim(f.categoria)
    ensures p.descripcion == Trim(f.descripcion) && p.proveedor == Trim(f.proveedor)
    ensures p.nombre == [] <==> IsBlank(f.nombre)
    ensures p.proveedor == [] <==> IsBlank(f.proveedor)
    ensures p.estado == (if IsBlank(f.estado) then DefaultEstado else Trim(f.estado))
    ensures p.estado != []
    ensures f.precioDeCompra.None? ==> p.precioDeCompra == 0.0
    ensures f.precioDeCompra.Some? ==> p.precioDeCompra == f.precioDeCompra.value
    ensures f.precioDeVenta.None? ==> p.precioDeVenta == 0.0
    ensures f.precioDeVenta.Some? ==> p.precioDeVenta == f.precioDeVenta.value
    ensures f.stock.None? ==> p.stock == 0
    ensures f.stock.Some? ==> p.stock == f.stock.value
  {
    var estado := Trim(f.estado);
    Payload(
      Trim(f.nombre),
      Trim(f.categoria),
      Trim(f.descripcion),
      NumberOf(f.precioDeCompra),
      NumberOf(f.precioDeVenta),
      IntegerOf(f.stock),
      Trim(f.proveedor),
      if estado == [] then DefaultEstado else estado)
  }

  /** The draft a payload fills in, every number box holding its number. */
  function FormOfPayload(p: Payload): Form {
    Form(p.nombre, p.categoria, p.descripcion, Some(p.precioDeCompra), Some(p.precioDeVenta),
         Some(p.stock), p.proveedor, p.estado)
  }

  /** Normalizing twice is normalizing once. */
  lemma NormalizeIdempotent(f: Form)
    ensures NormalizePayload(FormOfPayload(NormalizePayload(f))) == NormalizePayload(f)
  {
    var p := NormalizePayload(f);
    TrimTrimmed(p.nombre);
    TrimTrimmed(p.categoria);
    TrimTrimmed(p.descripcion);
    TrimTrimmed(p.proveedor);
    TrimTrimmed(p.estado);
  }

  /** The normalized empty draft: empty texts, zero numbers, `estado` `Activo`. */
  lemma NormalizeEmptyForm()
    ensures NormalizePayload(EmptyForm) == Payload("", "", "", 0.0, 0.0, 0, "", DefaultEstado)
  {
    TrimTrimmed(DefaultEstado);
  }

  // ---------------------------------------------------------------------
  // startEdit
  // ---------------------------------------------------------------------

  /** `startEdit`: the edit draft a product fills in, selecting its `cod`. */
  function EditFormOf(p: Producto): (e: EditForm)
    ensures e.cod == Some(p.cod)
    ensures e.fields.nombre == p.nombre && e.fields.categoria == p.categoria
    ensures e.fields.descripcion == p.descripcion && e.fields.proveedor == p.proveedor
    ensures e.fields.estado == p.estado
    ensures e.fields.precioDeCompra == p.precioDeCompra && e.fields.precioDeVenta == p.precioDeVenta
    ensures e.fields.stock == p.stock
  {
    EditForm(Some(p.cod), Form(p.nombre, p.categoria, p.descripcion, p.precioDeCompra,
                               p.precioDeVenta, p.stock, p.proveedor, p.estado))
  }

  /** A record whose texts are already clean, as the API returns them. */
  predicate CleanRecord(p: Producto) {
    && IsTrimmed(p.nombre) && IsTrimmed(p.categoria) && IsTrimmed(p.descripcion)
    && IsTrimmed(p.proveedor) && IsTrimmed(p.estado) && p.estado != []
  }

  /**
   * Submitting an edit of a clean record without touching the draft sends
   * the record's own values back (a missing number is sent as 0).
   */
  lemma StartEditRoundTrip(p: Producto)
    requires CleanRecord(p)
    ensures var q := NormalizePayload(EditFormOf(p).fields);
      && q.nombre == p.nombre && q.categoria == p.categoria && q.descripcion == p.descripcion
      && q.proveedor == p.proveedor && q.estado == p.estado
      && q.precioDeCompra == NumberOf(p.precioDeCompra)
      && q.precioDeVenta == NumberOf(p.precioDeVenta)
      && q.stock == IntegerOf(p.stock)
  {
    TrimTrimmed(p.nombre);
    TrimTrimmed(p.categoria);
    TrimTrimmed(p.descripcion);
    TrimTrimmed(p.proveedor);
    TrimTrimmed(p.estado);
    TrimmedNonEmptyNotBlank(p.estado);
  }

  // ---------------------------------------------------------------------
  // stats
  // ---------------------------------------------------------------------

  datatype Stats = Stats(total: nat, stock: int, margen: real)

  /** `Number(p.stock || 0)`: a missing stock counts as 0. */
  function StockOf(p: Producto): int {
    IntegerOf(p.stock)
  }

  /** `Number(p.precio_de_venta || 0) - Number(p.precio_de_compra || 0)`. */
  function MarginOf(p: Producto): real {
    NumberOf(p.precioDeVenta) - NumberOf(p.precioDeCompra)
  }

  /** The first `reduce`: the stock summed over the list. */
  function SumStock(ps: seq<Producto>): int {
    if ps == [] then 0 else StockOf(ps[0]) + SumStock(ps[1..])
  }

  /** The second `reduce`: the margins summed over the list. */
  function SumMargin(ps: seq<Producto>): real {
    if ps == [] then 0.0 else MarginOf(ps[0]) + SumMargin(ps[1..])
  }

  /**
   * `stats`: the number of products, the total stock and the mean margin;
   * all three are 0 for the empty list.
   */
  function ComputeStats(ps: seq<Producto>): (s: Stats)
    ensures ps == [] ==> s == Stats(0, 0, 0.0)
    ensures s.total == |ps|
    ensures s.stock == SumStock(ps)
    ensures ps != [] ==> s.margen * (|ps| as real) == SumMargin(ps)
  {
    if |ps| == 0 then Stats(0, 0, 0.0)
    else Stats(|ps|, SumStock(ps), SumMargin(ps) / (|ps| as real))
  }

  /** With no negative stock in the list the total stock is not negative. */
  lemma {:induction false} SumStockNonNegative(ps: seq<Producto>)
    requires forall i :: 0 <= i < |ps| ==> StockOf(ps[i]) >= 0
    ensures SumStock(ps) >= 0
  {
    if ps != [] {
      SumStockNonNegative(ps[1..]);
    }
  }

  /** Margins within `[lo, hi]` sum to within `[n * lo, n * hi]`. */
  lemma {:induction false} SumMarginBounds(ps: seq<Producto>, lo: real, hi: real)
    requires forall i :: 0 <= i < |ps| ==> lo <= MarginOf(ps[i]) <= hi
    ensures (|ps| as real) * lo <= SumMargin(ps) <= (|ps| as real) * hi
  {
    if ps != [] {
      SumMarginBounds(ps[1..], lo, hi);
    }
  }

  /** A quotient `m` with `m * n == sum` and `n * lo <= sum <= n * hi`, `n > 0`, lies in `[lo, hi]`. */
  lemma QuotientBetween(n: real, sum: real, m: real, lo: real, hi: real)
    requires n > 0.0
    requires n * lo <= sum <= n * hi
    requires m * n == sum
    ensures lo <= m <= hi
  {
    assert (m - lo) * n == sum - n * lo;
    assert (hi - m) * n == n * hi - sum;
  }

  /** The mean margin lies between the smallest and the largest margin. */
  lemma MeanMarginBounds(ps: seq<Producto>, lo: real, hi: real)
    requires ps != []
    requires forall i :: 0 <= i < |ps| ==> lo <= MarginOf(ps[i]) <= hi
    ensures lo <= ComputeStats(ps).margen <= hi
  {
    SumMarginBounds(ps, lo, hi);
    QuotientBetween(|ps| as real, SumMargin(ps), ComputeStats(ps).margen, lo, hi);
  }

  /** The two-product example of the dashboard: 2 products, 8 in stock, mean margin 3.5. */
  lemma StatsExample()
    ensures ComputeStats([
      Producto(1, "a", "c", "d", Some(10.0), Some(15.0), Some(3), "p", "Activo"),
      Producto(2, "b", "c", "d", Some(20.0), Some(22.0), Some(5), "p", "Activo")
    ]) == Stats(2, 8, 3.5)
  {
    var ps := [
      Producto(1, "a", "c", "d", Some(10.0), Some(15.0), Some(3), "p", "Activo"),
      Producto(2, "b", "c", "d", Some(20.0), Some(22.0), Some(5), "p", "Activo")
    ];
    assert ps[1..][1..] == [];
    assert SumStock(ps) == 8;
    assert SumMargin(ps) == 7.0;
  }

  // ---------------------------------------------------------------------
  // List updates after create, update and delete
  // ---------------------------------------------------------------------

  /** The `cod`s of a list, in order. */
  function Cods(ps: seq<Producto>): (cs: seq<int>)
    ensures |cs| == |ps|
    ensures forall i :: 0 <= i < |ps| ==> cs[i] == ps[i].cod
  {
    seq(|ps|, i requires 0 <= i < |ps| => ps[i].cod)
  }

  /** `prev.map(item => item.cod === r.cod ? r : item)`. */
  function ReplaceByCod(ps: seq<Producto>, r: Producto): (out: seq<Producto>)
    ensures |out| == |ps|
  {
    if ps == [] then []
    else [if ps[0].cod == r.cod then r else ps[0]] + ReplaceByCod(ps[1..], r)
  }

  /**
   * After an update every entry with the returned `cod` is the returned
   * record and every other entry is as it was, at the same position.
   */
  lemma {:induction false} ReplaceByCodAt(ps: seq<Producto>, r: Producto, i: nat)
    requires i < |ps|
    ensures ReplaceByCod(ps, r)[i] == (if ps[i].cod == r.cod then r else ps[i])
  {
    if i > 0 {
      ReplaceByCodAt(ps[1..], r, i - 1);
    }
  }

  /** An update keeps the sequence of `cod`s, so the list order is unchanged. */
  lemma ReplaceKeepsCods(ps: seq<Producto>, r: Producto)
    ensures Cods(ReplaceByCod(ps, r)) == Cods(ps)
  {
    forall i | 0 <= i < |ps| ensures ReplaceByCod(ps, r)[i].cod == ps[i].cod {
      ReplaceByCodAt(ps, r, i);
    }
  }

  /** `prev.filter(item => item.cod !== c)`. */
  function RemoveByCod(ps: seq<Producto>, c: int): (out: seq<Producto>)
    ensures |out| <= |ps|
    ensures forall p :: p in out <==> p in ps && p.cod != c
  {
    if ps == [] then []
    else
      var rest := RemoveByCod(ps[1..], c);
      assert forall p :: p in ps <==> p == ps[0] || p in ps[1..];
      if ps[0].cod == c then rest else [ps[0]] + rest
  }

  /**
   * A delete keeps the survivors in their relative order: removing from a
   * concatenation is removing from each part.
   */
  lemma {:induction false} RemoveByCodConcat(a: seq<Producto>, b: seq<Producto>, c: int)
    ensures RemoveByCod(a + b, c) == RemoveByCod(a, c) + RemoveByCod(b, c)
  {
    if a == [] {
      assert a + b == b;
    } else {
      var ab := a + b;
      assert ab[0] == a[0] && ab[1..] == a[1..] + b;
      RemoveByCodConcat(a[1..], b, c);
      var x, y := RemoveByCod(a[1..], c), RemoveByCod(b, c);
      assert RemoveByCod(ab, c) == (if a[0].cod == c then [] else [a[0]]) + (x + y);
      assert RemoveByCod(a, c) == (if a[0].cod == c then [] else [a[0]]) + x;
    }
  }

  /** Removing a `cod` no entry has leaves the list as it was. */
  lemma {:induction false} RemoveAbsent(ps: seq<Producto>, c: int)
    requires forall i :: 0 <= i < |ps| ==> ps[i].cod != c
    ensures RemoveByCod(ps, c) == ps
  {
    if ps != [] {
      RemoveAbsent(ps[1..], c);
      assert ps == [ps[0]] + ps[1..];
    }
  }

  /** Deleting the same `cod` twice is deleting it once. */
  lemma RemoveIdempotent(ps: seq<Producto>, c: int)
    ensures RemoveByCod(RemoveByCod(ps, c), c) == RemoveByCod(ps, c)
  {
    var once := RemoveByCod(ps, c);
    forall i | 0 <= i < |once| ensures once[i].cod != c {
      assert once[i] in once;
    }
    RemoveAbsent(once, c);
  }

  /** No two entries share a `cod`, as in a listing of the table keyed by `cod`. */
  predicate DistinctCods(ps: seq<Producto>) {
    forall i, j :: 0 <= i < j < |ps| ==> ps[i].cod != ps[j].cod
  }

  /** An update keeps the `cod`s distinct. */
  lemma ReplaceKeepsDistinct(ps: seq<Producto>, r: Producto)
    requires DistinctCods(ps)
    ensures DistinctCods(ReplaceByCod(ps, r))
  {
    var out := ReplaceByCod(ps, r);
    ReplaceKeepsCods(ps, r);
    forall i, j | 0 <= i < j < |out| ensures out[i].cod != out[j].cod {
      assert Cods(out)[i] == Cods(ps)[i] && Cods(out)[j] == Cods(ps)[j];
    }
  }

  /** A delete keeps the `cod`s distinct. */
  lemma {:induction false} RemoveKeepsDistinct(ps: seq<Producto>, c: int)
    requires DistinctCods(ps)
    ensures DistinctCods(RemoveByCod(ps, c))
  {
    if ps != [] {
      var tail := ps[1..];
      assert DistinctCods(tail) by {
        forall i, j | 0 <= i < j < |tail| ensures tail[i].cod != tail[j].cod {
          assert tail[i] == ps[i + 1] && tail[j] == ps[j + 1];
        }
      }
      RemoveKeepsDistinct(tail, c);
      var rest := RemoveByCod(tail, c);
      if ps[0].cod != c {
        var out := [ps[0]] + rest;
        forall i, j | 0 <= i < j < |out| ensures out[i].cod != out[j].cod {
          if i == 0 {
            assert out[j] == rest[j - 1];
            assert out[j] in tail;
          } else {
            assert out[i] == rest[i - 1] && out[j] == rest[j - 1];
          }
        }
      }
    }
  }

  /**
   * With distinct `cod`s, after the server's record `r` replaces the entry
   * holding its `cod`, looking that `cod` up yields `r`.
   */
  lemma ReplaceThenFind(ps: seq<Producto>, r: Producto, k: nat)
    requires DistinctCods(ps)
    requires k < |ps| && ps[k].cod == r.cod
    ensures FindByCod(ReplaceByCod(ps, r), r.cod) == Some(r)
  {
    var out := ReplaceByCod(ps, r);
    ReplaceByCodAt(ps, r, k);
    ReplaceKeepsDistinct(ps, r);
    var found := FindByCod(out, r.cod);
    var i :| 0 <= i < |out| && out[i] == found.value && forall j :: 0 <= j < i ==> out[j].cod != r.cod;
    ReplaceByCodAt(ps, r, i);
    assert ps[i].cod == r.cod by {
      ReplaceKeepsCods(ps, r);
      assert Cods(out)[i] == Cods(ps)[i];
    }
  }

  /** `productos.find(item => item.cod === c)`: the first entry with that `cod`. */
  function FindByCod(ps: seq<Producto>, c: int): (r: Option<Producto>)
    ensures r.None? <==> forall i :: 0 <= i < |ps| ==> ps[i].cod != c
    ensures r.Some? ==> r.value.cod == c && r.value in ps
    ensures r.Some? ==>
      (exists i :: 0 <= i < |ps| && ps[i] == r.value && forall j :: 0 <= j < i ==> ps[j].cod != c)
  {
    if ps == [] then None
    else if ps[0].cod == c then Some(ps[0])
    else
      var r := FindByCod(ps[1..], c);
      assert forall i :: 1 <= i < |ps| ==> ps[i] == ps[1..][i - 1];
      if r.Some? then
        var k :| 0 <= k < |ps| - 1 && ps[1..][k] == r.value && forall j :: 0 <= j < k ==> ps[1..][j].cod != c;
        assert ps[k + 1] == r.value;
        r
      else r
  }

  // ---------------------------------------------------------------------
  // Error text
  // ---------------------------------------------------------------------

  /**
   * A failed request: the `detail` of the response body, if any, and the
   * transport error's `message`, if any.
   */
  datatype RequestError = RequestError(detail: Option<string>, message: Option<string>)

  const UnknownError: string := "Error desconocido"

  /**
   * `error.response?.data?.detail || error.message || 'Error desconocido'`:
   * the first of the two that is present and non-empty, else the fallback.
   */
  function ErrorText(e: RequestError): (t: string)
    ensures t != []
    ensures e.detail.Some? && e.detail.value != [] ==> t == e.detail.value
    ensures (e.detail.None? || e.detail.value == []) && e.message.Some? && e.message.value != [] ==>
      t == e.message.value
    ensures (e.detail.None? || e.detail.value == []) && (e.message.None? || e.message.value == []) ==>
      t == UnknownError
  {
    if e.detail.Some? && e.detail.value != [] then e.detail.value
    else if e.message.Some? && e.message.value != [] then e.message.value
    else UnknownError
  }
}
