/**
 * The stateful part of the React console: the component's state and the
 * event handlers that send a request to the API and then update that state
 * from the outcome. The request itself is not performed here: each handler
 * reports the request it issues and receives the outcome the API gave as a
 * parameter.
 */
module Console {
  import opened Wrappers
  import opened Inventory

  /** The `type` of the status banner. */
  datatype Kind = Idle | Success | Error

  datatype Status = Status(kind: Kind, message: string)

  /** What a request produced: the response's `data`, or the error `catch` received. */
  datatype Outcome<T> = Ok(data: T) | Failed(failure: RequestError)

  /** The request a handler sends to the API. */
  datatype Request =
    | ListAll                         // GET /productos
    | Fetch(id: string)               // GET /productos/{id}
    | Create(body: Payload)           // POST /productos
    | Update(cod: int, body: Payload) // PUT /productos/{cod}
    | Remove(cod: int)                // DELETE /productos/{cod}

  const Loaded: string := "Productos cargados."
  const LoadFailed: string := "No se pudo cargar: "
  const Created: string := "Producto creado."
  const CreateFailed: string := "No se pudo crear: "
  const Updated: string := "Producto actualizado."
  const UpdateFailed: string := "No se pudo actualizar: "
  const Removed: string := "Producto eliminado."
  const RemoveFailed: string := "No se pudo eliminar: "
  const Found: string := "Producto encontrado."
  const NotFound: string := "No encontrado: "
  const NothingSelected: string := "Selecciona un producto para editar."
  const NoSearchId: string := "Introduce un ID para buscar."

  /** The status banner after a failed request: the handler's prefix and the error text. */
  function ErrorStatus(prefix: string, e: RequestError): (s: Status)
    ensures s.kind == Error
    ensures |s.message| > |prefix| && s.message[..|prefix|] == prefix
    ensures s.message[|prefix|..] == ErrorText(e)
  {
    Status(Error, prefix + ErrorText(e))
  }

  /** `Array.isArray(response.data) ? response.data : []`: `None` is a body that is not a list. */
  function ListOf(data: Option<seq<Producto>>): seq<Producto> {
    if data.Some? then data.value else []
  }

  /** `!editForm.cod`: nothing selected, or the falsy `cod` 0. */
  predicate NoSelection(e: EditForm) {
    e.cod.None? || e.cod.value == 0
  }

  class App {
    var productos: seq<Producto>
    var loading: bool
    var status: Status
    var createForm: Form
    var editForm: EditForm
    var searchId: string
    var searchResult: Option<Producto>

    /** The initial state of every `useState`. */
    constructor ()
      ensures productos == [] && !loading && status == Status(Idle, "")
      ensures createForm == EmptyForm && editForm == EmptyEditForm
      ensures searchId == [] && searchResult == None
    {
      productos := [];
      loading := false;
      status := Status(Idle, "");
      createForm := EmptyForm;
      editForm := EmptyEditForm;
      searchId := [];
      searchResult := None;
    }

    /**
     * `loadProductos`: lists the products; on success the list is replaced
     * by the response (or emptied when the body is not a list), on failure
     * it is kept and the error is reported.
     */
    method LoadProductos(response: Outcome<Option<seq<Producto>>>) returns (issued: Request)
      modifies this
      ensures issued == ListAll
      ensures !loading
      ensures response.Ok? ==> productos == ListOf(response.data) && status == Status(Kind.Success, Loaded)
      ensures response.Failed? ==>
        productos == old(productos) && status == ErrorStatus(LoadFailed, response.failure)
      ensures createForm == old(createForm) && editForm == old(editForm)
      ensures searchId == old(searchId) && searchResult == old(searchResult)
    {
      loading := true;
      issued := ListAll;
      match response {
        case Ok(data) =>
          productos := ListOf(data);
          status := Status(Kind.Success, Loaded);
        case Failed(e) =>
          status := ErrorStatus(LoadFailed, e);
      }
      loading := false;
    }

    /**
     * `handleCreate`: posts the normalized create draft; on success the
     * created record goes to the front of the list and the draft is
     * cleared, on failure list and draft are kept.
     */
    method HandleCreate(response: Outcome<Producto>) returns (issued: Request)
      modifies this
      ensures issued == Create(NormalizePayload(old(createForm)))
      ensures !loading
      ensures response.Ok? ==>
        && productos == [response.data] + old(productos)
        && createForm == EmptyForm
        && status == Status(Kind.Success, Created)
      ensures response.Failed? ==>
        && productos == old(productos)
        && createForm == old(createForm)
        && status == ErrorStatus(CreateFailed, response.failure)
      ensures response.Ok? && DistinctCods(old(productos)) && response.data.cod !in Cods(old(productos)) ==>
        DistinctCods(productos)
      ensures editForm == old(editForm) && searchId == old(searchId) && searchResult == old(searchResult)
    {
      loading := true;
      issued := Create(NormalizePayload(createForm));
      match response {
        case Ok(data) =>
          productos := [data] + productos;
          createForm := EmptyForm;
          status := Status(Kind.Success, Created);
        case Failed(e) =>
          status := ErrorStatus(CreateFailed, e);
      }
      loading := false;
    }

    /**
     * `handleEditSubmit`: with nothing selected it only reports so;
     * otherwise it puts the normalized edit draft to the selected `cod`, and
     * on success the returned record replaces every entry with its `cod`
     * and the draft is cleared.
     */
    method HandleEditSubmit(response: Outcome<Producto>) returns (issued: Option<Request>)
      modifies this
      ensures NoSelection(old(editForm)) ==>
        && issued == None
        && status == Status(Error, NothingSelected)
        && loading == old(loading)
        && productos == old(productos) && editForm == old(editForm)
      ensures !NoSelection(old(editForm)) ==>
        && issued == Some(Update(old(editForm).cod.value, NormalizePayload(old(editForm).fields)))
        && !loading
      ensures !NoSelection(old(editForm)) && response.Ok? ==>
        && productos == ReplaceByCod(old(productos), response.data)
        && editForm == EmptyEditForm
        && status == Status(Kind.Success, Updated)
      ensures !NoSelection(old(editForm)) && response.Failed? ==>
        && productos == old(productos) && editForm == old(editForm)
        && status == ErrorStatus(UpdateFailed, response.failure)
      ensures DistinctCods(old(productos)) ==> DistinctCods(productos)
      ensures Cods(productos) == Cods(old(productos))
      ensures createForm == old(createForm) && searchId == old(searchId) && searchResult == old(searchResult)
    {
      if NoSelection(editForm) {
        status := Status(Error, NothingSelected);
        return None;
      }
      loading := true;
      issued := Some(Update(editForm.cod.value, NormalizePayload(editForm.fields)));
      match response {
        case Ok(data) =>
          ReplaceKeepsCods(productos, data);
          if DistinctCods(productos) {
            ReplaceKeepsDistinct(productos, data);
          }
          productos := ReplaceByCod(productos, data);
          editForm := EmptyEditForm;
          status := Status(Kind.Success, Updated);
        case Failed(e) =>
          status := ErrorStatus(UpdateFailed, e);
      }
      loading := false;
    }

    /**
     * `handleDelete`: unless the user confirms nothing happens; otherwise
     * it deletes `productoId`, and on success every entry with that `cod`
     * leaves the list, the others keeping their order.
     */
    method HandleDelete(productoId: int, confirmed: bool, response: Outcome<()>) returns (issued: Option<Request>)
      modifies this
      ensures !confirmed ==>
        && issued == None
        && productos == old(productos) && loading == old(loading) && status == old(status)
      ensures confirmed ==> issued == Some(Remove(productoId)) && !loading
      ensures confirmed && response.Ok? ==>
        && productos == RemoveByCod(old(productos), productoId)
        && (forall i :: 0 <= i < |productos| ==> productos[i].cod != productoId)
        && status == Status(Kind.Success, Removed)
      ensures confirmed && response.Failed? ==>
        productos == old(productos) && status == ErrorStatus(RemoveFailed, response.failure)
      ensures DistinctCods(old(productos)) ==> DistinctCods(productos)
      ensures createForm == old(createForm) && editForm == old(editForm)
      ensures searchId == old(searchId) && searchResult == old(searchResult)
    {
      if !confirmed {
        return None;
      }
      loading := true;
      issued := Some(Remove(productoId));
      match response {
        case Ok(_) =>
          if DistinctCods(productos) {
            RemoveKeepsDistinct(productos, productoId);
          }
          productos := RemoveByCod(productos, productoId);
          forall i | 0 <= i < |productos| ensures productos[i].cod != productoId {
            assert productos[i] in productos;
          }
          status := Status(Kind.Success, Removed);
        case Failed(e) =>
          status := ErrorStatus(RemoveFailed, e);
      }
      loading := false;
    }

    /**
     * `handleSearch`: with an empty id it only reports so; otherwise it
     * fetches that id and shows the record found, or clears the result.
     */
    method HandleSearch(response: Outcome<Producto>) returns (issued: Option<Request>)
      modifies this
      ensures old(searchId) == [] ==>
        && issued == None
        && status == Status(Error, NoSearchId)
        && loading == old(loading) && searchResult == old(searchResult)
      ensures old(searchId) != [] ==> issued == Some(Fetch(old(searchId))) && !loading
      ensures old(searchId) != [] && response.Ok? ==>
        searchResult == Some(response.data) && status == Status(Kind.Success, Found)
      ensures old(searchId) != [] && response.Failed? ==>
        searchResult == None && status == ErrorStatus(NotFound, response.failure)
      ensures productos == old(productos) && createForm == old(createForm)
      ensures editForm == old(editForm) && searchId == old(searchId)
    {
      if searchId == [] {
        status := Status(Error, NoSearchId);
        return None;
      }
      loading := true;
      issued := Some(Fetch(searchId));
      match response {
        case Ok(data) =>
          searchResult := Some(data);
          status := Status(Kind.Success, Found);
        case Failed(e) =>
          searchResult := None;
          status := ErrorStatus(NotFound, e);
      }
      loading := false;
    }

    /** `startEdit`: the edit draft becomes the product's values, selecting its `cod`. */
    method StartEdit(p: Producto)
      modifies this
      ensures editForm == EditFormOf(p)
      ensures productos == old(productos) && loading == old(loading) && status == old(status)
      ensures createForm == old(createForm) && searchId == old(searchId) && searchResult == old(searchResult)
    {
      editForm := EditFormOf(p);
    }

    /**
     * `handleEditSelect`: choosing the placeholder (0) clears the edit
     * draft; choosing a `cod` loads the first product holding it, and a
     * `cod` no longer in the list leaves the draft as it was.
     */
    method HandleEditSelect(selectedId: int)
      modifies this
      ensures selectedId == 0 ==> editForm == EmptyEditForm
      ensures selectedId != 0 && FindByCod(old(productos), selectedId).Some? ==>
        editForm == EditFormOf(FindByCod(old(productos), selectedId).value)
      ensures selectedId != 0 && FindByCod(old(productos), selectedId).Some? ==>
        editForm.cod == Some(selectedId)
      ensures selectedId != 0 && FindByCod(old(productos), selectedId).None? ==> editForm == old(editForm)
      ensures productos == old(productos) && loading == old(loading) && status == old(status)
      ensures createForm == old(createForm) && searchId == old(searchId) && searchResult == old(searchResult)
    {
      if selectedId == 0 {
        editForm := EmptyEditForm;
        return;
      }
      var selected := FindByCod(productos, selectedId);
      if selected.Some? {
        StartEdit(selected.value);
      }
    }
  }
}
