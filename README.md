# BeautyData inventory: a verified model

BeautyData is a small inventory manager for beauty products. It has two parts:

- **The React console** (`mi-gestor-belleza/src/App.jsx`) holds the product list. It shows dashboard statistics and offers create, edit, delete and search forms.
- **The FastAPI service** (`Beauty_Data_API/app/main.py`) validates product bodies against the `ProductoBase` model and serves the `/productos` CRUD endpoints over a MySQL table.

The model is written in Dafny and split into modules:

- `Wrappers`: `Option` and `Result`.
- `Strings`: the whitespace set and `Trim`, which stands for both JavaScript `trim` and Python `strip` over the six ASCII whitespace characters, part of the whitespace both remove. It also has the decimal rendering of an id and its reading back.
- `Api` models the service:
  - `ProductoBase` validation: the field constraints checked on the text as sent, then the strip-and-reject-blank validator. Every failing field is reported, as the 422 response does.
  - `map_rows_to_productos` as a loop.
  - A `Database` class whose `table: map<int, Row>` stands for the MySQL table. The GET, POST, PUT and DELETE-by-id endpoints are its methods.
- `Inventory` models the pure parts of the console:
  - the records and drafts, `emptyForm` and `normalizePayload`;
  - the dashboard `stats`;
  - the list updates applied after create, update and delete, and the lookup by `cod`;
  - the error-text fallback chain.
- `Console` models the stateful part of the console. Class `App` holds the component state (`productos`, `loading`, `status`, the two drafts, the search id and result). Each handler is a method:
  - it receives the API's outcome as a parameter;
  - it returns the request it sends;
  - its contract states the whole new state.
- `Exchange` links the two sides: the body the console sends is what the service validates, and the record the service returns is what the console holds.

Points where the code is easy to misread; the model follows the code:

- **Update replaces every match.** A successful update replaces *every* entry whose `cod` matches the returned record. `Inventory.ReplaceThenFind` shows that, while `cod`s are distinct, this is the one entry holding that `cod`.
- **`estado` is free text.** The service accepts any non-blank `estado` of at most 20 characters and defaults it to `Activo`.
- **Empty text counts as absent in error texts.** The error text falls back past an empty `detail` or message, and finally to `Error desconocido`. A whitespace-only `detail` is shown as it is.
- **422 comes before 404 on PUT.** A PUT with an invalid body is refused with 422 even for an unknown id. FastAPI validates the body before the handler runs, although the handler's docstring lists the existence check first.

## Model

| member | source | states |
|---|---|---|
| Strings.Trim | mi-gestor-belleza/src/App.jsx:82-89 | the result has no leading or trailing whitespace, is no longer than the input, and is empty exactly when the input is all whitespace |
| Strings.TrimFrame | Beauty_Data_API/app/main.py:49-51 | the trimmed text is a contiguous slice of the input with only whitespace before and after it |
| Strings.TrimIdempotent | Beauty_Data_API/app/main.py:51 | stripping twice is stripping once |
| Strings.TrimTrimmed | Beauty_Data_API/app/main.py:51 | stripping text without surrounding whitespace leaves it unchanged |
| Strings.TrimmedNonEmptyNotBlank | Beauty_Data_API/app/main.py:49 | non-empty text without surrounding whitespace is not blank |
| Strings.NatToString | Beauty_Data_API/app/main.py:164 | the rendering is a non-empty string of decimal digits without a leading zero, and reading it back gives the number |
| Strings.IntToString | Beauty_Data_API/app/main.py:164 | the id in the 404 detail starts with `-` exactly when it is negative, and the digits after any sign read back as its magnitude with no leading zero, the canonical form `f"{n}"` writes |
| Api.ValidarNombreCategoria | Beauty_Data_API/app/main.py:45-51 | refuses exactly the empty or whitespace-only values, with the validator's error, and otherwise yields the stripped, non-empty value |
| Api.TextField | Beauty_Data_API/app/main.py:36-51 | an absent key takes its default or is `Missing`; a present one is refused as too short or too long on its raw length, and then passes through the validator, so it is accepted exactly when within limits and not blank, yielding the stripped text, non-empty and within its limit |
| Api.Amount | Beauty_Data_API/app/main.py:39-40 | a price defaults to 0 and is accepted exactly when it is at least 0 |
| Api.Quantity | Beauty_Data_API/app/main.py:41 | the stock defaults to 0 and is accepted exactly when it is at least 0 |
| Api.ErrorsIn | Beauty_Data_API/app/main.py:34-43 | the reported errors are exactly the violations of the listed fields |
| Api.PassesIffNoViolation | Beauty_Data_API/app/main.py:34-43 | a body passes exactly when none of its eight fields has a violation |
| Api.ErrorsReported | Beauty_Data_API/app/main.py:34-43 | a refused body always has at least one reported error |
| Api.Accepted | Beauty_Data_API/app/main.py:36-51 | a passing body yields a record meeting every constraint that keeps the body's values: every text stripped, both prices and the stock as sent, and 0, 0, 0 and `Activo` for absent keys |
| Api.Validate | Beauty_Data_API/app/main.py:34-51 | success exactly when no field is violated, with a record meeting every constraint that keeps the body's values (texts stripped, numbers as sent, defaults 0, 0, 0 and `Activo` for absent keys); on failure a non-empty list holding exactly each field's violation |
| Api.ValidateValid | Beauty_Data_API/app/main.py:34-51 | a record meeting every constraint passes validation unchanged |
| Api.TextFieldAccepts | Beauty_Data_API/app/main.py:45-51 | stripped, non-empty text within the limits is accepted as it is |
| Api.ValidateIdempotent | Beauty_Data_API/app/main.py:45-51 | validating the record a validation produced gives the same record |
| Api.ErrorsInStep | Beauty_Data_API/app/main.py:34-43 | errors are reported in field order: one field's error, then those of the fields after it |
| Api.MapRowsToProductos | Beauty_Data_API/app/main.py:85-108 | one record per row, in row order, each carrying the row's values with both prices as floats |
| Api.StoredRowReadsBack | Beauty_Data_API/app/main.py:203-213 | a row stored for a validated record reads back with its key and every validated value |
| Api.Database.ObtenerProducto | Beauty_Data_API/app/main.py:147-171 | 404 with `Producto con ID {id} no encontrado` for an unknown id, otherwise 200 with the mapped stored row, whose `cod` is the id |
| Api.Database.CrearProducto | Beauty_Data_API/app/main.py:174-213 | 422 for an invalid body and 500 for a falsy new id, both leaving the table unchanged; otherwise the validated record is stored under the new id and returned with 201; rows stay keyed by `cod` and valid |
| Api.Database.ActualizarProducto | Beauty_Data_API/app/main.py:216-266 | 422 for an invalid body, then 404 for an unknown id, then 500 when the update fails, all leaving the table unchanged; otherwise the row is replaced by the validated record and returned |
| Api.Database.EliminarProducto | Beauty_Data_API/app/main.py:269-302 | 404 for an unknown id and 500 when the delete fails, both leaving the table unchanged; otherwise the id is gone, every other row remains, and the response echoes the id |
| Inventory.NormalizePayload | mi-gestor-belleza/src/App.jsx:81-90 | every text is trimmed; `estado` is `Activo` exactly when it trims to nothing; an empty number box becomes 0 and a filled one keeps its number |
| Inventory.NormalizeIdempotent | mi-gestor-belleza/src/App.jsx:81-90 | normalizing a normalized payload changes nothing |
| Inventory.NormalizeEmptyForm | mi-gestor-belleza/src/App.jsx:12-21 | the untouched draft normalizes to empty texts, zero numbers and `Activo` |
| Inventory.EditFormOf | mi-gestor-belleza/src/App.jsx:169-181 | the edit draft selects the product's `cod` and holds each of its eight other fields as they are |
| Inventory.StartEditRoundTrip | mi-gestor-belleza/src/App.jsx:169-181 | submitting an untouched edit draft of a clean record sends back the record's own values |
| Inventory.ComputeStats | mi-gestor-belleza/src/App.jsx:34-48 | the empty list gives 0, 0, 0; otherwise the total is the length, the stock is the sum of stocks with a missing one as 0, and the mean margin times the length is the summed margin |
| Inventory.SumStockNonNegative | mi-gestor-belleza/src/App.jsx:38 | without negative stocks the total stock is not negative |
| Inventory.SumMarginBounds | mi-gestor-belleza/src/App.jsx:39-42 | margins within `[lo, hi]` sum to within `[n*lo, n*hi]` |
| Inventory.MeanMarginBounds | mi-gestor-belleza/src/App.jsx:43-47 | the mean margin lies between the smallest and the largest margin |
| Inventory.StatsExample | mi-gestor-belleza/src/App.jsx:34-48 | two products with stocks 3 and 5 and margins 5 and 2 give total 2, stock 8 and mean margin 3.5 |
| Inventory.ReplaceByCod | mi-gestor-belleza/src/App.jsx:119-121 | an update keeps the list's length |
| Inventory.ReplaceByCodAt | mi-gestor-belleza/src/App.jsx:119-121 | after an update each position holds the returned record if its `cod` matched and its old entry otherwise |
| Inventory.ReplaceKeepsCods | mi-gestor-belleza/src/App.jsx:119-121 | an update keeps the sequence of `cod`s, and so the order |
| Inventory.ReplaceKeepsDistinct | mi-gestor-belleza/src/App.jsx:119-121 | an update keeps the `cod`s distinct |
| Inventory.ReplaceThenFind | mi-gestor-belleza/src/App.jsx:119-121 | with distinct `cod`s, after an update the lookup of the returned `cod` finds the returned record |
| Inventory.RemoveByCod | mi-gestor-belleza/src/App.jsx:139 | a delete keeps exactly the entries whose `cod` differs, and never grows the list |
| Inventory.RemoveByCodConcat | mi-gestor-belleza/src/App.jsx:139 | removing from a concatenation removes from each part, so survivors keep their relative order |
| Inventory.RemoveAbsent | mi-gestor-belleza/src/App.jsx:139 | removing a `cod` that no entry has leaves the list as it was |
| Inventory.RemoveIdempotent | mi-gestor-belleza/src/App.jsx:139 | deleting the same `cod` twice is deleting it once |
| Inventory.RemoveKeepsDistinct | mi-gestor-belleza/src/App.jsx:139 | a delete keeps the `cod`s distinct |
| Inventory.FindByCod | mi-gestor-belleza/src/App.jsx:189 | nothing exactly when no entry has the `cod`; otherwise the first entry that has it |
| Inventory.ErrorText | mi-gestor-belleza/src/App.jsx:74 | a non-empty `detail` wins, then a non-empty message, then `Error desconocido`; the text is never empty |
| Console.ErrorStatus | mi-gestor-belleza/src/App.jsx:74-75 | an error banner whose message is the handler's prefix followed by the error text |
| Console.App.constructor | mi-gestor-belleza/src/App.jsx:24-30 | empty list, not loading, idle status, both drafts empty, no search id or result |
| Console.App.LoadProductos | mi-gestor-belleza/src/App.jsx:67-79 | lists all products; success replaces the list, with `[]` for a body that is not a list; failure keeps it and reports the error; loading ends false and the drafts and search are untouched |
| Console.App.HandleCreate | mi-gestor-belleza/src/App.jsx:92-107 | posts the normalized create draft; success prepends the returned record and resets the draft; failure keeps list and draft; distinct `cod`s stay distinct when the new `cod` is new |
| Console.App.HandleEditSubmit | mi-gestor-belleza/src/App.jsx:109-130 | with no `cod` selected (empty or 0), only reports so, with no request and `loading` untouched; otherwise puts the normalized draft to that `cod`, success replaces the matching entries and resets the draft, failure keeps both; the `cod` sequence and its distinctness are kept |
| Console.App.HandleDelete | mi-gestor-belleza/src/App.jsx:132-147 | unconfirmed: no request and nothing changes; confirmed success: no entry with the id remains and the survivors keep their order; failure keeps the list; distinctness is kept |
| Console.App.HandleSearch | mi-gestor-belleza/src/App.jsx:149-167 | an empty id only reports so, with no request; otherwise fetches the id, showing the record found or clearing the result on failure |
| Console.App.StartEdit | mi-gestor-belleza/src/App.jsx:169-181 | the edit draft becomes the product's values and selects its `cod`; nothing else changes |
| Console.App.HandleEditSelect | mi-gestor-belleza/src/App.jsx:183-193 | 0 resets the edit draft; a listed `cod` loads the first product holding it, selecting that `cod`; an unlisted `cod` changes nothing |
| Exchange.NormalizedPayloadAccepted | Beauty_Data_API/app/main.py:34-51 | a normalized draft is accepted exactly when its values meet every constraint, and is then stored unchanged (over the six ASCII whitespace characters) |
| Exchange.EmptyCreateFormRejected | mi-gestor-belleza/src/App.jsx:12-21 | the API answers the body the untouched create draft normalizes to with 422: `nombre`, `categoria` and `proveedor` too short, `descripcion` blank |
| Exchange.EmptyBodyErrors | Beauty_Data_API/app/main.py:36-51 | the body of the untouched draft fails validation with exactly those four errors, in field order |
| Exchange.EditUnchangedResubmits | mi-gestor-belleza/src/App.jsx:169-181 | opening a stored record for editing and submitting it untouched sends the stored values, which validate to the same record |

## Left out

- **HTTP and the axios client.** The HTTP transport, the axios client and its base URL (`mi-gestor-belleza/src/App.jsx:5-10`) are not modelled. Each handler returns the request it would send and takes the outcome as a parameter.
- **Overlapping requests.** Requests that overlap and complete out of order are not modelled: each handler runs to completion as one step.
- **The delete confirmation** (`window.confirm`) is a boolean parameter of `Console.App.HandleDelete`.
- **Mount-time loading.** The effect that loads the list on mount is a call of `LoadProductos` after the constructor.
- **HTML constraint validation.** The create and edit inputs carry `required`, `min="0"` and `step="0.01"` (`mi-gestor-belleza/src/App.jsx:363-448`, `mi-gestor-belleza/src/App.jsx:478-574`), and the search box `min="1"`. The browser checks these before `handleCreate`, `handleEditSubmit` or `handleSearch` runs. The model's handlers accept every draft, so it also covers drafts the browser would block.
- **UI plumbing:**
  - the theme effect, the active tab and the theme flag;
  - all JSX rendering;
  - the presentation components (`Header`, `Tabs`, `ConfirmDialog`, `AlertSuccess`, `AlertError`);
  - the `onChange` bindings that edit the drafts and the search id.
- **FastAPI wiring:** the application setup, the CORS middleware, `/ping`, `/` and `listar_productos`. The last of these is `map_rows_to_productos` over every row.
- **`app.database` is not part of this model.** The table is an abstract `map<int, Row>`. The insert's new id and the success flags of update and delete are parameters, and a fresh insert id is assumed.
- **Re-fetch failures after a write.** The 500 answers for a re-fetch that finds nothing after an insert or update cannot occur in the model, because the map always keeps the write. The code for those branches is present in the methods, unreachable.
- **Number conversion.** Exact reals stand in for floats and `Decimal` prices. This leaves out:
  - the `Decimal`-to-`float` rounding;
  - JavaScript `Number` coercion of typed text, including `NaN`;
  - integer widths.
- **Non-numeric drafts.** A draft number box is either empty (sent as 0) or holds a number.
- **Missing numbers in `startEdit`.** A record lacking a number is shown with an empty box and sent as 0. In JavaScript a `null` number is also sent as 0 (`Number(null)` is 0), but an absent one becomes `NaN` (`Number(undefined)`), which `JSON.stringify` writes as `null`, so the body carries `null` and the API refuses it with 422; the model's `None` covers both and sends 0, which is accepted.
- **Whitespace is the six ASCII whitespace characters.** JavaScript `trim` and Python `strip` each strip further characters, and their sets differ: Python `strip` also removes `\x1c`–`\x1f` and U+0085, which JavaScript `trim` keeps, and JavaScript `trim` removes U+FEFF, which Python `strip` keeps. Both also strip the Unicode spaces U+00A0, U+1680, U+2000–U+200A, U+2028, U+2029, U+202F, U+205F and U+3000, which the model treats as ordinary characters: `Trim` keeps a leading or trailing U+00A0, so a name of one non-breaking space passes `Api.TextField` in the model where the service answers 422. `Exchange.NormalizedPayloadAccepted` holds only for text whose surrounding whitespace lies in the six ASCII characters.
- **Pydantic's 422 detail** is reduced to a field and a kind of violation. JSON values of the wrong type, and the coercion Pydantic applies to them, are not modelled.
- **Non-string `detail` values.** A `detail` that is not a string (the 422 list) is shown by the console as an object rendering. The model only carries string details.
- **`response_model=Producto` re-validation.** FastAPI re-validates every outgoing record against `Producto`. A stored row that breaks a constraint, such as a blank `descripcion` left by older data, makes GET answer 500 in the service, but 200 in `Api.Database.ObtenerProducto`, which does not require `Sound()`. Rows written through the model's own endpoints always satisfy the constraints (`Api.Database.Sound`).
- **The scripts under `Beauty_Data_API/tests`** need a live database and state nothing checkable.
