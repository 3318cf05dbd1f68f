# Ice-cream shop API: list handlers

A model of the route handlers of a small Flask API for a fictional
ice-cream shop. The server holds two in-memory lists: options
(`opciones`, records with `id`, `cantidad` and `precio`) and flavors
(`gustos`, records with `id` and `sabor`). The handlers list them,
append to them and delete from them. All of the logic is list work:

- **Delete, then renumber.** Remove the first record whose `id` matches.
  Then rewrite every id to its 1-based position.
- **Create with max+1.** If the body carries the required field, the body
  becomes a record with id = (largest id, or 0) + 1, appended at the end.
- **List.** Return the list as it is.

Both kinds of record are a JSON object with an integer id and string
fields, so one `Records.Record` (id plus a `map<string, string>` of the
other fields) serves both lists. The process-wide lists become an explicit
`App.Shop` value that `App.Handle` takes and returns.

Modules:

- `wrappers.dfy`, `Wrappers`: `Option`.
- `records.dfy`, `Records`: the record, `HasId`, `Contiguous` (ids are 1..N
  in position order), `NoIdField` (no record keeps "id" among its other
  fields), `Payloads` (the non-id fields of every record, in order), `MaxId`.
- `delete.dfy`, `Deletion`: first-match removal, renumbering, and the
  DELETE handler in two forms. `Delete` is functional. `RemoveLoop`,
  `RenumberLoop` and `DeleteLoop` mirror the handler's two loops and are
  proved equal to the functional definitions.
- `create.dfy`, `Creation`: the fresh id and the POST handler's effect on a
  list.
- `app.dfy`, `App`: the seed lists, requests, replies, `Handle`, and the
  invariant that every reachable state has contiguous ids.

Facts about the handlers that the model keeps as written:

- DELETE /opciones of an absent id answers 200 with the list, although
  the docstring lists a 404 (app.py:67-68). Nothing is removed,
  but the list is still renumbered. In every reachable state it is already
  numbered 1..N, so it comes back unchanged (`App.ReachableAddAndDelete`).
  DELETE /gustos answers nothing (see the next item), although its
  docstring also lists a 404 (app.py:224-225).
- `add_gusto` and `delete_gusto` fall through and return None
  (app.py:202, app.py:235). The model records this as `App.NoReply`.
- No handler with defined behaviour breaks the 1..N numbering:
  `App.ReachableValid` proves that every state reachable from the seed
  lists has both lists numbered 1..N, and that no record carries "id"
  among its other fields.

`list.remove(x)` in Python drops the first element *equal* to `x`. Here
`x` is the first record whose id matches, so no earlier record can equal
it. The element dropped is therefore the matched one, which is what
`Deletion.RemoveFirst` states.

## Model

| member | source | states |
|---|---|---|
| Records.MaxId | app.py:148 | the result bounds every id, is one of the ids when the list is non-empty, and is 0 on an empty list (`max(..., default=0)`) |
| Records.MaxIdOfContiguous | app.py:148 | on a list numbered 1..N the largest id is N |
| Deletion.FirstIndex | app.py:72-73 | the scan finds a position exactly when some record has the id; that record has the id and no earlier one does |
| Deletion.RemoveFirst | app.py:72-75 | with the id present, exactly the first matching record is removed and the rest keep their order; with it absent, the list is unchanged |
| Deletion.RenumberFrom | app.py:77-78 | record i gets id start+i; length and non-id fields are kept |
| Deletion.Renumber | app.py:77-78 | after `enumerate(..., start=1)` the ids are 1..N in position order and the payloads are unchanged |
| Deletion.RenumberContiguous | app.py:77-78 | renumbering a list already numbered 1..N returns it unchanged |
| Deletion.Delete | app.py:72-79 | the result is numbered 1..N; if the id is present, the length drops by one and the survivors keep order and fields around the first match; if absent, length and fields are kept (also app.py:229-235) |
| Deletion.DeleteAbsentIsNoop | app.py:72-79 | deleting an absent id from a contiguous list returns the same list |
| Deletion.DeleteUnchangedIff | app.py:72-79 | on a contiguous list, delete leaves the list unchanged if and only if no record has the id |
| Deletion.DeleteContiguousPosition | app.py:72-78 | on a contiguous list, deleting k drops the k-th record's payload and keeps all others in order |
| Deletion.RemoveLoop | app.py:72-75 | the scan-remove-break loop computes exactly `RemoveFirst` |
| Deletion.RenumberLoop | app.py:77-78 | the `enumerate` loop computes exactly `Renumber` |
| Deletion.DeleteLoop | app.py:72-78 | the two loops one after the other compute exactly `Delete` |
| Creation.NextId | app.py:148 | the new id exceeds every existing id, is 1 on an empty list, and is otherwise one more than an existing id |
| Creation.FromBody | app.py:149 | the record has the assigned id; a client-supplied "id" is dropped; every other body field is kept as given and nothing is added |
| Creation.AddIfPresent | app.py:147-150 | without the required field the list is unchanged; with it, one record is appended, earlier records are untouched, its id is fresh (max+1) and its fields are the body's (also app.py:199-202) |
| Creation.AddKeepsContiguous | app.py:147-150 | appending to a list numbered 1..N keeps it numbered 1..N |
| App.Handle | app.py:37-235 | listing returns the current list and changes nothing; every request touches only its own list; DELETE sets its list to `Delete` of it; POST sets its list to `AddIfPresent` of it; POST /opciones without `cantidad` answers 400 and changes nothing; with it, it answers with the appended record; POST /gustos without `sabor` changes nothing; DELETE /opciones answers with the renumbered list; the flavor POST and DELETE answer nothing |
| App.SeedValid | app.py:17-29 | the seed lists are numbered 1..4 and no seed record holds "id" among its fields |
| App.HandlePreservesValid | app.py:54-235 | every handler keeps both lists numbered 1..N with no "id" among any record's fields |
| App.RunPreservesValid | app.py:54-235 | any sequence of requests keeps both lists numbered 1..N with no "id" among any record's fields |
| App.ReachableValid | app.py:17-235 | every state reachable from the seed has both lists numbered 1..N, and each record corresponds to exactly one JSON object (no "id" among its fields) |
| App.ReachableAddAndDelete | app.py:72-150 | in a reachable state, POST /opciones appends id N+1, and DELETE /opciones of an id outside 1..N changes nothing |
| App.ScenarioDeleteSecondOption | app.py:17-79 | DELETE /opciones/2 on the seed leaves kilo, 1/4kilo and cucurucho numbered 1, 2, 3 |
| App.ScenarioAddMenta | app.py:198-202 | POST /gustos with sabor "menta" on the seed appends flavor 5 "menta" |
| App.ScenarioEmptyOption | app.py:146-153 | POST /opciones with an empty body answers 400 and changes nothing |

## Left out

- `update_cantidad` (PUT /opciones/<id>, app.py:113-117): it loops over the undefined name `cantidades`, so every call raises `NameError`. It has no defined behaviour to model.
- Flask routing, `jsonify`, `request.get_json`, the Swagger template and `app.run` (app.py:1-15, app.py:237-238): framework plumbing. The `<int:...>` route converter (app.py:53, app.py:210) only matches non-negative digits, so the DELETE requests carry a `nat` id; the 404 Flask gives a non-matching path is not modelled. A request body is a `map<string, string>`. Non-object bodies, non-string JSON values and body-parsing failures are not modelled.
- What Flask does with a handler that returns nothing: `App.NoReply` records only that `add_gusto` and `delete_gusto` return nothing.
- The 404 responses in the delete handlers' docstrings (app.py:67-68, app.py:224-225): the code never produces them, so the model does not either.
- The error message text of the options POST (app.py:153), which names the wrong field: only the 400 status is modelled.
- The global mutable lists and races between concurrent requests: state is passed in and returned, one request at a time.
