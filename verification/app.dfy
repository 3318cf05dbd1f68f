/**
 The route handlers of the ice-cream shop API over its two in-memory
 lists: options (`/opciones`) and flavors (`/gustos`). The process-wide
 lists become an explicit `Shop` value that each request takes and
 returns; the HTTP framework is reduced to a `Request` and a `Reply`.
 */
module App {
  import opened Wrappers
  import opened Records
  import opened Deletion
  import opened Creation

  /** The two lists the server holds. */
  datatype Shop = Shop(opciones: seq<Record>, gustos: seq<Record>)

  /** The routes whose handlers have defined behaviour. */
  datatype Request =
    | GetOpciones                 // GET /opciones
    | DeleteOpciones(id: nat)     // DELETE /opciones/<id>
    | AddCantidad(body: Fields)   // POST /opciones
    | GetGustos                   // GET /gustos
    | AddGusto(body: Fields)      // POST /gustos
    | DeleteGusto(id: nat)        // DELETE /gustos/<id>

  /** What a handler hands back to the framework. */
  datatype Reply =
    | Listing(items: seq<Record>)   // a JSON array, status 200
    | Created(item: Record)         // the new record, status 201
    | Error(status: int)            // an error object with this status
    | NoReply                       // the handler falls through and returns nothing

  datatype Outcome = Outcome(shop: Shop, reply: Reply)

  /** The field a POST body must carry for each list. */
  const CantidadKey: string := "cantidad"
  const SaborKey: string := "sabor"
  const PrecioKey: string := "precio"

  /** The lists the process starts with. */
  function Seed(): Shop
  {
    Shop(
      [ Record(1, map[CantidadKey := "kilo", PrecioKey := "$20000"]),
        Record(2, map[CantidadKey := "1/2kilo", PrecioKey := "$12000"]),
        Record(3, map[CantidadKey := "1/4kilo", PrecioKey := "$7000"]),
        Record(4, map[CantidadKey := "cucurucho", PrecioKey := "$5000"]) ],
      [ Record(1, map[SaborKey := "chocolate"]),
        Record(2, map[SaborKey := "vainilla"]),
        Record(3, map[SaborKey := "frutilla"]),
        Record(4, map[SaborKey := "dulce de leche"]) ])
  }

  /**
   One request. Listing changes nothing and returns the list as it is;
   each request touches only its own list; a POST without its required
   field changes nothing (and, for options, answers 400); a POST with it
   answers with the record it appended; DELETE answers (options) with the
   renumbered list, or (flavors) with nothing.
   */
  function Handle(shop: Shop, req: Request): (r: Outcome)
    ensures req.GetOpciones? ==> r == Outcome(shop, Listing(shop.opciones))
    ensures req.GetGustos? ==> r == Outcome(shop, Listing(shop.gustos))
    ensures (req.GetOpciones? || req.DeleteOpciones? || req.AddCantidad?) ==> r.shop.gustos == shop.gustos
    ensures (req.GetGustos? || req.DeleteGusto? || req.AddGusto?) ==> r.shop.opciones == shop.opciones
    ensures req.AddCantidad? && CantidadKey !in req.body ==> r == Outcome(shop, Error(400))
    ensures req.AddCantidad? && CantidadKey in req.body ==>
      |r.shop.opciones| == |shop.opciones| + 1 && r.reply == Created(r.shop.opciones[|shop.opciones|])
    ensures req.AddGusto? ==> r.reply.NoReply? && (SaborKey !in req.body ==> r.shop == shop)
    ensures req.DeleteOpciones? ==>
      r.shop.opciones == Delete(shop.opciones, req.id) && r.reply == Listing(r.shop.opciones)
    ensures req.DeleteGusto? ==> r.shop.gustos == Delete(shop.gustos, req.id)
    ensures req.AddCantidad? ==> r.shop.opciones == AddIfPresent(shop.opciones, req.body, CantidadKey)
    ensures req.AddGusto? ==> r.shop.gustos == AddIfPresent(shop.gustos, req.body, SaborKey)
    ensures req.DeleteGusto? ==> r.reply.NoReply?
  {
    match req
    case GetOpciones => Outcome(shop, Listing(shop.opciones))
    case DeleteOpciones(k) =>
      var opciones := Delete(shop.opciones, k);
      Outcome(shop.(opciones := opciones), Listing(opciones))
    case AddCantidad(body) =>
      var opciones := AddIfPresent(shop.opciones, body, CantidadKey);
      if CantidadKey in body then
        Outcome(shop.(opciones := opciones), Created(opciones[|opciones| - 1]))
      else
        Outcome(shop, Error(400))
    case GetGustos => Outcome(shop, Listing(shop.gustos))
    case AddGusto(body) =>
      Outcome(shop.(gustos := AddIfPresent(shop.gustos, body, SaborKey)), NoReply)
    case DeleteGusto(k) =>
      Outcome(shop.(gustos := Delete(shop.gustos, k)), NoReply)
  }

  /** The state after a run of requests, one after another. */
  function Run(shop: Shop, reqs: seq<Request>): Shop
    decreases |reqs|
  {
    if |reqs| == 0 then shop else Run(Handle(shop, reqs[0]).shop, reqs[1..])
  }

  /** Both lists carry ids 1..N in position order, and no record keeps "id" among its fields. */
  predicate Valid(shop: Shop)
  {
    Contiguous(shop.opciones) && Contiguous(shop.gustos) &&
    NoIdField(shop.opciones) && NoIdField(shop.gustos)
  }

  lemma SeedValid()
    ensures Valid(Seed())
  {
  }

  /** Every handler keeps both lists numbered 1..N. */
  lemma {:induction false} HandlePreservesValid(shop: Shop, req: Request)
    requires Valid(shop)
    ensures Valid(Handle(shop, req).shop)
  {
    match req
    case AddCantidad(body) => AddKeepsContiguous(shop.opciones, body, CantidadKey);
    case AddGusto(body) => AddKeepsContiguous(shop.gustos, body, SaborKey);
    case _ =>
  }

  /** Starting from a valid state, any run of requests ends in a valid state. */
  lemma {:induction false} RunPreservesValid(shop: Shop, reqs: seq<Request>)
    requires Valid(shop)
    ensures Valid(Run(shop, reqs))
    decreases |reqs|
  {
    if |reqs| > 0 {
      HandlePreservesValid(shop, reqs[0]);
      RunPreservesValid(Handle(shop, reqs[0]).shop, reqs[1..]);
    }
  }

  /** Every state reachable from the seed has contiguous ids. */
  lemma {:induction false} ReachableValid(reqs: seq<Request>)
    ensures Valid(Run(Seed(), reqs))
  {
    SeedValid();
    RunPreservesValid(Seed(), reqs);
  }

  /**
   In a reachable state a POST with its field appends id N+1, and a
   DELETE of an id outside 1..N changes nothing.
   */
  lemma {:induction false} ReachableAddAndDelete(reqs: seq<Request>, body: Fields, k: nat)
    ensures var s := Run(Seed(), reqs).opciones;
      CantidadKey in body ==> Handle(Run(Seed(), reqs), AddCantidad(body)).reply.item.id == |s| + 1
    ensures var s := Run(Seed(), reqs).opciones;
      (k == 0 || k > |s|) ==> Handle(Run(Seed(), reqs), DeleteOpciones(k)).shop == Run(Seed(), reqs)
  {
    var shop := Run(Seed(), reqs);
    ReachableValid(reqs);
    MaxIdOfContiguous(shop.opciones);
    if k == 0 || k > |shop.opciones| {
      DeleteAbsentIsNoop(shop.opciones, k);
    }
  }

  /** DELETE /opciones/2 on the seed leaves kilo, 1/4kilo, cucurucho as 1, 2, 3. */
  lemma ScenarioDeleteSecondOption()
    ensures Handle(Seed(), DeleteOpciones(2)).shop.opciones ==
      [ Record(1, map[CantidadKey := "kilo", PrecioKey := "$20000"]),
        Record(2, map[CantidadKey := "1/4kilo", PrecioKey := "$7000"]),
        Record(3, map[CantidadKey := "cucurucho", PrecioKey := "$5000"]) ]
  {
    var s := Seed().opciones;
    assert s[1].id == 2;
    assert FirstIndex(s, 2) == Some(1);
  }

  /** POST /gustos with sabor "menta" on the seed appends flavor 5. */
  lemma ScenarioAddMenta()
    ensures Handle(Seed(), AddGusto(map[SaborKey := "menta"])).shop.gustos ==
      Seed().gustos + [Record(5, map[SaborKey := "menta"])]
  {
    MaxIdOfContiguous(Seed().gustos);
    assert map[SaborKey := "menta"] - {IdKey} == map[SaborKey := "menta"];
  }

  /** POST /opciones with an empty body is refused with 400. */
  lemma ScenarioEmptyOption()
    ensures Handle(Seed(), AddCantidad(map[])) == Outcome(Seed(), Error(400))
  {
  }
}
