/** Request validation and the create / find / update / delete flow of the
    transaction endpoints (backend/controllers/transaction.py). A raised
    `HTTPException` becomes an `Err` response; the item table is the set of
    item ids that exist. */
module TransactionController {
  import opened Wrappers
  import opened TransactionRepository
  import opened Strings

  /** The body of a create or update request. */
  datatype TransactionRequest = TransactionRequest(
    itemId: int,
    orderType: string,
    description: string,
    createAt: Timestamp,
    amount: real,
    price: Option<real>)

  datatype HttpError = HttpError(status: int, detail: string)

  datatype Response<T> = Ok(body: T) | Err(error: HttpError)

  /** The 204 reply to a delete: its status and its body. */
  datatype Deleted = Deleted(status: int, message: string, id: int)

  const BadRequest := 400
  const NotFound := 404
  const NoContent := 204

  const NegativePrice := HttpError(BadRequest, "O preço não pode ser negativo")
  const EmptyField := HttpError(BadRequest, "Campo obrigatório vazio")
  const NonPositiveAmount := HttpError(BadRequest, "A quantidade deve ser maior que zero")
  const ItemNotFound := HttpError(BadRequest, "Item não encontrado")
  const TransactionNotFound := HttpError(NotFound, "Transação não encontrada")

  /** `default_validators`: the guards in order, the first one that fails
      deciding the error. */
  function DefaultValidators(req: TransactionRequest, itemIds: set<int>): (r: Option<HttpError>)
    ensures r.None? <==>
              && (req.price.None? || req.price.value >= 0.0)
              && req.orderType != "" && req.description != ""
              && req.amount > 0.0 && req.itemId in itemIds
    ensures r.Some? ==> r.value.status == BadRequest
    ensures r == Some(NegativePrice) <==> req.price.Some? && req.price.value < 0.0
    ensures r == Some(EmptyField) <==>
              && (req.price.None? || req.price.value >= 0.0)
              && (req.orderType == "" || req.description == "")
    ensures r == Some(NonPositiveAmount) <==>
              && (req.price.None? || req.price.value >= 0.0)
              && req.orderType != "" && req.description != ""
              && req.amount <= 0.0
    ensures r == Some(ItemNotFound) <==>
              && (req.price.None? || req.price.value >= 0.0)
              && req.orderType != "" && req.description != ""
              && req.amount > 0.0 && req.itemId !in itemIds
  {
    // `request.price and request.price < 0`: a missing or zero price is never checked
    if req.price.Some? && req.price.value != 0.0 && req.price.value < 0.0 then Some(NegativePrice)
    else if req.orderType == "" then Some(EmptyField)
    else if req.description == "" then Some(EmptyField)
    else if req.amount <= 0.0 then Some(NonPositiveAmount)
    else if req.itemId !in itemIds then Some(ItemNotFound)
    else None
  }

  /** `Transaction(**request.model_dump())`, with an id for an update. */
  function ToTransaction(req: TransactionRequest, id: Option<int>): Transaction {
    Transaction(id, req.itemId, req.orderType, req.description, req.createAt, req.amount, req.price)
  }

  /** `create`: a valid request is stored as exactly one new record under a
      fresh id, and that record is returned; an invalid one is refused with
      its guard's error and nothing is stored. */
  method Create(db: TransactionStore, itemIds: set<int>, req: TransactionRequest) returns (r: Response<Transaction>)
    requires db.Valid()
    modifies db
    ensures db.Valid()
    ensures DefaultValidators(req, itemIds).Some? ==>
              r == Err(DefaultValidators(req, itemIds).value) && db.records == old(db.records)
    ensures DefaultValidators(req, itemIds).None? ==>
              && r.Ok? && r.body.id.Some?
              && r.body == ToTransaction(req, r.body.id)
              && r.body.id.value !in old(db.records)
              && db.records == old(db.records)[r.body.id.value := r.body]
  {
    var invalid := DefaultValidators(req, itemIds);
    if invalid.Some? {
      return Err(invalid.value);
    }
    var saved := db.Save(ToTransaction(req, None));
    r := Ok(saved);
  }

  /** `find_by_id`: the stored record, or 404 when there is none. */
  method FindById(db: TransactionStore, id: int) returns (r: Response<Transaction>)
    requires db.Valid()
    ensures r.Err? <==> id !in db.records
    ensures r.Err? ==> r.error == TransactionNotFound
    ensures r.Ok? ==> r.body == db.records[id] && r.body.id == Some(id)
  {
    var found := db.FindById(id);
    if found.None? {
      return Err(TransactionNotFound);
    }
    r := Ok(found.value);
  }

  /** `delete_by_id`: 404 and no change for a missing id; otherwise the
      record is removed and only it. */
  method DeleteById(db: TransactionStore, id: int) returns (r: Response<Deleted>)
    requires db.Valid()
    modifies db
    ensures db.Valid()
    ensures id !in old(db.records) ==> r == Err(TransactionNotFound) && db.records == old(db.records)
    ensures id in old(db.records) ==>
              r == Ok(Deleted(NoContent, "Transação removida com sucesso", id)) && db.records == old(db.records) - {id}
  {
    if !db.ExistsById(id) {
      return Err(TransactionNotFound);
    }
    db.DeleteById(id);
    r := Ok(Deleted(NoContent, "Transação removida com sucesso", id));
  }

  /** `update`: the request is validated before the id is looked up, so an
      invalid request for a missing id is a 400; a valid request for a
      stored id replaces that record by the request's fields under the same
      id. */
  method Update(db: TransactionStore, itemIds: set<int>, id: int, req: TransactionRequest) returns (r: Response<Transaction>)
    requires db.Valid()
    modifies db
    ensures db.Valid()
    ensures DefaultValidators(req, itemIds).Some? ==>
              r == Err(DefaultValidators(req, itemIds).value) && db.records == old(db.records)
    ensures DefaultValidators(req, itemIds).None? && id !in old(db.records) ==>
              r == Err(TransactionNotFound) && db.records == old(db.records)
    ensures DefaultValidators(req, itemIds).None? && id in old(db.records) ==>
              r == Ok(ToTransaction(req, Some(id))) && db.records == old(db.records)[id := ToTransaction(req, Some(id))]
  {
    var invalid := DefaultValidators(req, itemIds);
    if invalid.Some? {
      return Err(invalid.value);
    }
    if !db.ExistsById(id) {
      return Err(TransactionNotFound);
    }
    var saved := db.Save(ToTransaction(req, Some(id)));
    r := Ok(saved);
  }

  // ---------------------------------------------------------------------
  // Properties

  /** A price of zero or no price at all is never the reason for a refusal. */
  lemma ZeroOrMissingPriceNeverRejected(req: TransactionRequest, itemIds: set<int>)
    requires req.price.None? || req.price == Some(0.0)
    ensures DefaultValidators(req, itemIds) != Some(NegativePrice)
  {
  }

  /** Only the empty string counts as empty: fields made of white space
      alone, which `strip` would empty, pass the guards. */
  lemma WhitespaceFieldsPass(req: TransactionRequest, itemIds: set<int>)
    requires |req.orderType| > 0 && forall i :: 0 <= i < |req.orderType| ==> IsSpace(req.orderType[i])
    requires |req.description| > 0 && forall i :: 0 <= i < |req.description| ==> IsSpace(req.description[i])
    requires req.amount > 0.0 && req.itemId in itemIds && (req.price.None? || req.price.value >= 0.0)
    ensures Strip(req.orderType) == "" && Strip(req.description) == ""
    ensures DefaultValidators(req, itemIds).None?
  {
    LStripPadding(req.orderType, "");
    LStripPadding(req.description, "");
    assert req.orderType + "" == req.orderType && req.description + "" == req.description;
  }

  /** Every accepted request has a positive amount and names an existing
      item. */
  lemma AcceptedRequestIsSound(req: TransactionRequest, itemIds: set<int>)
    requires DefaultValidators(req, itemIds).None?
    ensures req.amount > 0.0 && req.itemId in itemIds
  {
  }

  /** The guard order in action: a request that fails every guard is
      refused for its price. */
  lemma FirstGuardWins(req: TransactionRequest)
    requires req.price == Some(-1.0) && req.orderType == "" && req.description == "" && req.amount == 0.0
    ensures DefaultValidators(req, {}) == Some(NegativePrice)
  {
  }
}
