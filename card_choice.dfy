/** The subscription card choice: which saved card a customer wants charged for one
    subscription. The table holds at most one row per (customer, subscription). */
module CardChoice {
  import opened Php
  import opened Host

  datatype Choice = Choice(id: string, customerId: string, subscriptionId: string, squareCardId: string)

  /** The `square_subscription_card_choice` table, in search order. */
  class ChoiceRepository {
    var rows: seq<Choice>

    constructor ()
      ensures rows == []
    {
      rows := [];
    }

    /** The primary key and the unique key on (customer, subscription). */
    ghost predicate Valid()
      reads this
    {
      Unique(rows)
    }

    /** The search on customer and subscription, `->first()`. */
    function Find(customerId: string, subscriptionId: string): (r: Option<nat>)
      reads this
      ensures r.Some? ==>
        && r.value < |rows|
        && rows[r.value].customerId == customerId && rows[r.value].subscriptionId == subscriptionId
      ensures r.None? <==> forall i :: 0 <= i < |rows| ==>
        rows[i].customerId != customerId || rows[i].subscriptionId != subscriptionId
    {
      FirstWhere(rows, (c: Choice) => c.customerId == customerId && c.subscriptionId == subscriptionId)
    }

    /** The row holding a primary key, if any. */
    function RowWithId(id: string): (r: Option<nat>)
      reads this
      ensures r.Some? ==> r.value < |rows| && rows[r.value].id == id
      ensures r.None? <==> forall i :: 0 <= i < |rows| ==> rows[i].id != id
    {
      FirstWhere(rows, (c: Choice) => c.id == id)
    }

    /** upsert by primary key: the row with the same id is overwritten in place, a
        new id is appended. */
    method Upsert(c: Choice)
      modifies this
      ensures old(RowWithId(c.id)).Some? ==> rows == old(rows)[old(RowWithId(c.id)).value := c]
      ensures old(RowWithId(c.id)).None? ==> rows == old(rows) + [c]
    {
      var existing := RowWithId(c.id);
      if existing.Some? {
        rows := rows[existing.value := c];
      } else {
        rows := rows + [c];
      }
    }
  }

  ghost predicate Unique(rows: seq<Choice>) {
    && (forall i, j :: 0 <= i < j < |rows| ==> rows[i].id != rows[j].id)
    && (forall i, j :: 0 <= i < j < |rows| ==>
          rows[i].customerId != rows[j].customerId || rows[i].subscriptionId != rows[j].subscriptionId)
  }

  /** Overwriting a row with one of the same keys keeps both keys unique. */
  lemma OverwriteKeepsUnique(rows: seq<Choice>, i: nat, c: Choice)
    requires Unique(rows) && i < |rows|
    requires rows[i].id == c.id && rows[i].customerId == c.customerId && rows[i].subscriptionId == c.subscriptionId
    ensures Unique(rows[i := c])
  {
  }

  /** Appending a row with a fresh id and a fresh (customer, subscription) pair keeps
      both keys unique. */
  lemma AppendKeepsUnique(rows: seq<Choice>, c: Choice)
    requires Unique(rows)
    requires forall i :: 0 <= i < |rows| ==> rows[i].id != c.id
    requires forall i :: 0 <= i < |rows| ==> rows[i].customerId != c.customerId || rows[i].subscriptionId != c.subscriptionId
    ensures Unique(rows + [c])
  {
  }

  /** The JSON response with its HTTP status. */
  datatype Response = Response(code: int, body: Fields)

  function Refused(code: int, message: string): Response {
    Response(code, map["success" := Bool(false), "message" := Str(message)])
  }

  /** `(string) $request->request->get($key)`: the input bag refuses a non-scalar
      value with an exception; null reads as ''. */
  function RequestString(v: Value): (r: Outcome<string>)
    ensures r.Thrown? <==> IsArray(v)
    ensures v.Str? ==> r == Ok(v.s)
    ensures v == Null ==> r == Ok("")
  {
    if IsArray(v) then Thrown("BadRequestException") else Ok(ToStr(v))
  }

  /** The write of save: the pair's existing row keeps its id and takes the card, or
      a row with the fresh id is added; afterwards the search finds the card. */
  method StoreChoice(repo: ChoiceRepository, customerId: string, subscriptionId: string, cardId: string,
                     freshId: string)
    requires repo.Valid()
    requires forall i :: 0 <= i < |repo.rows| ==> repo.rows[i].id != freshId
    modifies repo
    ensures repo.Valid()
    ensures repo.Find(customerId, subscriptionId).Some?
    ensures repo.rows[repo.Find(customerId, subscriptionId).value].squareCardId == cardId
    ensures match old(repo.Find(customerId, subscriptionId))
      case Some(i) => repo.rows == old(repo.rows)[i := Choice(old(repo.rows)[i].id, customerId, subscriptionId, cardId)]
      case None => repo.rows == old(repo.rows) + [Choice(freshId, customerId, subscriptionId, cardId)]
  {
    var existing := repo.Find(customerId, subscriptionId);
    var id := if existing.Some? then repo.rows[existing.value].id else freshId;
    var choice := Choice(id, customerId, subscriptionId, cardId);
    ghost var before := repo.rows;
    if existing.Some? {
      assert repo.RowWithId(id) == existing;
    }
    repo.Upsert(choice);
    if existing.Some? {
      OverwriteKeepsUnique(before, existing.value, choice);
      assert repo.rows[existing.value] == choice;
      assert repo.Find(customerId, subscriptionId) == existing;
    } else {
      AppendKeepsUnique(before, choice);
      assert repo.rows[|before|] == choice;
      assert repo.Find(customerId, subscriptionId) == Some(|before|);
    }
  }

  /** save. `freshId` is the random hex id a new row would get. */
  method Save(repo: ChoiceRepository, customer: Option<string>, subscriptionArg: Value, cardArg: Value,
              freshId: string)
    returns (r: Outcome<Response>)
    requires repo.Valid()
    requires forall i :: 0 <= i < |repo.rows| ==> repo.rows[i].id != freshId
    modifies repo
    ensures repo.Valid()
    ensures customer.None? ==> r == Ok(Refused(401, "Not authenticated")) && repo.rows == old(repo.rows)
    ensures customer.Some? && (IsArray(subscriptionArg) || IsArray(cardArg)) ==>
      r.Thrown? && repo.rows == old(repo.rows)
    ensures customer.Some? && !IsArray(subscriptionArg) && !IsArray(cardArg) ==>
      var subscriptionId := ToStr(subscriptionArg);
      var cardId := ToStr(cardArg);
      && (!IsUuid(subscriptionId) ==> r == Ok(Refused(400, "Invalid subscriptionId")) && repo.rows == old(repo.rows))
      && (IsUuid(subscriptionId) && cardId == "" ==>
            r == Ok(Refused(400, "Missing cardId")) && repo.rows == old(repo.rows))
      && (IsUuid(subscriptionId) && cardId != "" ==>
            && r == Ok(Response(200, map["success" := Bool(true)]))
            && repo.Find(customer.value, subscriptionId).Some?
            && repo.rows[repo.Find(customer.value, subscriptionId).value].squareCardId == cardId
            && match old(repo.Find(customer.value, subscriptionId))
               case Some(i) => repo.rows == old(repo.rows)[i := Choice(old(repo.rows)[i].id, customer.value, subscriptionId, cardId)]
               case None => repo.rows == old(repo.rows) + [Choice(freshId, customer.value, subscriptionId, cardId)])
  {
    if customer.None? {
      return Ok(Refused(401, "Not authenticated"));
    }
    var subscriptionId := RequestString(subscriptionArg);
    if subscriptionId.Thrown? {
      return Thrown(subscriptionId.error);
    }
    var cardId := RequestString(cardArg);
    if cardId.Thrown? {
      return Thrown(cardId.error);
    }
    if !IsUuid(subscriptionId.value) {
      return Ok(Refused(400, "Invalid subscriptionId"));
    }
    if cardId.value == "" {
      return Ok(Refused(400, "Missing cardId"));
    }
    StoreChoice(repo, customer.value, subscriptionId.value, cardId.value, freshId);
    r := Ok(Response(200, map["success" := Bool(true)]));
  }
}
