/**
 * The HTTP handlers of the service. Each collection (tasks, skills) is an
 * in-memory table from identifier to stored fields, together with the order
 * in which the store returns its documents; the five handlers of a
 * collection are methods on it, each one atomic step with a status outcome.
 * The task and skill handlers differ only in their helper and in the
 * resource name used in the not-found message, so one class serves both.
 */
module Handlers {
  import opened Wrappers
  import opened ObjectIds
  import Models
  import opened Documents

  /** `to_list(1000)`: the most documents a listing returns. */
  const LIST_LIMIT := 1000

  /** Errors that reach the client as a generic server error (500). */
  datatype ServerFailure =
    | MalformedId(id: string)  // `PyObjectId(id)` raised on a string that is not an identifier
    | ImmutableId              // the store refused a `$set` that names `_id`

  datatype Response =
    | Created(record: Record)                          // 201
    | Ok(record: Record)                               // 200
    | Listed(records: seq<Record>)                     // 200
    | NoContent                                        // 204
    | NotFound(detail: string)                         // 404
    | Unprocessable(violations: seq<Models.Violation>) // 422, the body failed the schema
    | ServerError(failure: ServerFailure)              // 500

  function Status(r: Response): int {
    match r
    case Created(_) => 201
    case Ok(_) => 200
    case Listed(_) => 200
    case NoContent => 204
    case NotFound(_) => 404
    case Unprocessable(_) => 422
    case ServerError(_) => 500
  }

  /** A creation body, as the route of each collection reads it. */
  datatype Payload = TaskBody(task: Models.TaskPayload) | SkillBody(skill: Models.SkillPayload)

  /** A validated model. */
  datatype Model = TaskModel(task: Models.Task) | SkillModel(skill: Models.Skill)

  function PayloadKind(p: Payload): Kind {
    if p.TaskBody? then Tasks else Skills
  }

  function ModelKind(m: Model): Kind {
    if m.TaskModel? then Tasks else Skills
  }

  function ValidatePayload(p: Payload, now: Models.Date): (r: Result<Model, seq<Models.Violation>>)
    ensures r.Success? ==> ModelKind(r.value) == PayloadKind(p)
    ensures r.Success? <==> (match p
                             case TaskBody(t) => Models.TaskAccepted(t)
                             case SkillBody(s) => Models.SkillAccepted(s))
  {
    match p
    case TaskBody(t) =>
      (match Models.ValidateTask(t, now)
       case Success(task) => Success(TaskModel(task))
       case Failure(errors) => Failure(errors))
    case SkillBody(s) =>
      (match Models.ValidateSkill(s)
       case Success(skill) => Success(SkillModel(skill))
       case Failure(errors) => Failure(errors))
  }

  /** The resource name in a not-found message. */
  function ResourceName(kind: Kind): string {
    match kind
    case Tasks => "Task"
    case Skills => "Skill"
  }

  /** The detail of the 404 error, naming the id exactly as the client sent it. */
  function NotFoundDetail(kind: Kind, id: string): string {
    ResourceName(kind) + " " + id + " not found"
  }

  function TextOrNull(s: Option<string>): Value {
    if s.Some? then Str(s.value) else Null
  }

  /**
   * The document a validated model is stored as: every schema field, with
   * null for an optional one that is None. The identifier is not among the
   * fields: the store assigns it.
   */
  function Encode(m: Model): (f: Fields)
    ensures WellFormed(ModelKind(m), f)
  {
    match m
    case TaskModel(t) =>
      map[
        "title" := Str(t.title),
        "description" := TextOrNull(t.description),
        "date" := Time(t.date),
        "extracted_skills" := Strs(t.extractedSkills),
        "confirmed_skills" := Strs(t.confirmedSkills)]
    case SkillModel(s) =>
      map[
        "name" := Str(s.name),
        "category" := TextOrNull(s.category),
        "level" := TextOrNull(s.level)]
  }

  /**
   * The record returned for a freshly stored model shows every field of the
   * model unchanged, and its "id" is the string form of the identifier the
   * store assigned.
   */
  lemma CreatedRecord(m: Model, o: ObjectId)
    ensures WellFormed(ModelKind(m), Encode(m))
    ensures var r := View(ModelKind(m), Document(o, Encode(m)));
      && r["id"] == Str(ToString(o)) && Parse(r["id"].text) == Some(o)
      && match m
         case TaskModel(t) =>
           && r["title"] == Str(t.title)
           && r["description"] == TextOrNull(t.description)
           && r["date"] == Time(t.date)
           && r["extracted_skills"] == Strs(t.extractedSkills)
           && r["confirmed_skills"] == Strs(t.confirmedSkills)
         case SkillModel(s) =>
           && r["name"] == Str(s.name)
           && r["category"] == TextOrNull(s.category)
           && r["level"] == TextOrNull(s.level)
  {
  }

  /** The update body with every key whose value is null dropped; nothing else is filtered. */
  function DropNulls(body: Fields): (upd: Fields)
    ensures upd.Keys <= body.Keys
    ensures forall k :: k in body ==> (k in upd <==> body[k] != Null)
    ensures forall k :: k in upd ==> upd[k] == body[k]
    ensures Null !in upd.Values
  {
    map k | k in body && body[k] != Null :: body[k]
  }

  /**
   * The fields after `{"$set": upd}`: every key of `upd` takes its new value,
   * every other key keeps its old one, and no key is removed.
   */
  function Merge(fields: Fields, upd: Fields): (merged: Fields)
    ensures merged.Keys == fields.Keys + upd.Keys
    ensures forall k :: k in upd ==> merged[k] == upd[k]
    ensures forall k :: k in fields && k !in upd ==> merged[k] == fields[k]
  {
    fields + upd
  }

  /** Whether a `$set` of `upd` changes a document with `fields` (its `modified_count`). */
  predicate Changes(fields: Fields, upd: Fields) {
    exists k :: k in upd && (k !in fields || fields[k] != upd[k])
  }

  /** A `$set` changes nothing exactly when merging it leaves the fields as they were. */
  lemma ChangesIffMergeDiffers(fields: Fields, upd: Fields)
    ensures Changes(fields, upd) <==> Merge(fields, upd) != fields
  {
  }

  /** No two positions of `s` hold the same element. */
  predicate Distinct(s: seq<ObjectId>) {
    forall i, j :: 0 <= i < j < |s| ==> s[i] != s[j]
  }

  /** `s` without the element `x`, the rest in their order. */
  function Without(s: seq<ObjectId>, x: ObjectId): (r: seq<ObjectId>)
    ensures forall y :: y in r <==> y in s && y != x
    ensures Distinct(s) ==> Distinct(r)
    ensures |r| <= |s|
  {
    if s == [] then []
    else if s[0] == x then Without(s[1..], x)
    else
      var rest := Without(s[1..], x);
      assert Distinct(s) ==> s[0] !in rest && Distinct(s[1..]);
      assert forall j :: 0 < j <= |rest| ==> ([s[0]] + rest)[j] == rest[j - 1];
      [s[0]] + rest
  }

  function Min(a: int, b: int): int {
    if a <= b then a else b
  }

  class Collection {
    /** Which of the two collections this is. */
    const kind: Kind
    /** The stored documents, by identifier. */
    var table: map<ObjectId, Fields>
    /** The identifiers in the order the store returns them. */
    var order: seq<ObjectId>

    ghost predicate Valid()
      reads this
    {
      && Distinct(order)
      && (forall i :: 0 <= i < |order| ==> order[i] in table)
      && (forall o :: o in table ==> o in order)
      && (forall o :: o in table ==> WellFormed(kind, table[o]))
    }

    constructor (kind: Kind)
      ensures Valid()
      ensures this.kind == kind && table == map[] && order == []
    {
      this.kind := kind;
      table := map[];
      order := [];
    }

    // ----- the store's operations -----

    /** `find_one({"_id": o})`. */
    function FindOne(o: ObjectId): (r: Option<Fields>)
      reads this
      ensures r.Some? <==> o in table
      ensures r.Some? ==> r.value == table[o]
    {
      if o in table then Some(table[o]) else None
    }

    /** `find().to_list(limit)`: the first `limit` identifiers in store order. */
    function FindAll(limit: nat): (r: seq<ObjectId>)
      reads this
      ensures |r| <= limit && r <= order
      ensures |r| < limit ==> r == order
    {
      order[..Min(|order|, limit)]
    }

    /** `insert_one`: stores `fields` under an identifier not yet in the table. */
    method InsertOne(fields: Fields, newId: ObjectId) returns (insertedId: ObjectId)
      requires Valid() && WellFormed(kind, fields) && newId !in table
      modifies this
      ensures Valid()
      ensures insertedId == newId
      ensures table == old(table)[newId := fields] && order == old(order) + [newId]
    {
      table := table[newId := fields];
      order := order + [newId];
      insertedId := newId;
    }

    /**
     * `update_one({"_id": o}, {"$set": upd})`: the modified count, after
     * merging `upd` into the matched document; a `$set` naming `_id` on a
     * matched document fails.
     */
    method UpdateOne(o: ObjectId, upd: Fields) returns (r: Result<nat, ServerFailure>)
      requires Valid()
      modifies this
      ensures Valid() && order == old(order)
      ensures o !in old(table) ==> r == Success(0) && table == old(table)
      ensures o in old(table) && "_id" in upd ==> r == Failure(ImmutableId) && table == old(table)
      ensures o in old(table) && "_id" !in upd ==>
        && table == old(table)[o := Merge(old(table)[o], upd)]
        && r == Success(if Changes(old(table)[o], upd) then 1 else 0)
    {
      if o !in table {
        return Success(0);
      }
      if "_id" in upd {
        return Failure(ImmutableId);
      }
      ChangesIffMergeDiffers(table[o], upd);
      if Changes(table[o], upd) {
        table := table[o := Merge(table[o], upd)];
        r := Success(1);
      } else {
        assert table == table[o := Merge(table[o], upd)];
        r := Success(0);
      }
    }

    /** `delete_one({"_id": o})`: the deleted count. */
    method DeleteOne(o: ObjectId) returns (deletedCount: nat)
      requires Valid()
      modifies this
      ensures Valid()
      ensures o in old(table) ==> deletedCount == 1 && table == old(table) - {o} && order == Without(old(order), o)
      ensures o !in old(table) ==> deletedCount == 0 && table == old(table) && order == old(order)
    {
      if o in table {
        table := table - {o};
        order := Without(order, o);
        assert forall i :: 0 <= i < |order| ==> order[i] in order;
        deletedCount := 1;
      } else {
        deletedCount := 0;
      }
    }

    // ----- the handlers -----

    /**
     * POST, once the body has passed the schema: stores the model under a
     * fresh identifier, reads it back and answers 201 with its record. No
     * other document changes.
     */
    method Create(m: Model, newId: ObjectId) returns (r: Response)
      requires Valid() && ModelKind(m) == kind && newId !in table
      modifies this
      ensures Valid()
      ensures table == old(table)[newId := Encode(m)] && order == old(order) + [newId]
      ensures r == Created(View(kind, Document(newId, Encode(m)))) && Status(r) == 201
    {
      var fields := Encode(m);
      var insertedId := InsertOne(fields, newId);
      var created := FindOne(insertedId);
      r := Created(View(kind, Document(insertedId, created.value)));
    }

    /**
     * POST as the client sends it: a body that fails the schema is answered
     * 422 with its violations and nothing is stored; a body that passes is
     * created.
     */
    method Post(body: Payload, now: Models.Date, newId: ObjectId) returns (r: Response)
      requires Valid() && PayloadKind(body) == kind && newId !in table
      modifies this
      ensures Valid()
      ensures ValidatePayload(body, now).Failure? ==>
        && r == Unprocessable(ValidatePayload(body, now).error) && Status(r) == 422
        && table == old(table) && order == old(order)
      ensures ValidatePayload(body, now).Success? ==>
        var fields := Encode(ValidatePayload(body, now).value);
        && table == old(table)[newId := fields] && order == old(order) + [newId]
        && r == Created(View(kind, Document(newId, fields)))
    {
      var validated := ValidatePayload(body, now);
      if validated.Failure? {
        return Unprocessable(validated.error);
      }
      r := Create(validated.value, newId);
    }

    /**
     * GET on the collection: the record of each of the first 1000 documents,
     * in store order; an empty collection gives an empty list.
     */
    method List() returns (r: Response)
      requires Valid()
      ensures r.Listed? && Status(r) == 200
      ensures |r.records| == Min(|order|, LIST_LIMIT) <= LIST_LIMIT
      ensures table == map[] ==> r.records == []
      ensures forall i :: 0 <= i < |r.records| ==>
        order[i] in table && r.records[i] == View(kind, Document(order[i], table[order[i]]))
    {
      var found := FindAll(LIST_LIMIT);
      var records: seq<Record> := [];
      var i := 0;
      while i < |found|
        invariant 0 <= i <= |found| == Min(|order|, LIST_LIMIT)
        invariant |records| == i
        invariant forall j :: 0 <= j < i ==>
          found[j] in table && records[j] == View(kind, Document(found[j], table[found[j]]))
      {
        records := records + [View(kind, Document(found[i], table[found[i]]))];
        i := i + 1;
      }
      if order != [] {
        assert order[0] in table;
      }
      r := Listed(records);
    }

    /**
     * GET by id: the record of the document with that identifier (200), or
     * 404 naming the id as sent; an id string that is not an identifier is
     * a server error. The table is not changed.
     */
    method Get(id: string) returns (r: Response)
      requires Valid()
      ensures r.Ok? <==> IsValid(id) && Parse(id).value in table
      ensures r.Ok? ==> r.record == View(kind, Document(Parse(id).value, table[Parse(id).value]))
      ensures r.Ok? ==> Parse(r.record["id"].text) == Parse(id) && Status(r) == 200
      ensures !IsValid(id) ==> r == ServerError(MalformedId(id))
      ensures IsValid(id) && Parse(id).value !in table ==> r == NotFound(NotFoundDetail(kind, id)) && Status(r) == 404
    {
      var parsed := Parse(id);
      if parsed.None? {
        return ServerError(MalformedId(id));
      }
      var found := FindOne(parsed.value);
      if found.Some? {
        return Ok(View(kind, Document(parsed.value, found.value)));
      }
      return NotFound(NotFoundDetail(kind, id));
    }

    /**
     * PUT: drops the null values of the body and merges the rest into the
     * document, overwriting only the keys given. The answer is the merged
     * record whether or not the merge changed anything; an empty merge or
     * an unknown id changes nothing (404 for the unknown id).
     */
    method Update(id: string, body: Fields) returns (r: Response)
      requires Valid()
      modifies this
      ensures Valid() && order == old(order)
      ensures !IsValid(id) ==> r == ServerError(MalformedId(id)) && table == old(table)
      ensures IsValid(id) ==>
        var o, upd := Parse(id).value, DropNulls(body);
        if o !in old(table) then
          r == NotFound(NotFoundDetail(kind, id)) && table == old(table)
        else if "_id" in upd then
          r == ServerError(ImmutableId) && table == old(table)
        else
          && table == old(table)[o := Merge(old(table)[o], upd)]
          && r == Ok(View(kind, Document(o, Merge(old(table)[o], upd))))
    {
      var upd := DropNulls(body);
      if |upd| >= 1 {
        var parsed := Parse(id);
        if parsed.None? {
          return ServerError(MalformedId(id));
        }
        var updated := UpdateOne(parsed.value, upd);
        if updated.Failure? {
          return ServerError(updated.error);
        }
        if updated.value == 1 {
          var found := FindOne(parsed.value);
          if found.Some? {
            return Ok(View(kind, Document(parsed.value, found.value)));
          }
        }
      }
      var parsed := Parse(id);
      if parsed.None? {
        return ServerError(MalformedId(id));
      }
      var existing := FindOne(parsed.value);
      if existing.Some? {
        assert upd == map[] ==> Merge(existing.value, upd) == existing.value;
        return Ok(View(kind, Document(parsed.value, existing.value)));
      }
      return NotFound(NotFoundDetail(kind, id));
    }

    /**
     * DELETE: removes exactly the document with that identifier and answers
     * 204, or answers 404 and changes nothing when there is none.
     */
    method Delete(id: string) returns (r: Response)
      requires Valid()
      modifies this
      ensures Valid()
      ensures !IsValid(id) ==> r == ServerError(MalformedId(id)) && table == old(table) && order == old(order)
      ensures IsValid(id) && Parse(id).value in old(table) ==>
        && r == NoContent && Status(r) == 204
        && table == old(table) - {Parse(id).value} && order == Without(old(order), Parse(id).value)
      ensures IsValid(id) && Parse(id).value !in old(table) ==>
        && r == NotFound(NotFoundDetail(kind, id)) && Status(r) == 404
        && table == old(table) && order == old(order)
    {
      var parsed := Parse(id);
      if parsed.None? {
        return ServerError(MalformedId(id));
      }
      var deletedCount := DeleteOne(parsed.value);
      if deletedCount == 1 {
        return NoContent;
      }
      return NotFound(NotFoundDetail(kind, id));
    }
  }

  /** Two identifiers the client scenarios below store under. */
  function SampleId(n: Nibble): ObjectId {
    seq(ID_LENGTH, i => n)
  }

  /** The task of the service's documented creation example, with its defaults filled in. */
  function SampleTask(now: Models.Date): Models.Task {
    Models.Task(None, "Learn X", Some("Study the X framework in depth"), now, [], [])
  }

  /** The creation body of that example: a title and a description only. */
  function SampleTaskBody(): Payload {
    TaskBody(Models.TaskPayload(Models.Absent, Models.Given("Learn X"),
      Models.Given("Study the X framework in depth"), Models.Absent, Models.Absent, Models.Absent))
  }

  /** The example body passes validation, with the defaults filled in. */
  lemma SampleTaskAccepted(now: Models.Date)
    ensures ValidatePayload(SampleTaskBody(), now) == Success(TaskModel(SampleTask(now)))
  {
  }

  /**
   * A client posting the example body and reading the task back: the new
   * task gets the default date and empty skill lists, and the read gives
   * the same record.
   */
  method CreateThenGet(now: Models.Date) {
    var first := SampleId(10);
    ParseToString(first);
    SampleTaskAccepted(now);
    var tasks := new Collection(Tasks);
    var created := tasks.Create(TaskModel(SampleTask(now)), first);
    assert created == Created(View(Tasks, Document(first, Encode(TaskModel(SampleTask(now))))));
    CreatedRecord(TaskModel(SampleTask(now)), first);
    assert created.record["date"] == Time(now) && created.record["extracted_skills"] == Strs([]);
    var got := tasks.Get(ToString(first));
    assert got == Ok(created.record);
  }

  /**
   * A client resubmitting a stored title together with a null description:
   * nothing changes, and the answer is the stored record, not an error.
   */
  method ResubmitUnchanged(tasks: Collection, now: Models.Date)
    requires tasks.Valid() && tasks.kind == Tasks
    requires tasks.table == map[SampleId(10) := Encode(TaskModel(SampleTask(now)))]
    modifies tasks
  {
    var first := SampleId(10);
    ParseToString(first);
    ghost var stored := Encode(TaskModel(SampleTask(now)));
    var body := map["title" := Str("Learn X"), "description" := Null];
    ghost var upd := map["title" := Str("Learn X")];
    assert DropNulls(body) == upd;
    assert !Changes(stored, upd) by {
      assert forall k :: k in upd ==> k == "title";
    }
    ChangesIffMergeDiffers(stored, upd);
    var same := tasks.Update(ToString(first), body);
    assert tasks.table == map[first := stored];
    assert same == Ok(View(Tasks, Document(first, stored)));
  }

  /** A client deleting a task twice: the second delete fails, and the listing is empty again. */
  method DeleteTwice(now: Models.Date) {
    var first := SampleId(10);
    ParseToString(first);
    var tasks := new Collection(Tasks);
    var created := tasks.Create(TaskModel(SampleTask(now)), first);
    var deleted := tasks.Delete(ToString(first));
    assert deleted == NoContent;
    var again := tasks.Delete(ToString(first));
    assert again == NotFound("Task " + ToString(first) + " not found");
    var listed := tasks.List();
    assert listed == Listed([]);
  }

  /** A task body whose description has nine characters. */
  function ShortDescriptionBody(): Payload {
    TaskBody(Models.TaskPayload(Models.Absent, Models.Given("Learn Y"),
      Models.Given("Too short"), Models.Absent, Models.Absent, Models.Absent))
  }

  /** That body is rejected, and the report names the description and nothing else. */
  lemma ShortDescriptionRejected(now: Models.Date)
    ensures var r := ValidatePayload(ShortDescriptionBody(), now);
      r.Failure? && Models.Reports(r.error, "description") && Models.OnlyAbout(r.error, {"description"})
  {
  }

  /**
   * A client sending a task whose description is too short, then asking for
   * an unknown and a malformed identifier.
   */
  method RejectedRequests(now: Models.Date) {
    var second := SampleId(11);
    ParseToString(second);
    var secondId := ToString(second);
    var tasks := new Collection(Tasks);

    // A description shorter than ten characters is rejected and nothing is stored.
    ShortDescriptionRejected(now);
    var rejected := tasks.Post(ShortDescriptionBody(), now, second);
    assert rejected.Unprocessable? && Status(rejected) == 422 && tasks.table == map[];

    // An unknown identifier is not found; a malformed one is a server error.
    var missing := tasks.Get(secondId);
    assert missing == NotFound("Task " + secondId + " not found");
    assert |"not-a-valid-id"| == 14;
    var malformed := tasks.Get("not-a-valid-id");
    assert malformed.ServerError? && Status(malformed) == 500;
  }

  /** A client updating a skill's level, which leaves its name and category as they were. */
  method SkillLevelUpdate() {
    var second := SampleId(11);
    ParseToString(second);
    var secondId := ToString(second);
    var skills := new Collection(Skills);
    var python := Models.Skill(None, "Python", Some("Programming Language"), None);
    var made := skills.Create(SkillModel(python), second);
    assert made.Created?;
    var levelled := skills.Update(secondId, map["level" := Str("Intermediate")]);
    assert levelled.Ok?;
    assert levelled.record["level"] == Str("Intermediate");
    assert levelled.record["name"] == Str("Python") && levelled.record["category"] == Str("Programming Language");
  }
}
