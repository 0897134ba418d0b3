/**
 * The stored documents of the two collections and the helpers that turn a
 * stored document into the record sent back to the client: the identifier
 * becomes its string form, required fields are copied (a missing one is a
 * key error) and optional ones are looked up with a default.
 */
module Documents {
  import opened Wrappers
  import opened ObjectIds
  import Models

  /** The values a field of a stored document or of an update body can hold. */
  datatype Value = Null | Str(text: string) | Strs(items: seq<string>) | Time(date: Models.Date)

  /** The fields of a document other than its identifier. */
  type Fields = map<string, Value>

  /** A stored document: its `_id` and the rest of its fields. */
  datatype Document = Document(id: ObjectId, fields: Fields)

  /** A record as returned to the client. */
  type Record = map<string, Value>

  /** Indexing a dictionary with a key it lacks. */
  datatype KeyError = KeyError(key: string)

  /** The two collections of the database. */
  datatype Kind = Tasks | Skills

  const TASK_KEYS: set<string> := {"id", "title", "description", "date", "extracted_skills", "confirmed_skills"}
  const SKILL_KEYS: set<string> := {"id", "name", "category", "level"}

  /** `fields.get(key, default)`. */
  function Get(fields: Fields, key: string, default: Value): Value {
    if key in fields then fields[key] else default
  }

  /** The string form of an identifier, as a record value. */
  function IdValue(o: ObjectId): (v: Value)
    ensures v.Str? && Parse(v.text) == Some(o)
  {
    ParseToString(o);
    Str(ToString(o))
  }

  /**
   * `task_helper`: the six output keys; `title`, `description` and `date`
   * must be present, and the first one missing (in that order) is the key
   * error; a missing skill list becomes the empty list.
   */
  function TaskHelper(d: Document): (r: Result<Record, KeyError>)
    ensures r.Success? <==> "title" in d.fields && "description" in d.fields && "date" in d.fields
    ensures r.Failure? ==>
      && r.error.key !in d.fields
      && (r.error.key == "title"
          || (r.error.key == "description" && "title" in d.fields)
          || (r.error.key == "date" && "title" in d.fields && "description" in d.fields))
    ensures r.Success? ==>
      && r.value.Keys == TASK_KEYS
      && r.value["id"].Str? && Parse(r.value["id"].text) == Some(d.id)
      && r.value["title"] == d.fields["title"]
      && r.value["description"] == d.fields["description"]
      && r.value["date"] == d.fields["date"]
      && ("extracted_skills" in d.fields ==> r.value["extracted_skills"] == d.fields["extracted_skills"])
      && ("extracted_skills" !in d.fields ==> r.value["extracted_skills"] == Strs([]))
      && ("confirmed_skills" in d.fields ==> r.value["confirmed_skills"] == d.fields["confirmed_skills"])
      && ("confirmed_skills" !in d.fields ==> r.value["confirmed_skills"] == Strs([]))
  {
    if "title" !in d.fields then Failure(KeyError("title"))
    else if "description" !in d.fields then Failure(KeyError("description"))
    else if "date" !in d.fields then Failure(KeyError("date"))
    else
      Success(map[
        "id" := IdValue(d.id),
        "title" := d.fields["title"],
        "description" := d.fields["description"],
        "date" := d.fields["date"],
        "extracted_skills" := Get(d.fields, "extracted_skills", Strs([])),
        "confirmed_skills" := Get(d.fields, "confirmed_skills", Strs([]))])
  }

  /**
   * `skill_helper`: the four output keys; `name` must be present; a missing
   * `category` or `level` becomes null.
   */
  function SkillHelper(d: Document): (r: Result<Record, KeyError>)
    ensures r.Success? <==> "name" in d.fields
    ensures r.Failure? ==> r.error == KeyError("name")
    ensures r.Success? ==>
      && r.value.Keys == SKILL_KEYS
      && r.value["id"].Str? && Parse(r.value["id"].text) == Some(d.id)
      && r.value["name"] == d.fields["name"]
      && ("category" in d.fields ==> r.value["category"] == d.fields["category"])
      && ("category" !in d.fields ==> r.value["category"] == Null)
      && ("level" in d.fields ==> r.value["level"] == d.fields["level"])
      && ("level" !in d.fields ==> r.value["level"] == Null)
  {
    if "name" !in d.fields then Failure(KeyError("name"))
    else
      Success(map[
        "id" := IdValue(d.id),
        "name" := d.fields["name"],
        "category" := Get(d.fields, "category", Null),
        "level" := Get(d.fields, "level", Null)])
  }

  /** The keys a collection's helper indexes without a default. */
  function RequiredKeys(kind: Kind): set<string> {
    match kind
    case Tasks => {"title", "description", "date"}
    case Skills => {"name"}
  }

  /** The keys of the records a collection's helper produces. */
  function RecordKeys(kind: Kind): set<string> {
    match kind
    case Tasks => TASK_KEYS
    case Skills => SKILL_KEYS
  }

  /** The helper of a collection. */
  function Helper(kind: Kind, d: Document): (r: Result<Record, KeyError>)
    ensures r.Success? <==> RequiredKeys(kind) <= d.fields.Keys
    ensures r.Failure? ==> r.error.key in RequiredKeys(kind) && r.error.key !in d.fields
    ensures r.Success? ==> r.value.Keys == RecordKeys(kind) && r.value["id"] == IdValue(d.id)
  {
    match kind
    case Tasks => TaskHelper(d)
    case Skills => SkillHelper(d)
  }

  /**
   * The fields every document the handlers store has: the identifier is kept
   * apart from them, and every key the helper needs is there.
   */
  predicate WellFormed(kind: Kind, fields: Fields) {
    "_id" !in fields && RequiredKeys(kind) <= fields.Keys
  }

  /** The record the helper makes of a well-formed document: it never fails. */
  function View(kind: Kind, d: Document): (r: Record)
    requires WellFormed(kind, d.fields)
    ensures Helper(kind, d) == Success(r)
    ensures r.Keys == RecordKeys(kind) && r["id"] == IdValue(d.id)
  {
    Helper(kind, d).value
  }
}
