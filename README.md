# skill-summarizer backend: a Dafny model of its CRUD core

The service keeps two document collections, tasks and skills, and offers
create, list, get, update and delete for each over HTTP. This project models
three parts of it, with the database driver replaced by an in-memory table
from identifier to stored fields:

- **Field rules** (`backend/app/models.py`): the `Skill` and `Task` schemas
  as total validation functions that return the record, with defaults
  filled in, or the list of every violated rule; `PyObjectId.validate` and
  the text form of the store's 12-byte identifier (`object_ids.dfy`,
  `models.dfy`).
- **Record normalisation** (`backend/app/database.py`): `task_helper` and
  `skill_helper`, which turn a stored document into the record sent back
  (`documents.dfy`).
- **Handlers** (`backend/app/main.py`): one class, `Handlers.Collection`,
  instantiated once per collection, holding the table and the order in
  which the store returns documents. Each handler is a method that is one
  atomic step with a status outcome (201, 200, 204, 404, 422 or 500). The
  task handlers (main.py:15-66) and the skill handlers (main.py:69-120) are
  identical except for the helper and the word in the not-found message, so
  the class takes the collection kind as a constant (`handlers.dfy`).

What is proved, in short: a validator accepts exactly the payloads that meet
every field rule and otherwise reports each failing field and no other; an
identifier's string form parses back to it and two id strings name the same
record exactly when they agree up to letter case; the helpers produce
exactly their output keys, fail exactly when a required key is missing and
their "id" names the stored document; create adds exactly one document;
update drops nulls, overwrites only the keys given (as flat field names), answers the merged
record whether or not anything changed, and changes nothing for an empty
body or an unknown id; delete removes exactly one document and a second
delete of the same id is not found; every stored document always
normalises without error.

Where the code and the service's own description disagree, the model
follows the code:

- A malformed id string in get, update or delete is not a 404. The handlers
  build `PyObjectId(id)` directly (main.py:34, 45, 49, 53, 61), which raises
  for a string that is not 24 hex digits, and nothing catches it, so the
  model answers `ServerError(MalformedId(id))` (status 500).
- A body that fails the schema is answered 422, FastAPI's status for a
  request-validation error, not 400.
- Update applies no schema validation: after the nulls are dropped, any key
  and any value is merged (main.py:42-46), so an update can store a title
  longer than 200 characters or an empty one.

## Model

| member | source | states |
|---|---|---|
| ObjectIds.Validate | backend/app/models.py:17-20 | Accepts a string exactly when it is 24 hex digits; otherwise fails with "Invalid ObjectId"; the accepted identifier prints as the lower-case spelling of the string |
| ObjectIds.Parse | backend/app/main.py:34 | `ObjectId(id)` yields an identifier exactly when the string is well-formed |
| ObjectIds.ToString | backend/app/database.py:14 | `str(_id)` is a well-formed identifier string in lower case |
| ObjectIds.ParseToString | backend/app/database.py:14 | The string form of an identifier parses back to the same identifier |
| ObjectIds.ToStringParse | backend/app/models.py:20 | Parsing then printing a well-formed string gives its lower-case spelling |
| ObjectIds.SameIdentifier | backend/app/main.py:34 | Two well-formed id strings name the same identifier if and only if they agree ignoring letter case |
| ObjectIds.DigitChar | backend/app/database.py:14 | Each printed digit is a lower-case hex digit that reads back as the nibble it encodes |
| Models.IdProblems | backend/app/models.py:42 | The optional `_id` is accepted when absent, null or well-formed; otherwise the one report is `_id` with "Invalid ObjectId" |
| Models.RequiredProblems | backend/app/models.py:43 | A required bounded string is reported exactly when it is missing, null, or outside its length bounds |
| Models.OptionalProblems | backend/app/models.py:44-45 | An optional string is reported only when given and outside its bounds |
| Models.DefaultedProblems | backend/app/models.py:65-67 | A defaulted field may be left out but is reported when null |
| Models.ValidateSkill | backend/app/models.py:42-45 | Success iff name has length 1..100, category and level are absent/null or at most 50 and 20 long, and `_id` is absent/null/valid; on success the fields are carried over (absent/null become None); on failure the list is non-empty and reports each failing field and only those |
| Models.ValidateTask | backend/app/models.py:62-67 | Success iff title has length 1..200, description is absent/null or at least 10 long with no upper bound, `_id` is absent/null/valid, and date and both skill lists are not null; on success date defaults to the given current time and the skill lists to empty; on failure each failing field and only those is reported |
| Handlers.SampleTaskAccepted | backend/app/models.py:62-67 | A body with only a title and a description validates to a task with the current date and empty skill lists |
| Handlers.ShortDescriptionRejected | backend/app/models.py:64 | A nine-character description is rejected and only the description is reported |
| Documents.IdValue | backend/app/database.py:14 | The "id" value is a string that parses back to the document's identifier |
| Documents.TaskHelper | backend/app/database.py:12-20 | Succeeds iff title, description and date are stored, otherwise the key error names the first missing one; the output has exactly the six task keys, "id" names the document, title, description and date are copied, and a missing skill list becomes the empty list while a stored one is copied |
| Documents.SkillHelper | backend/app/database.py:22-28 | Succeeds iff name is stored, otherwise a key error on "name"; the output has exactly the four skill keys, "id" names the document, name is copied, and a missing category or level becomes null while a stored one is copied |
| Documents.Helper | backend/app/database.py:12-28 | A collection's helper fails exactly when a key it requires is missing, naming that key; on success its keys are the collection's record keys |
| Documents.View | backend/app/database.py:12-28 | On a well-formed document the helper never fails |
| Handlers.ValidatePayload | backend/app/main.py:16 | The route's body is accepted iff it meets its collection's schema, and the model is of the route's collection |
| Handlers.Encode | backend/app/main.py:17 | The stored form of a validated model has every key its helper requires and no `_id` |
| Handlers.CreatedRecord | backend/app/main.py:15-20 | The record answered for a new document shows every model field unchanged and an "id" that parses to the assigned identifier |
| Handlers.DropNulls | backend/app/main.py:42 | Keeps exactly the keys whose value is not null, with their values unchanged |
| Handlers.Merge | backend/app/main.py:44-46 | `$set` overwrites the given keys, keeps every other key's value and removes none |
| Handlers.ChangesIffMergeDiffers | backend/app/main.py:47-54 | The store reports a modification if and only if the merge changes the document |
| Handlers.Without | backend/app/main.py:61 | Removing an identifier from the store order keeps every other identifier, drops that one, and keeps the order free of repeats |
| Handlers.Collection.constructor | backend/app/database.py:9-10 | A collection starts empty and valid |
| Handlers.Collection.FindOne | backend/app/main.py:34 | `find_one` by identifier finds a document exactly when the identifier is stored, and then gives its stored fields |
| Handlers.Collection.FindAll | backend/app/main.py:26 | `find().to_list(limit)` gives a prefix of the store order no longer than the limit, and the whole order when it is shorter |
| Handlers.Collection.InsertOne | backend/app/main.py:18 | Stores the document under the new identifier, appended to the store order |
| Handlers.Collection.UpdateOne | backend/app/main.py:44-46 | An unmatched id changes nothing with count 0; a `$set` naming `_id` on a matched document fails and changes nothing; otherwise the document becomes the merge and the count is 1 exactly when the merge changed it |
| Handlers.Collection.DeleteOne | backend/app/main.py:61 | Removes exactly the matched document with count 1, or changes nothing with count 0 |
| Handlers.Collection.Create | backend/app/main.py:15-20 | Adds exactly the encoded model under the new identifier, changes no other document, and answers 201 with the normalised record |
| Handlers.Collection.Post | backend/app/main.py:15-16 | A body that fails the schema is answered 422 with its violations and stores nothing; one that passes is created |
| Handlers.Collection.List | backend/app/main.py:23-29 | Answers 200 with at most 1000 records, one per stored document in store order, each the helper's output for that stored document; an empty table gives an empty list |
| Handlers.Collection.Get | backend/app/main.py:32-37 | Answers 200 with the record iff the id is well-formed and stored, the record naming that id; 404 "Task {id} not found" with the id as sent when it is well-formed but absent; a malformed id is a server error |
| Handlers.Collection.Update | backend/app/main.py:40-56 | Unknown id: 404, nothing changes; a non-null `_id` in the body on a stored document: server error, nothing changes; otherwise only the given non-null keys are overwritten, no other document changes, and the answer is the merged record whether or not the store reported a modification (an empty body returns the stored record) |
| Handlers.Collection.Delete | backend/app/main.py:59-66 | A stored id: 204 and exactly that document is removed; an unknown id: 404 and nothing changes, so a second delete of the same id is not found |

The methods `Handlers.CreateThenGet`, `Handlers.ResubmitUnchanged`,
`Handlers.DeleteTwice`, `Handlers.RejectedRequests` and
`Handlers.SkillLevelUpdate` are clients that replay the service's documented
request sequences (post then get, identical resubmission, double delete, a
rejected body, a malformed id, a skill's level update) against the handlers'
contracts alone.

## Left out

- The Motor client, the connection string and the environment lookup (backend/app/database.py:1-10): the collections are in-memory tables.
- Async execution and concurrent requests: each handler is one atomic sequential step, so the re-read after a reported modification always finds the document.
- FastAPI routing, `Body(...)` parsing and `JSONResponse`: status codes are a function of the response value.
- `jsonable_encoder` turning the date into an ISO string before storing: dates are opaque values supplied by the caller, and `datetime.utcnow` is the `now` parameter.
- JSON values other than null, strings, string lists and dates (numbers, objects, a string where a list belongs): not representable in the model, so the type errors the schema would report for them are not modelled.
- Handlers.Collection.Create: the store-assigned identifier is a parameter that must not already be in the table; whether the driver generates one when the encoded body carries `"_id": null` is driver behaviour not visible in this repository.
- Handlers.Collection.Post: a client-supplied `_id` is validated and then dropped; the source's encoder writes it into the body as the stored `"_id"`, and the model instead stores every document under the caller-supplied fresh identifier.
- `ObjectId.is_valid` on inputs other than strings (bytes, ObjectId instances): the handlers only pass strings.
- The store's natural order is modelled as insertion order, with deletions removed.
- Handlers.Collection.Update, Handlers.Collection.Get, Handlers.Collection.List: the routes declare a response model (`Task`, `Skill` or a list of them), so FastAPI re-validates each returned helper dictionary against the schema and serialises it by alias. The model answers with the helper's record as it is: a stored title that the schema would refuse (an update can store one, since updates are not validated) is answered 200 here where the source answers 500, after the store has already changed, and so does every later get or list that meets that document; and the 200 bodies carry `"_id"` in the source where the model's records carry `"id"`.
- Handlers.Merge, Handlers.Collection.UpdateOne, Handlers.Collection.Update: `$set` reads a dotted key such as `extracted_skills.0` as a path into the stored document and rejects some paths and `$`-prefixed names; the model treats every key as a flat top-level field name, so a dotted key becomes a new field and the nested value is left as it was.
- ObjectIds.Validate: the model accepts exactly 24 hex digits; the library's string constructor decodes through `bytes.fromhex`, which also skips ASCII whitespace inside a 24-character string, and that leniency is not modelled.
- Handlers.Collection.Update: a `_id` value equal to the stored identifier (a typed ObjectId) cannot arrive in a JSON body, so every `_id` in an update body is treated as a change the store refuses.
- Pydantic schema hooks and example metadata (backend/app/models.py:10-14, 22-26, 29-40, 48-60).
- The helpers' key error on a document written by another program: documents stored through these handlers always carry the required keys, which the class invariant records, so the handlers never reach it.
