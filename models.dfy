/**
 * The request schemas for skills and tasks: which fields a creation payload
 * must carry, their length bounds, and the defaults filled in for fields left
 * out. Validation either yields the record or lists every violated rule.
 */
module Models {
  import opened Wrappers
  import opened ObjectIds

  /** The current-time value a task receives when its payload has no date. */
  datatype Date = Date(ticks: int)

  /** One field of a JSON payload: left out, given as null, or given a value. */
  datatype Field<T> = Absent | Null | Given(value: T)

  datatype Problem =
    | Missing                    // a required field was left out
    | NullNotAllowed             // null given for a field whose type is not optional
    | TooShort(minLength: nat)
    | TooLong(maxLength: nat)
    | InvalidId(message: string) // the identifier failed `PyObjectId.validate`

  datatype Violation = Violation(field: string, problem: Problem)

  datatype Skill = Skill(id: Option<ObjectId>, name: string, category: Option<string>, level: Option<string>)

  datatype Task = Task(
    id: Option<ObjectId>,
    title: string,
    description: Option<string>,
    date: Date,
    extractedSkills: seq<string>,
    confirmedSkills: seq<string>)

  datatype SkillPayload = SkillPayload(
    id: Field<string>,
    name: Field<string>,
    category: Field<string>,
    level: Field<string>)

  datatype TaskPayload = TaskPayload(
    id: Field<string>,
    title: Field<string>,
    description: Field<string>,
    date: Field<Date>,
    extractedSkills: Field<seq<string>>,
    confirmedSkills: Field<seq<string>>)

  const NAME_MIN := 1
  const NAME_MAX := 100
  const CATEGORY_MAX := 50
  const LEVEL_MAX := 20
  const TITLE_MIN := 1
  const TITLE_MAX := 200
  const DESCRIPTION_MIN := 10

  /** True when some violation in `vs` is about `field`. */
  predicate Reports(vs: seq<Violation>, field: string) {
    exists i :: 0 <= i < |vs| && vs[i].field == field
  }

  /** True when every violation in `vs` is about one of `fields`. */
  predicate OnlyAbout(vs: seq<Violation>, fields: set<string>) {
    forall i :: 0 <= i < |vs| ==> vs[i].field in fields
  }

  // ----- the rules, stated field by field -----

  /** An optional identifier: absent or null, or a well-formed identifier string. */
  predicate IdAccepted(f: Field<string>) {
    f.Given? ==> IsValid(f.value)
  }

  /** A required string with `min_length`/`max_length`. */
  predicate RequiredAccepted(f: Field<string>, lo: nat, hi: nat) {
    f.Given? && lo <= |f.value| <= hi
  }

  /** An optional string with only a `max_length`. */
  predicate AtMostAccepted(f: Field<string>, hi: nat) {
    f.Given? ==> |f.value| <= hi
  }

  /** An optional string with only a `min_length`. */
  predicate AtLeastAccepted(f: Field<string>, lo: nat) {
    f.Given? ==> lo <= |f.value|
  }

  /** A non-optional field with a default: may be left out, but not null. */
  predicate DefaultedAccepted<T>(f: Field<T>) {
    !f.Null?
  }

  predicate SkillAccepted(p: SkillPayload) {
    && IdAccepted(p.id)
    && RequiredAccepted(p.name, NAME_MIN, NAME_MAX)
    && AtMostAccepted(p.category, CATEGORY_MAX)
    && AtMostAccepted(p.level, LEVEL_MAX)
  }

  predicate TaskAccepted(p: TaskPayload) {
    && IdAccepted(p.id)
    && RequiredAccepted(p.title, TITLE_MIN, TITLE_MAX)
    && AtLeastAccepted(p.description, DESCRIPTION_MIN)
    && DefaultedAccepted(p.date)
    && DefaultedAccepted(p.extractedSkills)
    && DefaultedAccepted(p.confirmedSkills)
  }

  // ----- the checks that collect violations -----

  function LengthProblems(field: string, s: string, lo: nat, hi: Option<nat>): (vs: seq<Violation>)
    ensures vs == [] <==> lo <= |s| && (hi.Some? ==> |s| <= hi.value)
    ensures OnlyAbout(vs, {field})
  {
    if |s| < lo then [Violation(field, TooShort(lo))]
    else if hi.Some? && hi.value < |s| then [Violation(field, TooLong(hi.value))]
    else []
  }

  function IdProblems(f: Field<string>): (vs: seq<Violation>)
    ensures vs == [] <==> IdAccepted(f)
    ensures vs != [] ==> vs == [Violation("_id", InvalidId(INVALID_OBJECT_ID))]
    ensures OnlyAbout(vs, {"_id"})
  {
    match f
    case Given(s) =>
      (match ObjectIds.Validate(s)
       case Success(_) => []
       case Failure(message) => [Violation("_id", InvalidId(message))])
    case _ => []
  }

  function RequiredProblems(field: string, f: Field<string>, lo: nat, hi: nat): (vs: seq<Violation>)
    ensures vs == [] <==> RequiredAccepted(f, lo, hi)
    ensures OnlyAbout(vs, {field})
  {
    match f
    case Absent => [Violation(field, Missing)]
    case Null => [Violation(field, NullNotAllowed)]
    case Given(s) => LengthProblems(field, s, lo, Some(hi))
  }

  function OptionalProblems(field: string, f: Field<string>, lo: nat, hi: Option<nat>): (vs: seq<Violation>)
    ensures vs == [] <==> (f.Given? ==> lo <= |f.value| && (hi.Some? ==> |f.value| <= hi.value))
    ensures OnlyAbout(vs, {field})
  {
    match f
    case Given(s) => LengthProblems(field, s, lo, hi)
    case _ => []
  }

  function DefaultedProblems<T>(field: string, f: Field<T>): (vs: seq<Violation>)
    ensures vs == [] <==> DefaultedAccepted(f)
    ensures OnlyAbout(vs, {field})
  {
    if f.Null? then [Violation(field, NullNotAllowed)] else []
  }

  /** The value of an optional field: None when it is absent or null. */
  function Optional<T>(f: Field<T>): Option<T> {
    if f.Given? then Some(f.value) else None
  }

  /** The value of a defaulted field, or `default` when it is left out. */
  function OrDefault<T>(f: Field<T>, default: T): T {
    if f.Given? then f.value else default
  }

  function OptionalId(f: Field<string>): Option<ObjectId> {
    if f.Given? then Parse(f.value) else None
  }

  lemma ConcatReports(a: seq<Violation>, b: seq<Violation>, field: string)
    ensures Reports(a + b, field) <==> Reports(a, field) || Reports(b, field)
  {
    if Reports(a, field) {
      var i :| 0 <= i < |a| && a[i].field == field;
      assert (a + b)[i] == a[i];
    }
    if Reports(b, field) {
      var i :| 0 <= i < |b| && b[i].field == field;
      assert (a + b)[|a| + i] == b[i];
    }
  }

  lemma OnlyAboutOne(vs: seq<Violation>, field: string)
    requires OnlyAbout(vs, {field})
    ensures Reports(vs, field) <==> vs != []
  {
    if vs != [] {
      assert vs[0].field == field;
    }
  }

  /**
   * Validation of a skill payload against the `Skill` schema: `name` is
   * required with length 1 to 100, `category` and `level` may be left out
   * or null and are otherwise at most 50 and 20 long, and `_id` may be left
   * out or null and is otherwise a well-formed identifier. A rejected
   * payload lists a violation for each field that breaks its rule and for
   * no other field.
   */
  function ValidateSkill(p: SkillPayload): (r: Result<Skill, seq<Violation>>)
    ensures r.Success? <==> SkillAccepted(p)
    ensures r.Success? ==>
      && r.value.name == p.name.value
      && r.value.category == Optional(p.category)
      && r.value.level == Optional(p.level)
      && (r.value.id.Some? <==> p.id.Given?)
      && (r.value.id.Some? ==> ToString(r.value.id.value) == Canonical(p.id.value))
    ensures r.Failure? ==>
      && r.error != []
      && OnlyAbout(r.error, {"_id", "name", "category", "level"})
      && (Reports(r.error, "_id") <==> !IdAccepted(p.id))
      && (Reports(r.error, "name") <==> !RequiredAccepted(p.name, NAME_MIN, NAME_MAX))
      && (Reports(r.error, "category") <==> !AtMostAccepted(p.category, CATEGORY_MAX))
      && (Reports(r.error, "level") <==> !AtMostAccepted(p.level, LEVEL_MAX))
  {
    var a := IdProblems(p.id);
    var b := RequiredProblems("name", p.name, NAME_MIN, NAME_MAX);
    var c := OptionalProblems("category", p.category, 0, Some(CATEGORY_MAX));
    var d := OptionalProblems("level", p.level, 0, Some(LEVEL_MAX));
    var errors := a + b + c + d;
    if errors == [] then
      (if p.id.Given? then ToStringParse(p.id.value); Success(Skill(OptionalId(p.id), p.name.value, Optional(p.category), Optional(p.level)))
       else Success(Skill(None, p.name.value, Optional(p.category), Optional(p.level))))
    else
      SkillReports(a, b, c, d);
      Failure(errors)
  }

  /**
   * Validation of a task payload against the `Task` schema: `title` is
   * required with length 1 to 200, `description` may be left out or null
   * and is otherwise at least 10 long with no upper bound, `date` defaults
   * to `now`, both skill lists default to empty, and none of those three
   * may be null. A rejected payload lists a violation for each field that
   * breaks its rule and for no other field.
   */
  function ValidateTask(p: TaskPayload, now: Date): (r: Result<Task, seq<Violation>>)
    ensures r.Success? <==> TaskAccepted(p)
    ensures r.Success? ==>
      && r.value.title == p.title.value
      && r.value.description == Optional(p.description)
      && r.value.date == (if p.date.Absent? then now else p.date.value)
      && r.value.extractedSkills == (if p.extractedSkills.Absent? then [] else p.extractedSkills.value)
      && r.value.confirmedSkills == (if p.confirmedSkills.Absent? then [] else p.confirmedSkills.value)
      && (r.value.id.Some? <==> p.id.Given?)
      && (r.value.id.Some? ==> ToString(r.value.id.value) == Canonical(p.id.value))
    ensures r.Failure? ==>
      && r.error != []
      && OnlyAbout(r.error, {"_id", "title", "description", "date", "extracted_skills", "confirmed_skills"})
      && (Reports(r.error, "_id") <==> !IdAccepted(p.id))
      && (Reports(r.error, "title") <==> !RequiredAccepted(p.title, TITLE_MIN, TITLE_MAX))
      && (Reports(r.error, "description") <==> !AtLeastAccepted(p.description, DESCRIPTION_MIN))
      && (Reports(r.error, "date") <==> p.date.Null?)
      && (Reports(r.error, "extracted_skills") <==> p.extractedSkills.Null?)
      && (Reports(r.error, "confirmed_skills") <==> p.confirmedSkills.Null?)
  {
    var a := IdProblems(p.id);
    var b := RequiredProblems("title", p.title, TITLE_MIN, TITLE_MAX);
    var c := OptionalProblems("description", p.description, DESCRIPTION_MIN, None);
    var d := DefaultedProblems("date", p.date);
    var e := DefaultedProblems("extracted_skills", p.extractedSkills);
    var f := DefaultedProblems("confirmed_skills", p.confirmedSkills);
    var errors := a + b + c + d + e + f;
    if errors == [] then
      var task := Task(OptionalId(p.id), p.title.value, Optional(p.description), OrDefault(p.date, now),
                       OrDefault(p.extractedSkills, []), OrDefault(p.confirmedSkills, []));
      if p.id.Given? then ToStringParse(p.id.value); Success(task) else Success(task)
    else
      TaskReports(a, b, c, d, e, f);
      Failure(errors)
  }

  /** How the four per-field checks of a skill combine into one report. */
  lemma SkillReports(a: seq<Violation>, b: seq<Violation>, c: seq<Violation>, d: seq<Violation>)
    requires OnlyAbout(a, {"_id"}) && OnlyAbout(b, {"name"})
    requires OnlyAbout(c, {"category"}) && OnlyAbout(d, {"level"})
    ensures Reports(a + b + c + d, "_id") <==> a != []
    ensures Reports(a + b + c + d, "name") <==> b != []
    ensures Reports(a + b + c + d, "category") <==> c != []
    ensures Reports(a + b + c + d, "level") <==> d != []
    ensures OnlyAbout(a + b + c + d, {"_id", "name", "category", "level"})
  {
    var names := ["_id", "name", "category", "level"];
    var parts := [a, b, c, d];
    forall k | 0 <= k < 4
      ensures Reports(a + b + c + d, names[k]) <==> parts[k] != []
    {
      var n := names[k];
      ConcatReports(a, b, n);
      ConcatReports(a + b, c, n);
      ConcatReports(a + b + c, d, n);
      OnlyAboutOne(a, "_id"); OnlyAboutOne(b, "name"); OnlyAboutOne(c, "category"); OnlyAboutOne(d, "level");
    }
    assert names[0] == "_id" && names[1] == "name" && names[2] == "category" && names[3] == "level";
  }

  /** How the six per-field checks of a task combine into one report. */
  lemma TaskReports(a: seq<Violation>, b: seq<Violation>, c: seq<Violation>,
                    d: seq<Violation>, e: seq<Violation>, f: seq<Violation>)
    requires OnlyAbout(a, {"_id"}) && OnlyAbout(b, {"title"}) && OnlyAbout(c, {"description"})
    requires OnlyAbout(d, {"date"}) && OnlyAbout(e, {"extracted_skills"}) && OnlyAbout(f, {"confirmed_skills"})
    ensures Reports(a + b + c + d + e + f, "_id") <==> a != []
    ensures Reports(a + b + c + d + e + f, "title") <==> b != []
    ensures Reports(a + b + c + d + e + f, "description") <==> c != []
    ensures Reports(a + b + c + d + e + f, "date") <==> d != []
    ensures Reports(a + b + c + d + e + f, "extracted_skills") <==> e != []
    ensures Reports(a + b + c + d + e + f, "confirmed_skills") <==> f != []
    ensures OnlyAbout(a + b + c + d + e + f, {"_id", "title", "description", "date", "extracted_skills", "confirmed_skills"})
  {
    var names := ["_id", "title", "description", "date", "extracted_skills", "confirmed_skills"];
    var parts := [a, b, c, d, e, f];
    forall k | 0 <= k < 6
      ensures Reports(a + b + c + d + e + f, names[k]) <==> parts[k] != []
    {
      var n := names[k];
      ConcatReports(a, b, n);
      ConcatReports(a + b, c, n);
      ConcatReports(a + b + c, d, n);
      ConcatReports(a + b + c + d, e, n);
      ConcatReports(a + b + c + d + e, f, n);
      OnlyAboutOne(a, "_id"); OnlyAboutOne(b, "title"); OnlyAboutOne(c, "description");
      OnlyAboutOne(d, "date"); OnlyAboutOne(e, "extracted_skills"); OnlyAboutOne(f, "confirmed_skills");
    }
    assert names[0] == "_id" && names[1] == "title" && names[2] == "description";
    assert names[3] == "date" && names[4] == "extracted_skills" && names[5] == "confirmed_skills";
  }
}
