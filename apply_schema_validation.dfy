/**
 * The `apply_schema_validation` management command: it installs EMPLOYEE_SCHEMA on
 * `employees` and USER_SCHEMA on `auth_user` (strict level; action "warn" when the
 * existing documents are audited first, "error" otherwise), audits up to 100
 * existing employee documents with a simplified hand check, and reads the installed
 * validator back in a short summary. Console output is the sequence `out` of the
 * texts written, one per write, without the newline Django appends.
 */
module ApplySchemaValidation {
  import opened Wrappers
  import opened Bson
  import opened JsonSchema
  import opened Schemas
  import opened Store
  import opened Text
  import opened Seqs

  const EmployeesCollection: string := "employees"
  const UsersCollection: string := "auth_user"

  /** `--collection`: argparse admits only these three choices. */
  datatype Choice = Employees | Users | All

  // ---- validate_employee_doc ----

  /** `doc.get(key, default)` */
  function Get(doc: Document, key: string, default: Value): Value {
    if key in doc then doc[key] else default
  }

  /** The keys `validate_employee_doc` checks for. */
  const CheckedKeys: seq<string> := ["employee_id", "name", "department", "salary", "joining_date"]

  /** The simplified client-side check: the five keys, an id of length 4 starting with `E`, a non-negative int salary. */
  predicate ValidateEmployeeDoc(doc: Document) {
    && (forall key :: key in CheckedKeys ==> key in doc)
    && (var employeeId := Get(doc, "employee_id", Str(""));
        employeeId.Str? && |employeeId.s| == 4 && employeeId.s[0] == 'E')
    && (var salary := Get(doc, "salary", Null);
        salary.Int? && salary.i >= 0)
  }

  /** What the hand check demands; nothing about names, departments, dates, skills or a salary cap. */
  lemma HandCheckConditions(doc: Document)
    ensures (exists key :: key in CheckedKeys && key !in doc) ==> !ValidateEmployeeDoc(doc)
    ensures ValidateEmployeeDoc(doc) ==>
      && "employee_id" in doc && doc["employee_id"].Str?
      && |doc["employee_id"].s| == 4 && doc["employee_id"].s[0] == 'E'
    ensures ValidateEmployeeDoc(doc) ==> "salary" in doc && doc["salary"].Int? && doc["salary"].i >= 0
  {
    if ValidateEmployeeDoc(doc) {
      assert "employee_id" in CheckedKeys && "salary" in CheckedKeys;
    }
  }

  /** The simplification is sound: every document EMPLOYEE_SCHEMA accepts passes the hand check. */
  lemma HandCheckSound(doc: Document)
    requires Valid(doc, EmployeeSchema)
    ensures ValidateEmployeeDoc(doc)
  {
    EmployeeValidIsEmployeeDocument(doc);
  }

  /**
   * The hand check is strictly weaker, one rule at a time: in any document the schema
   * accepts, an id `Eabc` (right length and first letter, no digits) passes the hand
   * check and fails the schema.
   */
  lemma HandCheckMissesIdPattern(doc: Document)
    requires Valid(doc, EmployeeSchema)
    ensures ValidateEmployeeDoc(doc["employee_id" := Str("Eabc")])
    ensures !Valid(doc["employee_id" := Str("Eabc")], EmployeeSchema)
  {
    HandCheckSound(doc);
    assert !MatchesEmployeeId("Eabc") by {
      assert !IsAsciiDigit("Eabc"[1..][0]);
    }
    EmployeeIdAcceptedIff(doc, Str("Eabc"));
  }

  /** Likewise a salary above the schema's cap of 1000000 passes the hand check. */
  lemma HandCheckMissesSalaryCap(doc: Document)
    requires Valid(doc, EmployeeSchema)
    ensures ValidateEmployeeDoc(doc["salary" := Int(2_000_000)])
    ensures !Valid(doc["salary" := Int(2_000_000)], EmployeeSchema)
  {
    HandCheckSound(doc);
    SalaryAcceptedIff(doc, Int(2_000_000));
  }

  // ---- validate_existing_documents ----

  /** `find().limit(100)` */
  const AuditLimit: nat := 100

  /** `len(sample_invalid) < 3` */
  const SampleLimit: nat := 3

  function Min(a: nat, b: nat): nat { if a <= b then a else b }

  /** The documents the audit reads: the first 100 in natural order. */
  function Examined(docs: seq<Document>): (examined: seq<Document>)
    ensures |examined| == Min(AuditLimit, |docs|) && examined == docs[..|examined|]
  {
    docs[..Min(AuditLimit, |docs|)]
  }

  /** `doc.get('employee_id', 'Unknown ID')` */
  function IdOrUnknown(doc: Document): Value {
    Get(doc, "employee_id", Str("Unknown ID"))
  }

  /** Is `doc` counted as invalid? Only documents of `employees` are checked. */
  predicate Flagged(doc: Document, name: string) {
    name == EmployeesCollection && !ValidateEmployeeDoc(doc)
  }

  /** The ids of the flagged documents, in scan order. */
  function FlaggedIds(docs: seq<Document>, name: string): seq<Value> {
    if docs == [] then []
    else
      var last := docs[|docs| - 1];
      FlaggedIds(docs[..|docs| - 1], name) + (if Flagged(last, name) then [IdOrUnknown(last)] else [])
  }

  datatype AuditOutcome = NoDocuments | Audited(invalidCount: nat, sample: seq<Value>)

  /** What `validate_existing_documents` finds in a collection holding `docs`. */
  function Audit(docs: seq<Document>, name: string): AuditOutcome {
    if |docs| == 0 then NoDocuments
    else
      var ids := FlaggedIds(Examined(docs), name);
      Audited(|ids|, ids[..Min(SampleLimit, |ids|)])
  }

  lemma {:induction false} FlaggedIdsAppend(a: seq<Document>, b: seq<Document>, name: string)
    ensures FlaggedIds(a + b, name) == FlaggedIds(a, name) + FlaggedIds(b, name)
    decreases |b|
  {
    if b == [] {
      assert a + b == a;
    } else {
      var b', last := b[..|b| - 1], b[|b| - 1];
      var tail := if Flagged(last, name) then [IdOrUnknown(last)] else [];
      assert (a + b)[..|a + b| - 1] == a + b';
      assert (a + b)[|a + b| - 1] == last;
      FlaggedIdsAppend(a, b', name);
      calc {
        FlaggedIds(a + b, name);
        FlaggedIds(a + b', name) + tail;
        (FlaggedIds(a, name) + FlaggedIds(b', name)) + tail;
        FlaggedIds(a, name) + (FlaggedIds(b', name) + tail);
        FlaggedIds(a, name) + FlaggedIds(b, name);
      }
    }
  }

  lemma {:induction false} FlaggedIdsLength(docs: seq<Document>, name: string)
    ensures |FlaggedIds(docs, name)| <= |docs|
    ensures name != EmployeesCollection ==> FlaggedIds(docs, name) == []
  {
    if docs != [] {
      FlaggedIdsLength(docs[..|docs| - 1], name);
    }
  }

  /** No id is listed iff every document passes the hand check (for `employees`). */
  lemma {:induction false} FlaggedIdsEmptyIff(docs: seq<Document>, name: string)
    ensures FlaggedIds(docs, name) == [] <==> forall i :: 0 <= i < |docs| ==> !Flagged(docs[i], name)
  {
    if docs != [] {
      var init := docs[..|docs| - 1];
      FlaggedIdsEmptyIff(init, name);
      assert forall i :: 0 <= i < |init| ==> init[i] == docs[i];
    }
  }

  /**
   * Scan order: a flagged document's id stands in the list at the position given by
   * the number of flagged documents before it.
   */
  lemma FlaggedIdsAt(docs: seq<Document>, name: string, i: nat)
    requires i < |docs| && Flagged(docs[i], name)
    ensures |FlaggedIds(docs[..i], name)| < |FlaggedIds(docs, name)|
    ensures FlaggedIds(docs, name)[|FlaggedIds(docs[..i], name)|] == IdOrUnknown(docs[i])
  {
    assert docs == docs[..i + 1] + docs[i + 1..];
    FlaggedIdsAppend(docs[..i + 1], docs[i + 1..], name);
    assert docs[..i + 1][..i] == docs[..i];
  }

  /** Every listed id is the id of a flagged document. */
  lemma {:induction false} FlaggedIdsFromFlagged(docs: seq<Document>, name: string, j: nat)
    requires j < |FlaggedIds(docs, name)|
    ensures exists i :: 0 <= i < |docs| && Flagged(docs[i], name) && FlaggedIds(docs, name)[j] == IdOrUnknown(docs[i])
  {
    var init := docs[..|docs| - 1];
    if j < |FlaggedIds(init, name)| {
      FlaggedIdsFromFlagged(init, name, j);
      var i :| 0 <= i < |init| && Flagged(init[i], name) && FlaggedIds(init, name)[j] == IdOrUnknown(init[i]);
      assert init[i] == docs[i];
    } else {
      assert Flagged(docs[|docs| - 1], name);
    }
  }

  /** The audit's bounds: at most 100 counted, at most 3 sampled, taken from the front of the flagged ids. */
  lemma AuditBounds(docs: seq<Document>, name: string)
    ensures Audit(docs, name).NoDocuments? <==> docs == []
    ensures Audit(docs, name).Audited? ==>
      && Audit(docs, name).invalidCount <= AuditLimit
      && Audit(docs, name).invalidCount <= |docs|
      && |Audit(docs, name).sample| <= SampleLimit
      && Audit(docs, name).invalidCount == |FlaggedIds(Examined(docs), name)|
      && |Audit(docs, name).sample| == Min(SampleLimit, Audit(docs, name).invalidCount)
      && Audit(docs, name).sample == FlaggedIds(Examined(docs), name)[..|Audit(docs, name).sample|]
  {
    FlaggedIdsLength(Examined(docs), name);
  }

  /** Only `employees` is checked: any other collection audits clean. */
  lemma AuditOtherCollections(docs: seq<Document>, name: string)
    requires name != EmployeesCollection && docs != []
    ensures Audit(docs, name) == Audited(0, [])
  {
    FlaggedIdsLength(Examined(docs), name);
  }

  /** Documents past the first 100 never change the outcome. */
  lemma AuditIgnoresTail(docs: seq<Document>, more: seq<Document>, name: string)
    requires |docs| >= AuditLimit
    ensures Audit(docs + more, name) == Audit(docs, name)
  {
    assert Examined(docs + more) == Examined(docs);
  }

  /** A non-empty audit counts nothing iff every examined document passes the hand check. */
  lemma AuditCleanIff(docs: seq<Document>, name: string)
    requires docs != []
    ensures Audit(docs, name).invalidCount == 0 <==>
      forall i :: 0 <= i < Min(AuditLimit, |docs|) ==> !Flagged(docs[i], name)
  {
    var examined := Examined(docs);
    FlaggedIdsEmptyIff(examined, name);
    assert forall i :: 0 <= i < |examined| ==> examined[i] == docs[i];
  }

  /** A collection whose documents all satisfy EMPLOYEE_SCHEMA audits clean. */
  lemma AuditOfValidDocuments(docs: seq<Document>)
    requires docs != []
    requires forall i :: 0 <= i < |docs| ==> Valid(docs[i], EmployeeSchema)
    ensures Audit(docs, EmployeesCollection) == Audited(0, [])
  {
    forall i | 0 <= i < Min(AuditLimit, |docs|)
      ensures !Flagged(docs[i], EmployeesCollection)
    {
      HandCheckSound(docs[i]);
    }
    AuditCleanIff(docs, EmployeesCollection);
  }

  /** The counting and sampling loop of `validate_existing_documents`. */
  method ScanDocuments(docs: seq<Document>, name: string) returns (invalidCount: nat, sample: seq<Value>)
    requires docs != []
    ensures Audit(docs, name) == Audited(invalidCount, sample)
  {
    var examined := Examined(docs);
    invalidCount := 0;
    sample := [];
    var i := 0;
    while i < |examined|
      invariant 0 <= i <= |examined|
      invariant invalidCount == |FlaggedIds(examined[..i], name)|
      invariant sample == FlaggedIds(examined[..i], name)[..Min(SampleLimit, invalidCount)]
    {
      var doc := examined[i];
      assert examined[..i + 1][..i] == examined[..i];
      if name == EmployeesCollection {
        if !ValidateEmployeeDoc(doc) {
          invalidCount := invalidCount + 1;
          if |sample| < SampleLimit {
            sample := sample + [IdOrUnknown(doc)];
          }
        }
      }
      i := i + 1;
    }
    assert examined[..i] == examined;
  }

  // ---- console text ----

  /** How Python prints a sample id; a date or an embedded document is abbreviated. */
  function ValueRepr(v: Value): string {
    match v
    case Null => "None"
    case Bool(b) => if b then "True" else "False"
    case Int(i) => IntToString(i)
    case Str(s) => StrRepr(s)
    case Date(ms) => "datetime(" + IntToString(ms) + " ms)"
    case Array(elems) => "[" + Join(", ", ValueReprs(elems)) + "]"
    case Object(_) => "{...}"
  }

  function ValueReprs(vs: seq<Value>): (r: seq<string>)
    ensures |r| == |vs|
  {
    if vs == [] then [] else [ValueRepr(vs[0])] + ValueReprs(vs[1..])
  }

  function AuditLines(outcome: AuditOutcome, name: string): seq<string> {
    match outcome
    case NoDocuments => ["No documents found in " + name + " collection."]
    case Audited(count, sample) =>
      if count > 0 then
        ["Found " + IntToString(count) + " potentially invalid documents in " + name + ". "
         + "Sample IDs: " + "[" + Join(", ", ValueReprs(sample)) + "]"]
      else ["All sampled documents in " + name + " appear valid."]
  }

  /** The summary `show_schema_info` writes for one entry that has a validator. */
  function DetailLines(options: CollectionOptions, name: string): seq<string>
    requires options.validator.Some?
  {
    ["\nSchema validation details for " + name + ":",
     "  Validation Level: " + LevelOf(options),
     "  Validation Action: " + ActionOf(options)]
    + match options.validator.value
      case JsonSchemaValidator(schema) =>
        ["  Required fields: " + Join(", ", schema.required),
         "  Total schema properties: " + IntToString(|schema.properties|)]
      case QueryValidator(_) => []
  }

  predicate HasValidator(info: CollectionInfo) {
    info.options.Some? && info.options.value.validator.Some?
  }

  /** The first entry of the batch that has a validator is summarised; the others are skipped. */
  function SchemaInfoLines(batch: seq<CollectionInfo>, name: string): seq<string> {
    if batch == [] then []
    else if HasValidator(batch[0]) then DetailLines(batch[0].options.value, name)
    else SchemaInfoLines(batch[1..], name)
  }

  // ---- the validator change ----

  /** The options `collMod` installs. */
  function AppliedOptions(schema: CollectionSchema, validateExisting: bool): CollectionOptions {
    CollectionOptions(Some(JsonSchemaValidator(schema)), Some("strict"), Some(if validateExisting then "warn" else "error"))
  }

  /** `apply_*_schema`'s effect on the database: nothing when the collection does not exist. */
  function ApplyEffect(collections: map<string, Collection>, name: string, schema: CollectionSchema,
                       validateExisting: bool): map<string, Collection>
  {
    if name in collections
    then collections[name := collections[name].(options := AppliedOptions(schema, validateExisting))]
    else collections
  }

  /** What the optional audit writes before the validator is changed. */
  function AuditOutput(documents: seq<Document>, name: string, validateExisting: bool): seq<string> {
    if validateExisting
    then ["Validating existing documents in " + name + "..."] + AuditLines(Audit(documents, name), name)
    else []
  }

  /** What `apply_*_schema` writes. */
  function ApplyOutput(collections: map<string, Collection>, name: string, schema: CollectionSchema,
                       validateExisting: bool): seq<string>
  {
    if name !in collections then ["Collection " + name + " does not exist yet."]
    else
      AuditOutput(collections[name].documents, name, validateExisting)
      + ["Successfully applied schema validation to " + name + " collection"]
      + SchemaInfoLines(ListCollections(ApplyEffect(collections, name, schema, validateExisting), name), name)
  }

  predicate TouchesEmployees(choice: Choice) { choice.Employees? || choice.All? }

  predicate TouchesUsers(choice: Choice) { choice.Users? || choice.All? }

  /** `handle`'s effect: `employees` first, then `auth_user`, as the choice says. */
  function HandleEffect(collections: map<string, Collection>, choice: Choice, validateExisting: bool): map<string, Collection> {
    var afterEmployees :=
      if TouchesEmployees(choice) then ApplyEffect(collections, EmployeesCollection, EmployeeSchema, validateExisting)
      else collections;
    if TouchesUsers(choice) then ApplyEffect(afterEmployees, UsersCollection, UserSchema, validateExisting)
    else afterEmployees
  }

  function HandleOutput(collections: map<string, Collection>, choice: Choice, validateExisting: bool): seq<string> {
    var afterEmployees :=
      if TouchesEmployees(choice) then ApplyEffect(collections, EmployeesCollection, EmployeeSchema, validateExisting)
      else collections;
    (if TouchesEmployees(choice) then ApplyOutput(collections, EmployeesCollection, EmployeeSchema, validateExisting) else [])
    + (if TouchesUsers(choice) then ApplyOutput(afterEmployees, UsersCollection, UserSchema, validateExisting) else [])
  }

  /** Is collection `name` a target of `choice`, and with which schema? */
  predicate Targets(choice: Choice, name: string) {
    (name == EmployeesCollection && TouchesEmployees(choice)) || (name == UsersCollection && TouchesUsers(choice))
  }

  function SchemaFor(name: string): CollectionSchema {
    if name == EmployeesCollection then EmployeeSchema else UserSchema
  }

  /**
   * What `handle` changes: the same collections with the same documents; each
   * existing target gets its schema at level "strict" with action "warn" exactly
   * when the existing documents were audited; every other collection is untouched.
   */
  lemma HandleEffectMeaning(collections: map<string, Collection>, choice: Choice, validateExisting: bool)
    ensures HandleEffect(collections, choice, validateExisting).Keys == collections.Keys
    ensures forall name :: name in collections ==>
      HandleEffect(collections, choice, validateExisting)[name].documents == collections[name].documents
    ensures forall name :: name in collections && !Targets(choice, name) ==>
      HandleEffect(collections, choice, validateExisting)[name] == collections[name]
    ensures forall name :: name in collections && Targets(choice, name) ==>
      var options := HandleEffect(collections, choice, validateExisting)[name].options;
      && options.validator == Some(JsonSchemaValidator(SchemaFor(name)))
      && options.validationLevel == Some("strict")
      && (options.validationAction == Some("warn") <==> validateExisting)
      && (options.validationAction == Some("error") <==> !validateExisting)
  {
  }

  /**
   * After `handle` has applied the employee schema, the server refuses a document
   * exactly when it violates EMPLOYEE_SCHEMA and the audit was not requested.
   */
  lemma HandleEnforcement(collections: map<string, Collection>, choice: Choice, validateExisting: bool, doc: Document)
    requires EmployeesCollection in collections && TouchesEmployees(choice)
    ensures RejectsInsert(HandleEffect(collections, choice, validateExisting)[EmployeesCollection].options, doc)
        <==> !validateExisting && !Valid(doc, EmployeeSchema)
  {
    HandleEffectMeaning(collections, choice, validateExisting);
  }

  /** A target that does not exist yet gets a single warning and no change. */
  lemma ApplyToMissingCollection(collections: map<string, Collection>, name: string, schema: CollectionSchema, validateExisting: bool)
    requires name !in collections
    ensures ApplyEffect(collections, name, schema, validateExisting) == collections
    ensures ApplyOutput(collections, name, schema, validateExisting) == ["Collection " + name + " does not exist yet."]
  {
  }

  /** Right after `collMod`, the summary reads back exactly the options installed. */
  lemma AppliedSummary(collections: map<string, Collection>, name: string, schema: CollectionSchema, validateExisting: bool)
    requires name in collections
    ensures SchemaInfoLines(ListCollections(ApplyEffect(collections, name, schema, validateExisting), name), name)
         == DetailLines(AppliedOptions(schema, validateExisting), name)
  {
    var batch := ListCollections(ApplyEffect(collections, name, schema, validateExisting), name);
    assert batch == [CollectionInfo(name, Some(AppliedOptions(schema, validateExisting)))];
  }

  lemma EmployeeRequiredJoined()
    ensures Join(", ", EmployeeRequired) == "employee_id, name, department, salary, joining_date"
  {
    var req := EmployeeRequired;
    assert Join(", ", req[..2]) == "employee_id, name" by {
      assert req[..2][..1] == ["employee_id"];
    }
    assert Join(", ", req[..3]) == "employee_id, name, department" by {
      assert req[..3][..2] == req[..2];
    }
    assert Join(", ", req[..4]) == "employee_id, name, department, salary" by {
      assert req[..4][..3] == req[..3];
    }
    assert req[..4] == req[..|req| - 1];
  }

  lemma ApplyOutputUnfold(collections: map<string, Collection>, name: string, schema: CollectionSchema, validateExisting: bool)
    requires name in collections
    ensures ApplyOutput(collections, name, schema, validateExisting)
         == AuditOutput(collections[name].documents, name, validateExisting)
          + ["Successfully applied schema validation to " + name + " collection"]
          + SchemaInfoLines(ListCollections(ApplyEffect(collections, name, schema, validateExisting), name), name)
  {
  }

  /** The summary that follows an applied employee schema lists the five required keys and the seven properties. */
  lemma EmployeeSummary(collections: map<string, Collection>, validateExisting: bool)
    requires EmployeesCollection in collections
    ensures var out := ApplyOutput(collections, EmployeesCollection, EmployeeSchema, validateExisting);
      && |out| >= 5
      && out[|out| - 5..] ==
         ["\nSchema validation details for employees:",
          "  Validation Level: strict",
          "  Validation Action: " + (if validateExisting then "warn" else "error"),
          "  Required fields: " + "employee_id, name, department, salary, joining_date",
          "  Total schema properties: 7"]
  {
    AppliedSummary(collections, EmployeesCollection, EmployeeSchema, validateExisting);
    EmployeeDetails(validateExisting);
    var details := DetailLines(AppliedOptions(EmployeeSchema, validateExisting), EmployeesCollection);
    var out := ApplyOutput(collections, EmployeesCollection, EmployeeSchema, validateExisting);
    var front := AuditOutput(collections[EmployeesCollection].documents, EmployeesCollection, validateExisting)
      + ["Successfully applied schema validation to " + EmployeesCollection + " collection"];
    ApplyOutputUnfold(collections, EmployeesCollection, EmployeeSchema, validateExisting);
    assert out == front + details;
    assert out[|out| - 5..] == details;
  }

  /** The five summary lines for the options installed with EMPLOYEE_SCHEMA. */
  lemma EmployeeDetails(validateExisting: bool)
    ensures DetailLines(AppliedOptions(EmployeeSchema, validateExisting), EmployeesCollection) ==
         ["\nSchema validation details for employees:",
          "  Validation Level: strict",
          "  Validation Action: " + (if validateExisting then "warn" else "error"),
          "  Required fields: " + "employee_id, name, department, salary, joining_date",
          "  Total schema properties: 7"]
  {
    EmployeeRequiredJoined();
    assert IntToString(7) == "7";
    var options := AppliedOptions(EmployeeSchema, validateExisting);
    var details := DetailLines(options, EmployeesCollection);
    assert LevelOf(options) == "strict";
    assert ActionOf(options) == (if validateExisting then "warn" else "error");
    assert options.validator.value == JsonSchemaValidator(EmployeeSchema);
    assert |EmployeeSchema.properties| == 7;
    var expected := ["\nSchema validation details for employees:",
          "  Validation Level: strict",
          "  Validation Action: " + (if validateExisting then "warn" else "error"),
          "  Required fields: " + "employee_id, name, department, salary, joining_date",
          "  Total schema properties: 7"];
    assert |details| == 5;
    assert details[0] == expected[0];
    assert details[1] == expected[1];
    assert details[2] == expected[2];
    assert details[3] == expected[3];
    assert details[4] == expected[4];
  }

  // ---- the command ----

  class ApplyCommand {
    var out: seq<string>

    constructor ()
      ensures out == []
    {
      out := [];
    }

    method Handle(db: Database, choice: Choice, validateExisting: bool)
      modifies this, db
      ensures db.collections == HandleEffect(old(db.collections), choice, validateExisting)
      ensures out == old(out) + HandleOutput(old(db.collections), choice, validateExisting)
    {
      ghost var before, out0 := db.collections, out;
      ghost var first := if TouchesEmployees(choice) then ApplyOutput(before, EmployeesCollection, EmployeeSchema, validateExisting) else [];
      if TouchesEmployees(choice) {
        ApplyEmployeeSchema(db, validateExisting);
      }
      assert out == out0 + first;
      ghost var middle := db.collections;
      ghost var second := if TouchesUsers(choice) then ApplyOutput(middle, UsersCollection, UserSchema, validateExisting) else [];
      if TouchesUsers(choice) {
        ApplyUserSchema(db, validateExisting);
      }
      assert out == out0 + first + second;
      ConcatRegroup3(out0, first, second);
      assert HandleOutput(before, choice, validateExisting) == first + second;
    }

    method ApplyEmployeeSchema(db: Database, validateExisting: bool)
      modifies this, db
      ensures db.collections == ApplyEffect(old(db.collections), EmployeesCollection, EmployeeSchema, validateExisting)
      ensures out == old(out) + ApplyOutput(old(db.collections), EmployeesCollection, EmployeeSchema, validateExisting)
    {
      ApplySchema(db, EmployeesCollection, EmployeeSchema, validateExisting);
    }

    method ApplyUserSchema(db: Database, validateExisting: bool)
      modifies this, db
      ensures db.collections == ApplyEffect(old(db.collections), UsersCollection, UserSchema, validateExisting)
      ensures out == old(out) + ApplyOutput(old(db.collections), UsersCollection, UserSchema, validateExisting)
    {
      ApplySchema(db, UsersCollection, UserSchema, validateExisting);
    }

    /** The body `apply_employee_schema` and `apply_user_schema` share. */
    method ApplySchema(db: Database, name: string, schema: CollectionSchema, validateExisting: bool)
      modifies this, db
      ensures db.collections == ApplyEffect(old(db.collections), name, schema, validateExisting)
      ensures out == old(out) + ApplyOutput(old(db.collections), name, schema, validateExisting)
    {
      ghost var before, out0 := db.collections, out;
      ghost var audit := if name in before then AuditOutput(before[name].documents, name, validateExisting) else [];
      if name !in db.collections {
        out := out + ["Collection " + name + " does not exist yet."];
        return;
      }
      if validateExisting {
        ValidateExistingDocuments(db.collections[name].documents, schema, name);
      }
      assert out == out0 + audit;
      var validationAction := if validateExisting then "warn" else "error";
      var options := CollectionOptions(Some(JsonSchemaValidator(schema)), Some("strict"), Some(validationAction));
      db.collections := db.collections[name := db.collections[name].(options := options)];
      assert db.collections == ApplyEffect(before, name, schema, validateExisting);
      var applied := ["Successfully applied schema validation to " + name + " collection"];
      out := out + applied;
      var batch := ListCollections(db.collections, name);
      ShowSchemaInfo(batch, name);
      ghost var info := SchemaInfoLines(batch, name);
      ApplyOutputUnfold(before, name, schema, validateExisting);
      assert out == out0 + audit + applied + info;
      ConcatRegroup3(out0, audit + applied, info);
      ConcatRegroup3(out0, audit, applied);
    }

    /** `schema` is passed, as in the command, but only the `employees` hand check is applied. */
    method ValidateExistingDocuments(docs: seq<Document>, schema: CollectionSchema, name: string)
      modifies this
      ensures out == old(out) + ["Validating existing documents in " + name + "..."] + AuditLines(Audit(docs, name), name)
    {
      out := out + ["Validating existing documents in " + name + "..."];
      if |docs| == 0 {
        out := out + ["No documents found in " + name + " collection."];
        return;
      }
      var invalidCount, sample := ScanDocuments(docs, name);
      if invalidCount > 0 {
        out := out + ["Found " + IntToString(invalidCount) + " potentially invalid documents in " + name + ". "
                      + "Sample IDs: " + "[" + Join(", ", ValueReprs(sample)) + "]"];
      } else {
        out := out + ["All sampled documents in " + name + " appear valid."];
      }
    }

    /** `show_schema_info` over the `listCollections` reply `batch`. */
    method ShowSchemaInfo(batch: seq<CollectionInfo>, name: string)
      modifies this
      ensures out == old(out) + SchemaInfoLines(batch, name)
    {
      var i := 0;
      while i < |batch|
        invariant 0 <= i <= |batch|
        invariant SchemaInfoLines(batch, name) == SchemaInfoLines(batch[i..], name)
        invariant out == old(out)
      {
        var info := batch[i];
        if info.options.Some? && info.options.value.validator.Some? {
          var options := info.options.value;
          out := out + ["\nSchema validation details for " + name + ":"];
          out := out + ["  Validation Level: " + options.validationLevel.GetOr("strict")];
          out := out + ["  Validation Action: " + options.validationAction.GetOr("error")];
          if options.validator.value.JsonSchemaValidator? {
            var schema := options.validator.value.schema;
            out := out + ["  Required fields: " + Join(", ", schema.required)];
            out := out + ["  Total schema properties: " + IntToString(|schema.properties|)];
          }
          break;
        }
        assert batch[i..][1..] == batch[i + 1..];
        i := i + 1;
      }
    }
  }
}
