# Employee schema validation, modelled in Dafny

This project models the schema-validation core of a Django service that stores
employees in MongoDB:

- **The two collection schemas** (`EMPLOYEE_SCHEMA`, `USER_SCHEMA`). Each is a
  `CollectionSchema` value. The generic interpreter `JsonSchema.Valid` gives
  them meaning, following the `$jsonSchema` rules MongoDB applies:
  - string keywords (`pattern`, `minLength`, `maxLength`) constrain only strings;
  - `minimum` and `maximum` constrain only numbers, inclusively;
  - `items` and `uniqueItems` constrain only arrays;
  - `enum` and `bsonType` constrain every value;
  - `required` and `additionalProperties` act on the document.
  
  Each schema is proved equal to a plain, field-by-field predicate
  (`Schemas.IsEmployeeDocument`, `Schemas.IsUserDocument`). From that, the model
  derives one "accepted iff" statement per field.
- **The `apply_schema_validation` command**:
  - the simplified hand check `validate_employee_doc`;
  - the audit loop `validate_existing_documents`, which reads the first 100
    documents and keeps at most 3 sample ids, in scan order;
  - the `collMod` change made by `apply_employee_schema` and `apply_user_schema`;
  - the `show_schema_info` summary;
  - `handle`, which runs `employees` before `auth_user`.

  The command is a class whose `out` field collects the lines it writes. The
  database is a `Store.Database` object holding each collection's options and
  documents.
- **The `show_schema_status` command's per-collection report**
  (`show_collection_validation`). This is a method that appends lines to `out`.
  It is proved equal to the specification function `StatusReport`, whose layout
  lemmas state what the report shows.
- **The employee view set** (`EmployeeViewSet.create` and `get_by_id`). This is a
  class over a map from primary key (`employee_id`) to the stored record. The
  framework's own create is the opaque predicate `accepts`.

Values follow BSON:
- A Python `int` is stored as `int` inside the signed 32-bit range and as `long`
  inside the signed 64-bit range; pymongo refuses to encode a larger one.
- Dates are opaque millisecond counts.
- Strings are sequences of code points.

The regular expressions the schemas use are hand-written predicates over
character classes, with `$` read as end of string:
- `^E[0-9]{3}$`
- `^[a-zA-Z0-9_]+$`
- the email pattern

## Model

| member | source | states |
|---|---|---|
| JsonSchema.Valid | llumo/employees/schemas.py:5-53 | how MongoDB applies a `$jsonSchema` object to a document: every `required` key present, every listed key that is present obeys its rule, and with `additionalProperties: false` no unlisted key |
| JsonSchema.FieldValid | llumo/employees/schemas.py:10-49 | one property rule: `bsonType` and `enum` on any value, `pattern`/`minLength`/`maxLength` only on strings, inclusive `minimum`/`maximum` only on numbers, `items`/`uniqueItems` only on arrays |
| JsonSchema.MatchesEmployeeId | llumo/employees/schemas.py:12 | the pattern `^E[0-9]{3}$`: `E` then exactly three ASCII digits |
| JsonSchema.MatchesUsername | llumo/employees/schemas.py:65 | the pattern `^[a-zA-Z0-9_]+$`: one or more ASCII letters, digits or `_` |
| JsonSchema.MatchesEmail | llumo/employees/schemas.py:70 | the email pattern: a non-empty local part of `[a-zA-Z0-9._%+-]`, `@`, a host of `[a-zA-Z0-9.-]`, a dot and at least two letters at the end |
| Schemas.EmployeeSchema | llumo/employees/schemas.py:5-53 | EMPLOYEE_SCHEMA as a value: the five required keys, the seven properties with their keywords, `additionalProperties: true` |
| Schemas.UserSchema | llumo/employees/schemas.py:56-94 | USER_SCHEMA as a value: `username` and `email` required, six properties, `additionalProperties: true` |
| JsonSchema.MissingRequiredRejected | llumo/employees/schemas.py:8 | a document lacking any key listed in `required` is rejected, whatever else it holds |
| JsonSchema.AdditionalPropertyKept | llumo/employees/schemas.py:51 | with `additionalProperties: true`, adding or replacing a key the schema does not list keeps a valid document valid |
| JsonSchema.UndeclaredKeyRejected | llumo/employees/schemas.py:51 | with `additionalProperties: false`, a document holding an unlisted key is rejected (the contrast the comment on this line draws) |
| JsonSchema.OptionalKeyRemovable | llumo/employees/schemas.py:8-9 | removing a key that is not in `required` keeps a valid document valid |
| Schemas.EmployeeIdFieldMeaning | llumo/employees/schemas.py:10-14 | the `employee_id` rule accepts exactly strings made of `E` and three ASCII digits |
| Schemas.NameFieldMeaning | llumo/employees/schemas.py:15-20 | the `name` rule accepts exactly strings of 1 to 100 characters |
| Schemas.DepartmentFieldMeaning | llumo/employees/schemas.py:21-25 | the `department` rule accepts exactly the six department names |
| Schemas.SalaryFieldMeaning | llumo/employees/schemas.py:26-31 | the `salary` rule accepts exactly ints in [0, 1000000] |
| Schemas.JoiningDateFieldMeaning | llumo/employees/schemas.py:32-35 | the `joining_date` rule accepts exactly dates and strings |
| Schemas.SkillsFieldMeaning | llumo/employees/schemas.py:36-45 | the `skills` rule accepts exactly arrays of pairwise distinct strings of 1 to 50 characters |
| Schemas.IdFieldMeaning | llumo/employees/schemas.py:46-49 | the `id` rule accepts exactly values stored as `int` (32-bit) |
| Schemas.EmployeeValidIsEmployeeDocument | llumo/employees/schemas.py:5-53 | a document EMPLOYEE_SCHEMA accepts has the five required keys and every listed key obeys its rule |
| Schemas.EmployeeDocumentIsValid | llumo/employees/schemas.py:5-53 | conversely, such a document is accepted, whatever other keys it holds |
| Schemas.EmployeeSchemaMeaning | llumo/employees/schemas.py:5-53 | EMPLOYEE_SCHEMA accepts a document if and only if it is an employee document in the field-by-field sense |
| Schemas.EmployeeIdAcceptedIff | llumo/employees/schemas.py:10-14 | in a valid employee document, a new `employee_id` keeps it valid iff it is a string `E` followed by three digits |
| Schemas.NameAcceptedIff | llumo/employees/schemas.py:15-20 | ... a new `name` keeps it valid iff it is a string of 1 to 100 characters |
| Schemas.DepartmentAcceptedIff | llumo/employees/schemas.py:21-25 | ... a new `department` keeps it valid iff it is one of the six names |
| Schemas.SalaryAcceptedIff | llumo/employees/schemas.py:26-31 | ... a new `salary` keeps it valid iff it is an int with 0 <= salary <= 1000000 |
| Schemas.JoiningDateAcceptedIff | llumo/employees/schemas.py:32-35 | ... a new `joining_date` keeps it valid iff it is a date or a string |
| Schemas.SkillsAcceptedIff | llumo/employees/schemas.py:36-45 | ... a new `skills` keeps it valid iff it is an array of distinct strings of 1 to 50 characters |
| Schemas.EmployeeRequiredKeysNeeded | llumo/employees/schemas.py:8 | without any one of the five required keys, no document is accepted |
| Schemas.EmployeeOptionalKeys | llumo/employees/schemas.py:36-49 | `skills` and `id` are optional: dropping both keeps a valid document valid |
| Schemas.EmployeeExtraKeyKept | llumo/employees/schemas.py:51 | a key outside the seven listed ones (such as `_id`) never makes an employee document invalid |
| Schemas.UsernameFieldMeaning | llumo/employees/schemas.py:61-67 | the `username` rule accepts exactly strings of 3 to 30 letters, digits and underscores |
| Schemas.EmailFieldMeaning | llumo/employees/schemas.py:68-72 | the `email` rule accepts exactly strings matching the email pattern |
| Schemas.PersonNameFieldMeaning | llumo/employees/schemas.py:73-82 | the `first_name` and `last_name` rules accept exactly strings of at most 50 characters |
| Schemas.IsActiveFieldMeaning | llumo/employees/schemas.py:83-86 | the `is_active` rule accepts exactly booleans |
| Schemas.DateJoinedFieldMeaning | llumo/employees/schemas.py:87-90 | the `date_joined` rule accepts exactly dates |
| Schemas.UserValidIsUserDocument | llumo/employees/schemas.py:56-94 | a document USER_SCHEMA accepts has `username` and `email`, and every listed key obeys its rule |
| Schemas.UserDocumentIsValid | llumo/employees/schemas.py:56-94 | conversely, such a document is accepted |
| Schemas.UserSchemaMeaning | llumo/employees/schemas.py:56-94 | USER_SCHEMA accepts a document if and only if it is a user document in the field-by-field sense |
| Schemas.EmailAcceptedIff | llumo/employees/schemas.py:68-72 | in a valid user document, a new `email` keeps it valid iff it matches the email pattern |
| Schemas.UsernameAcceptedIff | llumo/employees/schemas.py:61-67 | ... a new `username` keeps it valid iff it has 3 to 30 characters, each a letter, digit or `_` |
| Schemas.UserExtraKeyKept | llumo/employees/schemas.py:92 | a key outside the six listed ones never makes a user document invalid |
| SchemaSamples.SampleEmployeeAccepted | llumo/employees/management/commands/test_schema_validation.py:47-54 | the probe's valid employee (E999, with skills) is accepted |
| SchemaSamples.MissingDepartmentRejected | llumo/employees/management/commands/test_schema_validation.py:70-76 | the probe's employee without `department` is rejected |
| SchemaSamples.BadEmployeeIdRejected | llumo/employees/management/commands/test_schema_validation.py:89-95 | the probe's employee with id `INVALID` is rejected |
| SchemaSamples.BadDepartmentRejected | llumo/employees/management/commands/test_schema_validation.py:108-114 | the probe's employee in `InvalidDept` is rejected |
| SchemaSamples.NegativeSalaryRejected | llumo/employees/management/commands/test_schema_validation.py:127-133 | the probe's employee with salary -1000 is rejected |
| SchemaSamples.SampleEmailMatches | llumo/employees/management/commands/test_schema_validation.py:155 | `test@example.com` matches the email pattern |
| SchemaSamples.BadEmailRejected | llumo/employees/management/commands/test_schema_validation.py:175-180 | the probe's user with email `invalid-email` is rejected |
| SchemaSamples.SampleUserAsWrittenRejected | llumo/employees/management/commands/test_schema_validation.py:153-160 | the probe's "valid" user, whose `date_joined` is a string, is rejected by USER_SCHEMA (see Findings) |
| SchemaSamples.SampleUserAccepted | llumo/employees/management/commands/test_schema_validation.py:153-160 | the same user with `date_joined` as a date is accepted |
| ApplySchemaValidation.ValidateEmployeeDoc | llumo/employees/management/commands/apply_schema_validation.py:165-184 | the hand check: the five keys present, a string `employee_id` of length 4 starting with `E`, an int `salary` >= 0 |
| ApplySchemaValidation.FlaggedIds | llumo/employees/management/commands/apply_schema_validation.py:140-146 | the `employee_id` (or `Unknown ID`) of every document the check flags, in scan order |
| ApplySchemaValidation.Audit | llumo/employees/management/commands/apply_schema_validation.py:125-146 | no documents for an empty collection; otherwise the number of flagged documents among the first 100 and the first three of their ids |
| ApplySchemaValidation.AuditLines | llumo/employees/management/commands/apply_schema_validation.py:128-158 | the line the audit's outcome produces: no documents, the count with the sample ids, or all valid |
| ApplySchemaValidation.ValueRepr | llumo/employees/management/commands/apply_schema_validation.py:152 | how Python prints one sample id inside the list |
| ApplySchemaValidation.DetailLines | llumo/employees/management/commands/apply_schema_validation.py:199-209 | the summary of one collection's options: heading, level, action, and for a `$jsonSchema` the required keys and the property count |
| ApplySchemaValidation.SchemaInfoLines | llumo/employees/management/commands/apply_schema_validation.py:186-211 | the summary of the first reply entry that has a validator, nothing if none has one |
| ApplySchemaValidation.ApplyEffect | llumo/employees/management/commands/apply_schema_validation.py:45-119 | an existing target gets its validator, level `strict` and action `warn` or `error`; a missing one is left alone |
| ApplySchemaValidation.ApplyOutput | llumo/employees/management/commands/apply_schema_validation.py:45-119 | the warning for a missing target, or the audit lines, the success line and the summary |
| ApplySchemaValidation.HandleEffect | llumo/employees/management/commands/apply_schema_validation.py:25-43 | `employees` first, then `auth_user`, as the choice selects |
| ApplySchemaValidation.HandleOutput | llumo/employees/management/commands/apply_schema_validation.py:25-43 | the output of the selected applications, in the same order |
| ApplySchemaValidation.HandCheckConditions | llumo/employees/management/commands/apply_schema_validation.py:165-184 | the hand check fails when a required key is missing, and passing it means a string id of length 4 starting with `E` and an int salary >= 0 |
| ApplySchemaValidation.HandCheckSound | llumo/employees/management/commands/apply_schema_validation.py:165-184 | every document EMPLOYEE_SCHEMA accepts passes the hand check |
| ApplySchemaValidation.HandCheckMissesIdPattern | llumo/employees/management/commands/apply_schema_validation.py:174-177 | the hand check is strictly weaker on the id alone: in every document EMPLOYEE_SCHEMA accepts, replacing the id by `Eabc` passes the hand check and fails the schema |
| ApplySchemaValidation.HandCheckMissesSalaryCap | llumo/employees/management/commands/apply_schema_validation.py:179-182 | likewise on the salary alone: replacing it by 2000000, above the cap, passes the hand check and fails the schema |
| ApplySchemaValidation.FlaggedIdsAppend | llumo/employees/management/commands/apply_schema_validation.py:140-146 | the ids collected from two runs of documents are those of the first run followed by those of the second |
| ApplySchemaValidation.FlaggedIdsLength | llumo/employees/management/commands/apply_schema_validation.py:140-146 | no more ids than documents are collected, and none outside `employees` |
| ApplySchemaValidation.FlaggedIdsEmptyIff | llumo/employees/management/commands/apply_schema_validation.py:142-144 | no id is collected iff no document is flagged |
| ApplySchemaValidation.FlaggedIdsAt | llumo/employees/management/commands/apply_schema_validation.py:145-146 | scan order: a flagged document's id (or `Unknown ID`) stands at the position given by the number of flagged documents before it |
| ApplySchemaValidation.FlaggedIdsFromFlagged | llumo/employees/management/commands/apply_schema_validation.py:143-146 | every collected id belongs to a flagged document |
| ApplySchemaValidation.AuditBounds | llumo/employees/management/commands/apply_schema_validation.py:128-146 | an empty collection reports no documents; otherwise the count is the number of flagged documents among the first 100 (so at most 100), and the sample holds exactly the first min(3, count) of their ids, in scan order |
| ApplySchemaValidation.AuditOtherCollections | llumo/employees/management/commands/apply_schema_validation.py:142 | a collection other than `employees` always audits clean |
| ApplySchemaValidation.AuditIgnoresTail | llumo/employees/management/commands/apply_schema_validation.py:140 | documents after the first 100 never change the outcome |
| ApplySchemaValidation.AuditCleanIff | llumo/employees/management/commands/apply_schema_validation.py:148-158 | the count is zero iff no examined document is flagged |
| ApplySchemaValidation.AuditOfValidDocuments | llumo/employees/management/commands/apply_schema_validation.py:140-158 | a collection whose documents all satisfy EMPLOYEE_SCHEMA audits clean |
| ApplySchemaValidation.ScanDocuments | llumo/employees/management/commands/apply_schema_validation.py:137-146 | the counting loop computes exactly the audit's count and sample |
| ApplySchemaValidation.HandleEffectMeaning | llumo/employees/management/commands/apply_schema_validation.py:31-38 | `handle` keeps the same collections and documents and leaves non-targets untouched; every existing target gets its schema at level `strict`, with action `warn` iff existing documents were audited and `error` otherwise |
| ApplySchemaValidation.HandleEnforcement | llumo/employees/management/commands/apply_schema_validation.py:62-69 | after the employee schema is applied, the server refuses an insert iff the document violates EMPLOYEE_SCHEMA and no audit was requested |
| ApplySchemaValidation.ApplyToMissingCollection | llumo/employees/management/commands/apply_schema_validation.py:51-55 | a target that does not exist gets a single warning line and no change |
| ApplySchemaValidation.AppliedSummary | llumo/employees/management/commands/apply_schema_validation.py:186-211 | right after `collMod`, the summary reads back exactly the options that were installed |
| ApplySchemaValidation.EmployeeRequiredJoined | llumo/employees/management/commands/apply_schema_validation.py:208 | the five required employee keys join to `employee_id, name, department, salary, joining_date` |
| ApplySchemaValidation.EmployeeSummary | llumo/employees/management/commands/apply_schema_validation.py:199-209 | the last five lines after applying the employee schema: the heading, level `strict`, the action, the five required keys and 7 properties |
| ApplySchemaValidation.ApplyCommand.Handle | llumo/employees/management/commands/apply_schema_validation.py:25-43 | the database becomes `HandleEffect` of the old one, and the output grows by `HandleOutput` |
| ApplySchemaValidation.ApplyCommand.ApplyEmployeeSchema | llumo/employees/management/commands/apply_schema_validation.py:45-81 | the database becomes `ApplyEffect` for `employees` with EMPLOYEE_SCHEMA, and the output grows by `ApplyOutput` |
| ApplySchemaValidation.ApplyCommand.ApplyUserSchema | llumo/employees/management/commands/apply_schema_validation.py:83-119 | the same for `auth_user` with USER_SCHEMA |
| ApplySchemaValidation.ApplyCommand.ApplySchema | llumo/employees/management/commands/apply_schema_validation.py:45-81 | the shared body: the existence check, the optional audit, the `collMod`, the success line and the summary, in that order |
| ApplySchemaValidation.ApplyCommand.ValidateExistingDocuments | llumo/employees/management/commands/apply_schema_validation.py:121-158 | writes the heading, then "No documents found", the count with the sample ids, or "appear valid", as the audit's outcome says |
| ApplySchemaValidation.ApplyCommand.ShowSchemaInfo | llumo/employees/management/commands/apply_schema_validation.py:186-211 | writes the summary of the first batch entry that has a validator, and nothing when none has one |
| Text.StrRepr | llumo/employees/management/commands/apply_schema_validation.py:152 | Python's `repr` of a str: single quotes unless the text holds `'` and no `"`; the chosen quote and `\` escaped; tab, newline and return as `\t`, `\n`, `\r`; other ASCII control characters as `\xhh` |
| Text.StrReprRoundTrip | llumo/employees/management/commands/apply_schema_validation.py:152 | the repr starts and ends with the chosen quote, and reading its body back as a Python literal gives the original text |
| Text.StrReprPlain | llumo/employees/management/commands/apply_schema_validation.py:152 | text with no quote, backslash or control character is printed between single quotes unchanged (as every well-formed id is) |
| Text.StrReprSwitchesQuote | llumo/employees/management/commands/apply_schema_validation.py:152 | the id `E'1` is printed as `"E'1"` |
| Text.StrReprEscapesNewline | llumo/employees/management/commands/apply_schema_validation.py:152 | an id holding a newline is printed with the two characters `\n` |
| Text.StrListRepr | llumo/employees/management/commands/show_schema_status.py:71 | Python's `str` of a list of strings: the reprs joined by ", " in brackets |
| ShowSchemaStatus.StatusReport | llumo/employees/management/commands/show_schema_status.py:30-86 | what the report writes for a `listCollections` reply: nothing for no entry, otherwise the first entry's header, status, level, action and schema part |
| ShowSchemaStatus.TypeDisplay | llumo/employees/management/commands/show_schema_status.py:63-65 | a field's `bsonType`: the name, the listed names joined by " \| ", or `any` |
| ShowSchemaStatus.Constraints | llumo/employees/management/commands/show_schema_status.py:67-79 | the constraint fragments of one field, one per keyword present |
| ShowSchemaStatus.FieldLine | llumo/employees/management/commands/show_schema_status.py:62-82 | one field line: bullet, name, type, and the parenthesised constraints when there are any |
| ShowSchemaStatus.TagNames | llumo/employees/management/commands/show_schema_status.py:63-65 | one type name per listed type, in the list's order |
| ShowSchemaStatus.TypeDisplayExamples | llumo/employees/management/commands/show_schema_status.py:63-65 | an absent `bsonType` shows as `any`, and the `[date, string]` list shows as `date \| string` |
| ShowSchemaStatus.ConstraintsInReportOrder | llumo/employees/management/commands/show_schema_status.py:67-79 | the constraint fragments are exactly those of the keywords present, each once, ordered pattern, enum, min, max, minLen, maxLen |
| ShowSchemaStatus.FieldLineClosesIffConstrained | llumo/employees/management/commands/show_schema_status.py:81-82 | a field line ends in `)` iff the field has at least one reported constraint; otherwise it ends at the type |
| ShowSchemaStatus.EmployeeFieldLinesWithoutConstraints | llumo/employees/management/commands/show_schema_status.py:62-82 | the `joining_date` and `id` lines of EMPLOYEE_SCHEMA carry no suffix |
| ShowSchemaStatus.SalaryFieldLine | llumo/employees/management/commands/show_schema_status.py:72-82 | the `salary` line lists `min: 0, max: 1000000` in parentheses |
| ShowSchemaStatus.RequiredLineMeaning | llumo/employees/management/commands/show_schema_status.py:56 | the required-fields line says `None` for an empty list and otherwise shows the keys joined by ", ", ending with the last key |
| ShowSchemaStatus.StatusReportFirstEntryOnly | llumo/employees/management/commands/show_schema_status.py:36-40 | an empty reply writes nothing; otherwise only the first entry is reported, under the collection heading and a 30-dash rule |
| ShowSchemaStatus.StatusReportWithoutValidator | llumo/employees/management/commands/show_schema_status.py:83-84 | without a validator, the report is the heading, the rule and "No schema validation" only |
| ShowSchemaStatus.StatusReportWithValidator | llumo/employees/management/commands/show_schema_status.py:42-49 | with a validator: the enabled status, then the level and the action, which default to `strict` and `error`; a query validator adds nothing more |
| ShowSchemaStatus.SchemaLinesLayout | llumo/employees/management/commands/show_schema_status.py:51-62 | the `$jsonSchema` part alone: the required line, the count line, and the heading plus one line per property only when there are properties |
| ShowSchemaStatus.StatusReportSchemaPart | llumo/employees/management/commands/show_schema_status.py:51-62 | for a `$jsonSchema` validator: the required line, the property count, and, only when there are properties, the heading plus one line per property in order |
| ShowSchemaStatus.FieldValidationLine | llumo/employees/management/commands/show_schema_status.py:63-82 | one pass of the loop (the type, the constraint list, the suffix) computes exactly the specified field line |
| ShowSchemaStatus.CollectConstraints | llumo/employees/management/commands/show_schema_status.py:67-79 | the six conditional appends build exactly the field's constraint list |
| ShowSchemaStatus.StatusCommand.ShowCollectionValidation | llumo/employees/management/commands/show_schema_status.py:30-86 | the output grows by exactly `StatusReport` of the reply |
| ShowSchemaStatus.StatusCommand.WriteSchemaLines | llumo/employees/management/commands/show_schema_status.py:51-62 | the `$jsonSchema` part of the output is exactly `SchemaLines` |
| ShowSchemaStatus.StatusCommand.WriteFieldLines | llumo/employees/management/commands/show_schema_status.py:62-82 | the loop over properties writes one field line per property, in order |
| Views.KeyedIsOnePerEmployeeId | llumo/employees/models.py:4 | a table keyed by each record's own `employee_id` holds at most one record per `employee_id` |
| Views.KeyedInsert | llumo/employees/views.py:14-16 | storing a record under its own fresh id keeps the table keyed, one record per id, and changes no other entry |
| Views.EmployeeViewSet.Create | llumo/employees/views.py:12-16 | a stored id gives 400 "employee_id must be unique" and no change; a fresh id that `accepts` admits gives 201 and stores exactly that record; otherwise 400 with no change; the keying invariant is preserved |
| Views.EmployeeViewSet.GetById | llumo/employees/views.py:18-25 | a stored id gives 200 with exactly the stored record; an absent id gives 404 "Employee not found" |
| Views.StoredEmployeesPassHandCheck | llumo/employees/views.py:16 | when the framework admits only documents EMPLOYEE_SCHEMA accepts, every stored record passes the command's hand check |

## Left out

- Connections and I/O. `MongoClient`, the connection settings and the `stdout`
  styling (SUCCESS / WARNING / ERROR colours) are not modelled. The database is
  a parameter, and the written lines are the `out` field.
- Error paths. The `except` branches are left out: `OperationFailure`,
  "Error applying schema validation", "Could not validate existing documents"
  and "Could not retrieve schema info". They report exceptions from the
  database driver, which is not part of this model.
- Other management commands. `show_schema_status`'s `handle` (the title lines
  and the loop over every collection name) is not modelled. Only the
  per-collection report is. `create_indexes.py` is not part of this model.
- Django wiring. `auth_views.py`, `urls.py` and the serializers are not part of
  this model. `models.py` is cited only for the primary key.
- Regular expressions. No regex engine is modelled. The three patterns used are
  hand-written predicates, with `$` read as end of string; PCRE corner cases,
  such as `$` before a trailing newline, are not modelled.
  - `JsonSchema.PatternSource` gives each pattern's source text for the report.
- Dates. A date is an opaque millisecond count, with no calendar validity.
- JsonSchema.Valid: `enum` is modelled only with string members, the only kind
  the two schemas use.
- JsonSchema.Valid: `uniqueItems` compares values by model equality. It ignores
  the order of keys inside embedded documents.
- ApplySchemaValidation.ValidateEmployeeDoc: Python's `bool` counts as `int` in
  `isinstance(salary, int)`. The model keeps `Bool` and `Int` apart, so
  `salary: True` fails the modelled check while the source passes it.
- ApplySchemaValidation.ValueRepr: shows a date or an embedded document as a
  short placeholder. Python prints a `datetime(...)` or a dict here, and those
  sample ids are abbreviated in the model.
- ApplySchemaValidation.ApplyCommand.ValidateExistingDocuments: a sample id
  holding a non-ASCII character that Python deems unprintable (such as U+0085
  or U+00A0) is printed as is. Python writes a `\x`, `\u` or `\U` escape for
  it, and choosing one needs the Unicode character database. ASCII text is
  printed exactly as Python does (`Text.StrRepr`).
- Bson.TypeOf: a Python int outside the signed 64-bit range cannot be stored;
  pymongo raises `OverflowError` on the write. The model tags it `long` and
  lets the write happen.
- String lengths are counted in code points. The MongoDB-side byte and code
  point distinction is not modelled.
- Views.EmployeeViewSet.Create: the duplicate check and the insert are not
  atomic in the source. The model is sequential and does not show the race.
- Views.EmployeeViewSet.Create: a non-string `employee_id` is always refused
  with the serializer's errors. The framework's coercion of other JSON values
  to a string key is not modelled.
- The framework's create and serialization are the opaque predicate `accepts`.
  The response body of a successful create is the request data.
- Store.RejectsInsert: decides only for a `$jsonSchema` validator. A query
  validator is kept opaque and never refuses.

## Findings

| source | as written | input that shows it | evidently intended | confidence | as-written member | corrected member |
|---|---|---|---|---|---|---|
| llumo/employees/management/commands/test_schema_validation.py:153-166 | the "valid user" used to confirm acceptance stores `date_joined` as the string `"2023-01-15T00:00:00.000Z"` | the document itself: USER_SCHEMA (llumo/employees/schemas.py:87-90) requires `date_joined` to be a BSON date, so the insert is refused and the probe writes "Valid user document rejected" | a date value (as the employee probe does with `datetime(2023, 1, 15)`), which the schema accepts | not executed; high, by proof | SchemaSamples.SampleUserAsWrittenRejected | SchemaSamples.SampleUserAccepted |
