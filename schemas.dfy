/**
 * The two validators the application installs, `EMPLOYEE_SCHEMA` and `USER_SCHEMA`,
 * as constants of the typed constraint model, and what each one accepts, stated
 * field by field and proved equal to what the generic interpreter accepts.
 */
module Schemas {
  import opened Wrappers
  import opened Bson
  import opened JsonSchema

  // ---- EMPLOYEE_SCHEMA ----

  const EmployeeRequired: seq<string> := ["employee_id", "name", "department", "salary", "joining_date"]

  const Departments: seq<string> := ["Engineering", "HR", "Marketing", "Finance", "Operations", "Sales"]

  const MaxSalary: int := 1_000_000

  const EmployeeIdField: FieldSchema := AnyField.(
    bsonType := Some(Alias(TString)),
    pattern := Some(EmployeeIdPattern),
    description := Some("Employee ID must be in format E123 (E followed by 3 digits)"))

  const NameField: FieldSchema := AnyField.(
    bsonType := Some(Alias(TString)),
    minLength := Some(1),
    maxLength := Some(100),
    description := Some("Employee name is required and must be between 1-100 characters"))

  const DepartmentField: FieldSchema := AnyField.(
    bsonType := Some(Alias(TString)),
    enumValues := Some(Departments),
    description := Some("Department must be one of the predefined values"))

  const SalaryField: FieldSchema := AnyField.(
    bsonType := Some(Alias(TInt)),
    minimum := Some(0),
    maximum := Some(MaxSalary),
    description := Some("Salary must be a positive integer between 0 and 1,000,000"))

  const JoiningDateField: FieldSchema := AnyField.(
    bsonType := Some(AnyOf([TDate, TString])),
    description := Some("Joining date must be a valid date or date string"))

  const SkillItem: FieldSchema := AnyField.(
    bsonType := Some(Alias(TString)),
    minLength := Some(1),
    maxLength := Some(50))

  const SkillsField: FieldSchema := AnyField.(
    bsonType := Some(Alias(TArray)),
    items := Some(SkillItem),
    uniqueItems := true,
    description := Some("Skills must be an array of unique strings, each 1-50 characters"))

  const IdField: FieldSchema := AnyField.(
    bsonType := Some(Alias(TInt)),
    description := Some("Django auto-generated ID field"))

  const EmployeeSchema: CollectionSchema := CollectionSchema(
    Some(Alias(TObject)),
    EmployeeRequired,
    [ Property("employee_id", EmployeeIdField),
      Property("name", NameField),
      Property("department", DepartmentField),
      Property("salary", SalaryField),
      Property("joining_date", JoiningDateField),
      Property("skills", SkillsField),
      Property("id", IdField) ],
    true)

  // ---- USER_SCHEMA ----

  const UsernameField: FieldSchema := AnyField.(
    bsonType := Some(Alias(TString)),
    minLength := Some(3),
    maxLength := Some(30),
    pattern := Some(UsernamePattern),
    description := Some("Username must be 3-30 characters, alphanumeric and underscores only"))

  const EmailField: FieldSchema := AnyField.(
    bsonType := Some(Alias(TString)),
    pattern := Some(EmailPattern),
    description := Some("Must be a valid email address"))

  const FirstNameField: FieldSchema := AnyField.(
    bsonType := Some(Alias(TString)),
    maxLength := Some(50),
    description := Some("First name maximum 50 characters"))

  const LastNameField: FieldSchema := AnyField.(
    bsonType := Some(Alias(TString)),
    maxLength := Some(50),
    description := Some("Last name maximum 50 characters"))

  const IsActiveField: FieldSchema := AnyField.(
    bsonType := Some(Alias(TBool)),
    description := Some("User active status"))

  const DateJoinedField: FieldSchema := AnyField.(
    bsonType := Some(Alias(TDate)),
    description := Some("Date when user joined"))

  const UserSchema: CollectionSchema := CollectionSchema(
    Some(Alias(TObject)),
    ["username", "email"],
    [ Property("username", UsernameField),
      Property("email", EmailField),
      Property("first_name", FirstNameField),
      Property("last_name", LastNameField),
      Property("is_active", IsActiveField),
      Property("date_joined", DateJoinedField) ],
    true)

  // ---- the field-by-field reading of EMPLOYEE_SCHEMA ----

  predicate IsEmployeeId(v: Value) { v.Str? && MatchesEmployeeId(v.s) }

  predicate IsEmployeeName(v: Value) { v.Str? && 1 <= |v.s| <= 100 }

  predicate IsDepartment(v: Value) { v.Str? && v.s in Departments }

  predicate IsSalary(v: Value) { v.Int? && 0 <= v.i <= MaxSalary }

  predicate IsJoiningDate(v: Value) { v.Date? || v.Str? }

  predicate IsSkill(v: Value) { v.Str? && 1 <= |v.s| <= 50 }

  predicate IsSkillList(v: Value) {
    v.Array? && (forall k :: 0 <= k < |v.elems| ==> IsSkill(v.elems[k])) && Distinct(v.elems)
  }

  /** Django's integer `id`, which BSON stores as an int32 when it fits. */
  predicate IsDjangoId(v: Value) { v.Int? && InInt32(v.i) }

  /** An employee document, in the words of the schema's descriptions. */
  predicate IsEmployeeDocument(doc: Document) {
    && "employee_id" in doc && IsEmployeeId(doc["employee_id"])
    && "name" in doc && IsEmployeeName(doc["name"])
    && "department" in doc && IsDepartment(doc["department"])
    && "salary" in doc && IsSalary(doc["salary"])
    && "joining_date" in doc && IsJoiningDate(doc["joining_date"])
    && ("skills" in doc ==> IsSkillList(doc["skills"]))
    && ("id" in doc ==> IsDjangoId(doc["id"]))
  }

  lemma EmployeeIdFieldMeaning(v: Value)
    ensures FieldValid(v, EmployeeIdField) <==> IsEmployeeId(v)
  {
  }

  lemma NameFieldMeaning(v: Value)
    ensures FieldValid(v, NameField) <==> IsEmployeeName(v)
  {
  }

  lemma DepartmentFieldMeaning(v: Value)
    ensures FieldValid(v, DepartmentField) <==> IsDepartment(v)
  {
  }

  lemma SalaryFieldMeaning(v: Value)
    ensures FieldValid(v, SalaryField) <==> IsSalary(v)
  {
  }

  lemma JoiningDateFieldMeaning(v: Value)
    ensures FieldValid(v, JoiningDateField) <==> IsJoiningDate(v)
  {
  }

  lemma SkillsFieldMeaning(v: Value)
    ensures FieldValid(v, SkillsField) <==> IsSkillList(v)
  {
    if v.Array? {
      assert (forall k :: 0 <= k < |v.elems| ==> FieldValid(v.elems[k], SkillItem))
         <==> (forall k :: 0 <= k < |v.elems| ==> IsSkill(v.elems[k]));
    }
  }

  lemma IdFieldMeaning(v: Value)
    ensures FieldValid(v, IdField) <==> IsDjangoId(v)
  {
  }

  lemma EmployeeValidIsEmployeeDocument(doc: Document)
    requires Valid(doc, EmployeeSchema)
    ensures IsEmployeeDocument(doc)
  {
    EmployeeIdentityFields(doc);
    EmployeePayFields(doc);
    EmployeeOptionalFields(doc);
  }

  lemma EmployeeIdentityFields(doc: Document)
    requires Valid(doc, EmployeeSchema)
    ensures "employee_id" in doc && IsEmployeeId(doc["employee_id"])
    ensures "name" in doc && IsEmployeeName(doc["name"])
    ensures "department" in doc && IsDepartment(doc["department"])
  {
    ValidRequiredPresent(doc, EmployeeSchema, 0);
    ValidRequiredPresent(doc, EmployeeSchema, 1);
    ValidRequiredPresent(doc, EmployeeSchema, 2);
    ValidPropertyHolds(doc, EmployeeSchema, 0);
    EmployeeIdFieldMeaning(doc["employee_id"]);
    ValidPropertyHolds(doc, EmployeeSchema, 1);
    NameFieldMeaning(doc["name"]);
    ValidPropertyHolds(doc, EmployeeSchema, 2);
    DepartmentFieldMeaning(doc["department"]);
  }

  lemma EmployeePayFields(doc: Document)
    requires Valid(doc, EmployeeSchema)
    ensures "salary" in doc && IsSalary(doc["salary"])
    ensures "joining_date" in doc && IsJoiningDate(doc["joining_date"])
  {
    ValidRequiredPresent(doc, EmployeeSchema, 3);
    ValidRequiredPresent(doc, EmployeeSchema, 4);
    ValidPropertyHolds(doc, EmployeeSchema, 3);
    SalaryFieldMeaning(doc["salary"]);
    ValidPropertyHolds(doc, EmployeeSchema, 4);
    JoiningDateFieldMeaning(doc["joining_date"]);
  }

  lemma EmployeeOptionalFields(doc: Document)
    requires Valid(doc, EmployeeSchema)
    ensures "skills" in doc ==> IsSkillList(doc["skills"])
    ensures "id" in doc ==> IsDjangoId(doc["id"])
  {
    if "skills" in doc {
      ValidPropertyHolds(doc, EmployeeSchema, 5);
      SkillsFieldMeaning(doc["skills"]);
    }
    if "id" in doc {
      ValidPropertyHolds(doc, EmployeeSchema, 6);
      IdFieldMeaning(doc["id"]);
    }
  }

  lemma EmployeeDocumentIsValid(doc: Document)
    requires IsEmployeeDocument(doc)
    ensures Valid(doc, EmployeeSchema)
  {
    var ps := EmployeeSchema.properties;
    forall k | 0 <= k < |ps| && ps[k].name in doc
      ensures FieldValid(doc[ps[k].name], ps[k].schema)
    {
      var v := doc[ps[k].name];
      if k == 0 { EmployeeIdFieldMeaning(v); }
      else if k == 1 { NameFieldMeaning(v); }
      else if k == 2 { DepartmentFieldMeaning(v); }
      else if k == 3 { SalaryFieldMeaning(v); }
      else if k == 4 { JoiningDateFieldMeaning(v); }
      else if k == 5 { SkillsFieldMeaning(v); }
      else { IdFieldMeaning(v); }
    }
  }

  /** EMPLOYEE_SCHEMA accepts exactly the employee documents. */
  lemma EmployeeSchemaMeaning(doc: Document)
    ensures Valid(doc, EmployeeSchema) <==> IsEmployeeDocument(doc)
  {
    if Valid(doc, EmployeeSchema) { EmployeeValidIsEmployeeDocument(doc); }
    if IsEmployeeDocument(doc) { EmployeeDocumentIsValid(doc); }
  }

  /** Replacing `salary` in a valid employee document keeps it valid iff the new value is an int in [0, 1000000]. */
  lemma SalaryAcceptedIff(doc: Document, v: Value)
    requires Valid(doc, EmployeeSchema)
    ensures Valid(doc["salary" := v], EmployeeSchema) <==> v.Int? && 0 <= v.i <= MaxSalary
  {
    EmployeeSchemaMeaning(doc);
    EmployeeSchemaMeaning(doc["salary" := v]);
  }

  /** ... iff the new `employee_id` is a string of `E` and exactly three digits. */
  lemma EmployeeIdAcceptedIff(doc: Document, v: Value)
    requires Valid(doc, EmployeeSchema)
    ensures Valid(doc["employee_id" := v], EmployeeSchema) <==> v.Str? && MatchesEmployeeId(v.s)
  {
    EmployeeSchemaMeaning(doc);
    EmployeeSchemaMeaning(doc["employee_id" := v]);
  }

  /** ... iff the new `department` is one of the six department names. */
  lemma DepartmentAcceptedIff(doc: Document, v: Value)
    requires Valid(doc, EmployeeSchema)
    ensures Valid(doc["department" := v], EmployeeSchema) <==> v.Str? && v.s in Departments
  {
    EmployeeSchemaMeaning(doc);
    EmployeeSchemaMeaning(doc["department" := v]);
  }

  /** ... iff the new `name` is a string of 1 to 100 characters. */
  lemma NameAcceptedIff(doc: Document, v: Value)
    requires Valid(doc, EmployeeSchema)
    ensures Valid(doc["name" := v], EmployeeSchema) <==> v.Str? && 1 <= |v.s| <= 100
  {
    EmployeeSchemaMeaning(doc);
    EmployeeSchemaMeaning(doc["name" := v]);
  }

  /** ... iff the new `joining_date` is a date or a string. */
  lemma JoiningDateAcceptedIff(doc: Document, v: Value)
    requires Valid(doc, EmployeeSchema)
    ensures Valid(doc["joining_date" := v], EmployeeSchema) <==> v.Date? || v.Str?
  {
    EmployeeSchemaMeaning(doc);
    EmployeeSchemaMeaning(doc["joining_date" := v]);
  }

  /** ... iff the new `skills` is an array of distinct strings of 1 to 50 characters. */
  lemma SkillsAcceptedIff(doc: Document, v: Value)
    requires Valid(doc, EmployeeSchema)
    ensures Valid(doc["skills" := v], EmployeeSchema) <==>
      && v.Array?
      && (forall k :: 0 <= k < |v.elems| ==> v.elems[k].Str? && 1 <= |v.elems[k].s| <= 50)
      && (forall i, j :: 0 <= i < j < |v.elems| ==> v.elems[i] != v.elems[j])
  {
    EmployeeSchemaMeaning(doc);
    EmployeeSchemaMeaning(doc["skills" := v]);
  }

  /** Each of the five required keys is needed: without it no employee document is valid. */
  lemma EmployeeRequiredKeysNeeded(doc: Document, key: string)
    requires key in EmployeeRequired && key !in doc
    ensures !Valid(doc, EmployeeSchema)
  {
    EmployeeSchemaMeaning(doc);
  }

  /** `skills` and `id` are optional: removing them from a valid employee document keeps it valid. */
  lemma EmployeeOptionalKeys(doc: Document)
    requires Valid(doc, EmployeeSchema)
    ensures Valid(doc - {"skills", "id"}, EmployeeSchema)
  {
    EmployeeSchemaMeaning(doc);
    EmployeeSchemaMeaning(doc - {"skills", "id"});
  }

  /** A key outside the seven listed ones never makes an employee document invalid. */
  lemma EmployeeExtraKeyKept(doc: Document, key: string, v: Value)
    requires Valid(doc, EmployeeSchema) && !IsDeclared(key, EmployeeSchema)
    ensures Valid(doc[key := v], EmployeeSchema)
  {
    AdditionalPropertyKept(doc, EmployeeSchema, key, v);
  }

  // ---- the field-by-field reading of USER_SCHEMA ----

  predicate IsUsername(v: Value) { v.Str? && 3 <= |v.s| <= 30 && MatchesUsername(v.s) }

  predicate IsEmail(v: Value) { v.Str? && MatchesEmail(v.s) }

  predicate IsPersonName(v: Value) { v.Str? && |v.s| <= 50 }

  /** A user document, in the words of the schema's descriptions. */
  predicate IsUserDocument(doc: Document) {
    && "username" in doc && IsUsername(doc["username"])
    && "email" in doc && IsEmail(doc["email"])
    && ("first_name" in doc ==> IsPersonName(doc["first_name"]))
    && ("last_name" in doc ==> IsPersonName(doc["last_name"]))
    && ("is_active" in doc ==> doc["is_active"].Bool?)
    && ("date_joined" in doc ==> doc["date_joined"].Date?)
  }

  lemma UsernameFieldMeaning(v: Value)
    ensures FieldValid(v, UsernameField) <==> IsUsername(v)
  {
  }

  lemma EmailFieldMeaning(v: Value)
    ensures FieldValid(v, EmailField) <==> IsEmail(v)
  {
  }

  lemma PersonNameFieldMeaning(v: Value)
    ensures FieldValid(v, FirstNameField) <==> IsPersonName(v)
    ensures FieldValid(v, LastNameField) <==> IsPersonName(v)
  {
  }

  lemma IsActiveFieldMeaning(v: Value)
    ensures FieldValid(v, IsActiveField) <==> v.Bool?
  {
  }

  lemma DateJoinedFieldMeaning(v: Value)
    ensures FieldValid(v, DateJoinedField) <==> v.Date?
  {
  }

  lemma UserValidIsUserDocument(doc: Document)
    requires Valid(doc, UserSchema)
    ensures IsUserDocument(doc)
  {
    UserRequiredFields(doc);
    UserNameFields(doc);
    UserStatusFields(doc);
  }

  lemma UserRequiredFields(doc: Document)
    requires Valid(doc, UserSchema)
    ensures "username" in doc && IsUsername(doc["username"])
    ensures "email" in doc && IsEmail(doc["email"])
  {
    ValidRequiredPresent(doc, UserSchema, 0);
    ValidRequiredPresent(doc, UserSchema, 1);
    ValidPropertyHolds(doc, UserSchema, 0);
    UsernameFieldMeaning(doc["username"]);
    ValidPropertyHolds(doc, UserSchema, 1);
    EmailFieldMeaning(doc["email"]);
  }

  lemma UserNameFields(doc: Document)
    requires Valid(doc, UserSchema)
    ensures "first_name" in doc ==> IsPersonName(doc["first_name"])
    ensures "last_name" in doc ==> IsPersonName(doc["last_name"])
  {
    if "first_name" in doc {
      ValidPropertyHolds(doc, UserSchema, 2);
      PersonNameFieldMeaning(doc["first_name"]);
    }
    if "last_name" in doc {
      ValidPropertyHolds(doc, UserSchema, 3);
      PersonNameFieldMeaning(doc["last_name"]);
    }
  }

  lemma UserStatusFields(doc: Document)
    requires Valid(doc, UserSchema)
    ensures "is_active" in doc ==> doc["is_active"].Bool?
    ensures "date_joined" in doc ==> doc["date_joined"].Date?
  {
    if "is_active" in doc {
      ValidPropertyHolds(doc, UserSchema, 4);
      IsActiveFieldMeaning(doc["is_active"]);
    }
    if "date_joined" in doc {
      ValidPropertyHolds(doc, UserSchema, 5);
      DateJoinedFieldMeaning(doc["date_joined"]);
    }
  }

  lemma UserDocumentIsValid(doc: Document)
    requires IsUserDocument(doc)
    ensures Valid(doc, UserSchema)
  {
    var ps := UserSchema.properties;
    forall k | 0 <= k < |ps| && ps[k].name in doc
      ensures FieldValid(doc[ps[k].name], ps[k].schema)
    {
      var v := doc[ps[k].name];
      if k == 0 { UsernameFieldMeaning(v); }
      else if k == 1 { EmailFieldMeaning(v); }
      else if k == 2 || k == 3 { PersonNameFieldMeaning(v); }
      else if k == 4 { IsActiveFieldMeaning(v); }
      else { DateJoinedFieldMeaning(v); }
    }
  }

  /** USER_SCHEMA accepts exactly the user documents. */
  lemma UserSchemaMeaning(doc: Document)
    ensures Valid(doc, UserSchema) <==> IsUserDocument(doc)
  {
    if Valid(doc, UserSchema) { UserValidIsUserDocument(doc); }
    if IsUserDocument(doc) { UserDocumentIsValid(doc); }
  }

  /** Replacing `email` in a valid user document keeps it valid iff the new value matches the email pattern. */
  lemma EmailAcceptedIff(doc: Document, v: Value)
    requires Valid(doc, UserSchema)
    ensures Valid(doc["email" := v], UserSchema) <==> v.Str? && MatchesEmail(v.s)
  {
    UserSchemaMeaning(doc);
    UserSchemaMeaning(doc["email" := v]);
  }

  /** ... iff the new `username` is 3 to 30 characters, each a letter, a digit or `_`. */
  lemma UsernameAcceptedIff(doc: Document, v: Value)
    requires Valid(doc, UserSchema)
    ensures Valid(doc["username" := v], UserSchema) <==>
      v.Str? && 3 <= |v.s| <= 30 && forall k :: 0 <= k < |v.s| ==> IsWordChar(v.s[k])
  {
    UserSchemaMeaning(doc);
    UserSchemaMeaning(doc["username" := v]);
  }

  /** A key outside the six listed ones never makes a user document invalid. */
  lemma UserExtraKeyKept(doc: Document, key: string, v: Value)
    requires Valid(doc, UserSchema) && !IsDeclared(key, UserSchema)
    ensures Valid(doc[key := v], UserSchema)
  {
    AdditionalPropertyKept(doc, UserSchema, key, v);
  }
}
