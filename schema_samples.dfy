/**
 * The documents the schema probe command inserts, as concrete inputs to the two
 * validators, and the outcome each one gets.
 */
module SchemaSamples {
  import opened Bson
  import opened JsonSchema
  import opened Schemas

  /** `datetime(2023, 1, 15)` as BSON stores it. */
  const Jan15th2023: Value := Date(1_673_740_800_000)

  const SampleEmployee: Document := map[
    "employee_id" := Str("E999"),
    "name" := Str("Test Employee"),
    "department" := Str("Engineering"),
    "salary" := Int(75000),
    "joining_date" := Jan15th2023,
    "skills" := Array([Str("Python"), Str("MongoDB")])]

  const MissingDepartment: Document := map[
    "employee_id" := Str("E998"),
    "name" := Str("Test Employee"),
    "salary" := Int(75000),
    "joining_date" := Jan15th2023]

  const BadEmployeeId: Document := map[
    "employee_id" := Str("INVALID"),
    "name" := Str("Test Employee"),
    "department" := Str("Engineering"),
    "salary" := Int(75000),
    "joining_date" := Jan15th2023]

  const BadDepartment: Document := map[
    "employee_id" := Str("E997"),
    "name" := Str("Test Employee"),
    "department" := Str("InvalidDept"),
    "salary" := Int(75000),
    "joining_date" := Jan15th2023]

  const NegativeSalary: Document := map[
    "employee_id" := Str("E996"),
    "name" := Str("Test Employee"),
    "department" := Str("Engineering"),
    "salary" := Int(-1000),
    "joining_date" := Jan15th2023]

  /** The user document the probe command expects to be accepted, as it is written. */
  const SampleUserAsWritten: Document := map[
    "username" := Str("testuser123"),
    "email" := Str("test@example.com"),
    "first_name" := Str("Test"),
    "last_name" := Str("User"),
    "is_active" := Bool(true),
    "date_joined" := Str("2023-01-15T00:00:00.000Z")]

  /** The same user with `date_joined` stored as a BSON date, which USER_SCHEMA asks for. */
  const SampleUser: Document := SampleUserAsWritten["date_joined" := Date(1_673_740_800_000)]

  const BadEmail: Document := map[
    "username" := Str("testuser123"),
    "email" := Str("invalid-email"),
    "first_name" := Str("Test"),
    "last_name" := Str("User")]

  lemma SampleEmployeeAccepted()
    ensures Valid(SampleEmployee, EmployeeSchema)
  {
    var doc := SampleEmployee;
    assert MatchesEmployeeId("E999");
    assert IsEmployeeId(doc["employee_id"]);
    assert IsEmployeeName(doc["name"]);
    assert "Engineering" in Departments;
    assert IsDepartment(doc["department"]);
    assert IsSalary(doc["salary"]);
    assert IsJoiningDate(doc["joining_date"]);
    assert IsSkillList(doc["skills"]);
    assert "id" !in doc;
    EmployeeDocumentIsValid(doc);
  }

  lemma MissingDepartmentRejected()
    ensures !Valid(MissingDepartment, EmployeeSchema)
  {
    EmployeeRequiredKeysNeeded(MissingDepartment, "department");
  }

  lemma BadEmployeeIdRejected()
    ensures !Valid(BadEmployeeId, EmployeeSchema)
  {
    EmployeeSchemaMeaning(BadEmployeeId);
  }

  lemma BadDepartmentRejected()
    ensures !Valid(BadDepartment, EmployeeSchema)
  {
    EmployeeSchemaMeaning(BadDepartment);
  }

  lemma NegativeSalaryRejected()
    ensures !Valid(NegativeSalary, EmployeeSchema)
  {
    EmployeeSchemaMeaning(NegativeSalary);
  }

  lemma SampleEmailMatches()
    ensures MatchesEmail("test@example.com")
  {
    var s := "test@example.com";
    assert s[..4] == "test" && s[5..12] == "example" && s[13..] == "com";
    assert 1 <= 4 && 4 + 2 <= 12 && 12 + 3 <= |s| && s[4] == '@' && s[12] == '.';
  }

  lemma BadEmailRejected()
    ensures !Valid(BadEmail, UserSchema)
  {
    var s := "invalid-email";
    assert forall i :: 0 <= i < |s| ==> s[i] != '@';
    UserSchemaMeaning(BadEmail);
  }

  /** The user document as the probe command writes it is rejected: its `date_joined` is a string. */
  lemma SampleUserAsWrittenRejected()
    ensures !Valid(SampleUserAsWritten, UserSchema)
  {
    UserSchemaMeaning(SampleUserAsWritten);
  }

  /** With a date in `date_joined`, the sample user is accepted. */
  lemma SampleUserAccepted()
    ensures Valid(SampleUser, UserSchema)
  {
    var u := SampleUser;
    assert u["username"] == Str("testuser123") && u["email"] == Str("test@example.com");
    assert IsUsername(u["username"]) by {
      assert MatchesUsername("testuser123");
    }
    assert IsEmail(u["email"]) by {
      SampleEmailMatches();
    }
    assert u["date_joined"].Date? && u["is_active"].Bool?;
    assert IsPersonName(u["first_name"]) && IsPersonName(u["last_name"]);
    assert IsUserDocument(u);
    UserDocumentIsValid(u);
  }
}
