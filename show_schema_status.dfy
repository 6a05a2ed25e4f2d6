/**
 * The `show_schema_status` management command's per-collection report: the
 * validation options `listCollections` returns, rendered as lines of text (one
 * per write, without the newline Django appends).
 */
module ShowSchemaStatus {
  import opened Wrappers
  import opened Bson
  import opened JsonSchema
  import opened Store
  import opened Text
  import opened Seqs
  import opened Schemas

  // ---- one field line ----

  function TagNames(tags: seq<TypeTag>): (names: seq<string>)
    ensures |names| == |tags| && forall k :: 0 <= k < |tags| ==> names[k] == TagName(tags[k])
  {
    if tags == [] then [] else [TagName(tags[0])] + TagNames(tags[1..])
  }

  /** A field's `bsonType`, a list joined by " | " in its order, or "any" when absent. */
  function TypeDisplay(t: Option<BsonType>): string {
    match t
    case None => "any"
    case Some(Alias(tag)) => TagName(tag)
    case Some(AnyOf(tags)) => Join(" | ", TagNames(tags))
  }

  /** The keywords a field line reports, in the order the report lists them. */
  datatype ConstraintKind = PatternKind | EnumKind | MinimumKind | MaximumKind | MinLengthKind | MaxLengthKind

  const ReportOrder: seq<ConstraintKind> :=
    [PatternKind, EnumKind, MinimumKind, MaximumKind, MinLengthKind, MaxLengthKind]

  function Rank(k: ConstraintKind): nat {
    match k
    case PatternKind => 0
    case EnumKind => 1
    case MinimumKind => 2
    case MaximumKind => 3
    case MinLengthKind => 4
    case MaxLengthKind => 5
  }

  predicate Present(f: FieldSchema, k: ConstraintKind) {
    match k
    case PatternKind => f.pattern.Some?
    case EnumKind => f.enumValues.Some?
    case MinimumKind => f.minimum.Some?
    case MaximumKind => f.maximum.Some?
    case MinLengthKind => f.minLength.Some?
    case MaxLengthKind => f.maxLength.Some?
  }

  /** The fragment one present keyword contributes. */
  function Fragment(f: FieldSchema, k: ConstraintKind): string
    requires Present(f, k)
  {
    match k
    case PatternKind => "pattern: " + PatternSource(f.pattern.value)
    case EnumKind => "enum: " + StrListRepr(f.enumValues.value)
    case MinimumKind => "min: " + IntToString(f.minimum.value)
    case MaximumKind => "max: " + IntToString(f.maximum.value)
    case MinLengthKind => "minLen: " + IntToString(f.minLength.value)
    case MaxLengthKind => "maxLen: " + IntToString(f.maxLength.value)
  }

  /** The `constraints` list the report builds for a field, one append per keyword present. */
  function Constraints(f: FieldSchema): seq<string> {
    PatternConstraint(f) + (EnumConstraint(f) + (MinimumConstraint(f)
      + (MaximumConstraint(f) + (MinLengthConstraint(f) + MaxLengthConstraint(f)))))
  }

  function PatternConstraint(f: FieldSchema): seq<string> {
    if f.pattern.Some? then ["pattern: " + PatternSource(f.pattern.value)] else []
  }

  function EnumConstraint(f: FieldSchema): seq<string> {
    if f.enumValues.Some? then ["enum: " + StrListRepr(f.enumValues.value)] else []
  }

  function MinimumConstraint(f: FieldSchema): seq<string> {
    if f.minimum.Some? then ["min: " + IntToString(f.minimum.value)] else []
  }

  function MaximumConstraint(f: FieldSchema): seq<string> {
    if f.maximum.Some? then ["max: " + IntToString(f.maximum.value)] else []
  }

  function MinLengthConstraint(f: FieldSchema): seq<string> {
    if f.minLength.Some? then ["minLen: " + IntToString(f.minLength.value)] else []
  }

  function MaxLengthConstraint(f: FieldSchema): seq<string> {
    if f.maxLength.Some? then ["maxLen: " + IntToString(f.maxLength.value)] else []
  }

  /** The kinds among `kinds` that the field has, in the order of `kinds`. */
  function PresentKinds(f: FieldSchema, kinds: seq<ConstraintKind>): (present: seq<ConstraintKind>)
    ensures forall i :: 0 <= i < |present| ==> Present(f, present[i])
  {
    if kinds == [] then []
    else (if Present(f, kinds[0]) then [kinds[0]] else []) + PresentKinds(f, kinds[1..])
  }

  function Fragments(f: FieldSchema, kinds: seq<ConstraintKind>): (r: seq<string>)
    requires forall i :: 0 <= i < |kinds| ==> Present(f, kinds[i])
    ensures |r| == |kinds| && forall i :: 0 <= i < |kinds| ==> r[i] == Fragment(f, kinds[i])
  {
    if kinds == [] then [] else [Fragment(f, kinds[0])] + Fragments(f, kinds[1..])
  }

  lemma {:induction false} PresentKindsMembership(f: FieldSchema, kinds: seq<ConstraintKind>, k: ConstraintKind)
    ensures k in PresentKinds(f, kinds) <==> k in kinds && Present(f, k)
  {
    if kinds != [] {
      PresentKindsMembership(f, kinds[1..], k);
      assert kinds == [kinds[0]] + kinds[1..];
    }
  }

  predicate RankSorted(kinds: seq<ConstraintKind>) {
    forall i, j :: 0 <= i < j < |kinds| ==> Rank(kinds[i]) < Rank(kinds[j])
  }

  /** Filtering keeps every rank above a bound that all of `kinds` clear. */
  lemma {:induction false} PresentKindsAbove(f: FieldSchema, kinds: seq<ConstraintKind>, r: int)
    requires forall i :: 0 <= i < |kinds| ==> r < Rank(kinds[i])
    ensures forall i :: 0 <= i < |PresentKinds(f, kinds)| ==> r < Rank(PresentKinds(f, kinds)[i])
  {
    if kinds != [] {
      var rest := kinds[1..];
      forall i | 0 <= i < |rest| ensures r < Rank(rest[i]) {
        assert rest[i] == kinds[i + 1];
      }
      PresentKindsAbove(f, rest, r);
      var tail := PresentKinds(f, rest);
      var present := PresentKinds(f, kinds);
      if Present(f, kinds[0]) {
        assert present == [kinds[0]] + tail;
        forall i | 0 <= i < |present| ensures r < Rank(present[i]) {
          if i > 0 {
            assert present[i] == tail[i - 1];
          }
        }
      } else {
        assert present == tail;
      }
    }
  }

  lemma {:induction false} PresentKindsOrdered(f: FieldSchema, kinds: seq<ConstraintKind>)
    requires RankSorted(kinds)
    ensures RankSorted(PresentKinds(f, kinds))
  {
    if kinds != [] {
      var rest := kinds[1..];
      var tail := PresentKinds(f, rest);
      forall i, j | 0 <= i < j < |rest| ensures Rank(rest[i]) < Rank(rest[j]) {
        assert rest[i] == kinds[i + 1] && rest[j] == kinds[j + 1];
      }
      PresentKindsOrdered(f, rest);
      var present := PresentKinds(f, kinds);
      if Present(f, kinds[0]) {
        forall i | 0 <= i < |rest| ensures Rank(kinds[0]) < Rank(rest[i]) {
          assert rest[i] == kinds[i + 1];
        }
        PresentKindsAbove(f, rest, Rank(kinds[0]));
        assert present == [kinds[0]] + tail;
        forall i, j | 0 <= i < j < |present| ensures Rank(present[i]) < Rank(present[j]) {
          assert present[j] == tail[j - 1];
          if i > 0 {
            assert present[i] == tail[i - 1];
          }
        }
      } else {
        assert present == tail;
      }
    }
  }

  lemma PresentKindsStep(f: FieldSchema, kinds: seq<ConstraintKind>)
    requires kinds != []
    ensures Fragments(f, PresentKinds(f, kinds))
      == (if Present(f, kinds[0]) then [Fragment(f, kinds[0])] else []) + Fragments(f, PresentKinds(f, kinds[1..]))
  {
    var tail := PresentKinds(f, kinds[1..]);
    if Present(f, kinds[0]) {
      assert PresentKinds(f, kinds) == [kinds[0]] + tail;
      assert ([kinds[0]] + tail)[1..] == tail;
    }
  }

  lemma ConstraintsAsFragments(f: FieldSchema)
    ensures Constraints(f) == Fragments(f, PresentKinds(f, ReportOrder))
  {
    var o0 := ReportOrder;
    var o1 := o0[1..];
    var o2 := o1[1..];
    var o3 := o2[1..];
    var o4 := o3[1..];
    var o5 := o4[1..];
    assert o0[0] == PatternKind && o1[0] == EnumKind && o2[0] == MinimumKind;
    assert o3[0] == MaximumKind && o4[0] == MinLengthKind && o5[0] == MaxLengthKind;
    assert o5[1..] == [];
    PresentKindsStep(f, o5);
    assert Fragments(f, PresentKinds(f, o5)) == MaxLengthConstraint(f);
    PresentKindsStep(f, o4);
    assert Fragments(f, PresentKinds(f, o4)) == MinLengthConstraint(f) + MaxLengthConstraint(f);
    PresentKindsStep(f, o3);
    assert Fragments(f, PresentKinds(f, o3)) == MaximumConstraint(f) + (MinLengthConstraint(f) + MaxLengthConstraint(f));
    PresentKindsStep(f, o2);
    assert Fragments(f, PresentKinds(f, o2))
        == MinimumConstraint(f) + (MaximumConstraint(f) + (MinLengthConstraint(f) + MaxLengthConstraint(f)));
    PresentKindsStep(f, o1);
    assert Fragments(f, PresentKinds(f, o1))
        == EnumConstraint(f) + (MinimumConstraint(f) + (MaximumConstraint(f) + (MinLengthConstraint(f) + MaxLengthConstraint(f))));
    PresentKindsStep(f, o0);
  }

  /**
   * The constraint fragments are exactly those of the keywords present, each once,
   * in the fixed order pattern, enum, min, max, minLen, maxLen.
   */
  lemma ConstraintsInReportOrder(f: FieldSchema)
    ensures Constraints(f) == Fragments(f, PresentKinds(f, ReportOrder))
    ensures forall k :: k in PresentKinds(f, ReportOrder) <==> Present(f, k)
    ensures RankSorted(PresentKinds(f, ReportOrder))
  {
    ConstraintsAsFragments(f);
    forall k ensures k in PresentKinds(f, ReportOrder) <==> Present(f, k) {
      ReportOrderIndexes(k);
      PresentKindsMembership(f, ReportOrder, k);
    }
    ReportOrderSorted();
    PresentKindsOrdered(f, ReportOrder);
  }

  lemma ReportOrderIndexes(k: ConstraintKind)
    ensures Rank(k) < |ReportOrder| && ReportOrder[Rank(k)] == k
  {
  }

  lemma ReportOrderSorted()
    ensures RankSorted(ReportOrder)
  {
    forall i, j | 0 <= i < j < |ReportOrder| ensures Rank(ReportOrder[i]) < Rank(ReportOrder[j]) {
      assert Rank(ReportOrder[i]) == i && Rank(ReportOrder[j]) == j;
    }
  }

  /** `" (…)"` only when some keyword is present. */
  function ConstraintSuffix(constraints: seq<string>): string {
    if |constraints| > 0 then " (" + Join(", ", constraints) + ")" else ""
  }

  function FieldLine(p: Property): string {
    BulletPrefix + p.name + ": " + TypeDisplay(p.schema.bsonType) + ConstraintSuffix(Constraints(p.schema))
  }

  /** One line per property, in the properties' order. */
  function FieldLines(ps: seq<Property>): seq<string> {
    Map(FieldLine, ps)
  }

  predicate EndsWithLetterOrEmpty(s: string) {
    s == [] || IsAsciiLetter(s[|s| - 1])
  }

  lemma TagNameEnding(t: TypeTag)
    ensures |TagName(t)| > 0 && IsAsciiLetter(TagName(t)[|TagName(t)| - 1])
  {
  }

  lemma TypeDisplayEnding(t: Option<BsonType>)
    ensures EndsWithLetterOrEmpty(TypeDisplay(t))
  {
    if t.Some? && t.value.AnyOf? {
      var tags := t.value.tags;
      var names := TagNames(tags);
      if names != [] {
        JoinEndsWithLast(" | ", names);
        var last := names[|names| - 1];
        var r := Join(" | ", names);
        TagNameEnding(tags[|tags| - 1]);
        assert r[|r| - 1] == r[|r| - |last|..][|last| - 1];
      }
    } else if t.Some? {
      TagNameEnding(t.value.tag);
    }
  }

  /** A field line ends in ")" exactly when the field has a reported constraint. */
  lemma FieldLineClosesIffConstrained(p: Property)
    ensures |FieldLine(p)| > 0
    ensures FieldLine(p)[|FieldLine(p)| - 1] == ')' <==> Constraints(p.schema) != []
  {
    var line := FieldLine(p);
    var head := BulletPrefix + p.name + ": ";
    var ty := TypeDisplay(p.schema.bsonType);
    if Constraints(p.schema) == [] {
      TypeDisplayEnding(p.schema.bsonType);
      assert line == head + ty;
      if ty == [] {
        assert line[|line| - 1] == head[|head| - 1] == ' ';
      } else {
        assert line[|line| - 1] == ty[|ty| - 1];
      }
    }
  }

  /** An absent `bsonType` shows as "any"; EMPLOYEE_SCHEMA's `joining_date` list shows in its order. */
  lemma TypeDisplayExamples()
    ensures TypeDisplay(None) == "any"
    ensures TypeDisplay(JoiningDateField.bsonType) == "date | string"
  {
    var names := TagNames([TDate, TString]);
    assert names == ["date", "string"];
    assert names[..1] == ["date"];
  }

  /** Two of the lines the report writes for EMPLOYEE_SCHEMA: a listed type and a plain one. */
  lemma EmployeeFieldLinesWithoutConstraints()
    ensures FieldLine(Property("joining_date", JoiningDateField)) == BulletPrefix + "joining_date: " + "date | string"
    ensures FieldLine(Property("id", IdField)) == BulletPrefix + "id: " + "int"
  {
    TypeDisplayExamples();
    assert Constraints(JoiningDateField) == [];
    assert Constraints(IdField) == [];
  }

  /** The salary line: its bounds, in the order minimum then maximum. */
  lemma SalaryFieldLine()
    ensures FieldLine(Property("salary", SalaryField))
         == BulletPrefix + "salary" + ": " + "int" + " (" + ("min: " + "0") + ", " + ("max: " + "1000000") + ")"
  {
    var f := SalaryField;
    assert f.minimum == Some(0) && f.maximum == Some(1000000);
    assert IntToString(0) == "0";
    assert IntToString(1000000) == "1000000";
    var cs := Constraints(f);
    assert cs == ["min: " + "0", "max: " + "1000000"];
    assert Join(", ", cs) == ("min: " + "0") + ", " + ("max: " + "1000000") by {
      assert cs[..1] == ["min: " + "0"];
    }
  }

  // ---- the report ----

  // The fixed texts of the report's lines.
  const RequiredPrefix: string := "  Required fields: "
  const PropertiesPrefix: string := "  Schema properties: "
  const FieldsHeading: string := "  Field validations:"
  const EnabledStatus: string := "  Status: Schema validation ENABLED"
  const DisabledStatus: string := "  Status: No schema validation"
  const LevelPrefix: string := "  Validation Level: "
  const ActionPrefix: string := "  Validation Action: "
  const CollectionPrefix: string := "\nCollection: "
  const BulletPrefix: string := "    \U{2022} "

  /** "-" * 30 */
  const Rule: string := Repeat('-', 30)

  function RequiredLine(required: seq<string>): string {
    RequiredPrefix + (if |required| > 0 then Join(", ", required) else "None")
  }

  function SchemaLines(schema: CollectionSchema): seq<string> {
    [RequiredLine(schema.required),
     PropertiesPrefix + IntToString(|schema.properties|)]
    + (if |schema.properties| > 0 then [FieldsHeading] + FieldLines(schema.properties) else [])
  }

  /** What a validator adds after the level and action lines. */
  function ValidatorLines(validator: Validator): seq<string> {
    match validator
    case JsonSchemaValidator(schema) => SchemaLines(schema)
    case QueryValidator(_) => []
  }

  function ValidationLines(options: CollectionOptions): seq<string> {
    if options.validator.None? then [DisabledStatus]
    else
      [EnabledStatus,
       LevelPrefix + LevelOf(options),
       ActionPrefix + ActionOf(options)]
      + ValidatorLines(options.validator.value)
  }

  /** What `show_collection_validation` writes for the `listCollections` reply `batch`. */
  function StatusReport(batch: seq<CollectionInfo>, name: string): seq<string> {
    if batch == [] then []
    else [CollectionPrefix + name, Rule] + ValidationLines(batch[0].options.GetOr(NoOptions))
  }

  /** The options of the entry the report reads; missing options read as `{}`. */
  function FirstOptions(batch: seq<CollectionInfo>): CollectionOptions
    requires batch != []
  {
    batch[0].options.GetOr(NoOptions)
  }

  /** Nothing for an empty reply; otherwise the first entry only, under a two-line header. */
  lemma StatusReportFirstEntryOnly(batch: seq<CollectionInfo>, name: string)
    ensures batch == [] ==> StatusReport(batch, name) == []
    ensures batch != [] ==>
      && StatusReport(batch, name) == StatusReport([batch[0]], name)
      && |StatusReport(batch, name)| >= 3
      && StatusReport(batch, name)[..2] == [CollectionPrefix + name, Rule]
  {
  }

  /** Without a validator the status line is the report's last line. */
  lemma StatusReportWithoutValidator(batch: seq<CollectionInfo>, name: string)
    requires batch != [] && FirstOptions(batch).validator.None?
    ensures StatusReport(batch, name) == [CollectionPrefix + name, Rule, DisabledStatus]
  {
  }

  /** With a validator: the enabled status, then the level and the action, defaulting to "strict" and "error". */
  lemma StatusReportWithValidator(batch: seq<CollectionInfo>, name: string)
    requires batch != [] && FirstOptions(batch).validator.Some?
    ensures var options := FirstOptions(batch);
      var report := StatusReport(batch, name);
      && |report| >= 5
      && report[2] == EnabledStatus
      && report[3] == LevelPrefix + options.validationLevel.GetOr("strict")
      && report[4] == ActionPrefix + options.validationAction.GetOr("error")
      && (options.validator.value.QueryValidator? ==> |report| == 5)
  {
    var options := FirstOptions(batch);
    var header := [CollectionPrefix + name, Rule];
    var status := [EnabledStatus, LevelPrefix + LevelOf(options), ActionPrefix + ActionOf(options)];
    var rest := ValidatorLines(options.validator.value);
    StatusReportSplit(batch, name);
    ConcatAt(header, status);
    ConcatAt(header + status, rest);
  }

  /** The report with a validator is the header, the three status lines and what the validator adds. */
  lemma StatusReportSplit(batch: seq<CollectionInfo>, name: string)
    requires batch != [] && FirstOptions(batch).validator.Some?
    ensures var options := FirstOptions(batch);
      StatusReport(batch, name)
        == [CollectionPrefix + name, Rule]
         + [EnabledStatus, LevelPrefix + LevelOf(options), ActionPrefix + ActionOf(options)]
         + ValidatorLines(options.validator.value)
  {
    var options := FirstOptions(batch);
    var header := [CollectionPrefix + name, Rule];
    var status := [EnabledStatus, LevelPrefix + LevelOf(options), ActionPrefix + ActionOf(options)];
    var rest := ValidatorLines(options.validator.value);
    assert StatusReport(batch, name) == header + (status + rest);
    ConcatRegroup3(header, status, rest);
  }

  /**
   * For a `$jsonSchema` validator: the required keys, the number of properties and,
   * only when there are properties, one line per property in the properties' order.
   */
  lemma StatusReportSchemaPart(batch: seq<CollectionInfo>, name: string)
    requires batch != [] && FirstOptions(batch).validator.Some?
    requires FirstOptions(batch).validator.value.JsonSchemaValidator?
    ensures var schema := FirstOptions(batch).validator.value.schema;
      var report := StatusReport(batch, name);
      && |report| >= 7
      && report[5] == RequiredLine(schema.required)
      && report[6] == PropertiesPrefix + IntToString(|schema.properties|)
      && (schema.properties == [] <==> |report| == 7)
      && (schema.properties != [] ==>
            && |report| == 8 + |schema.properties|
            && report[7] == FieldsHeading
            && forall k :: 0 <= k < |schema.properties| ==> report[8 + k] == FieldLine(schema.properties[k]))
  {
    var options := FirstOptions(batch);
    var schema := options.validator.value.schema;
    var header := [CollectionPrefix + name, Rule];
    var status := [EnabledStatus, LevelPrefix + LevelOf(options), ActionPrefix + ActionOf(options)];
    var lines := SchemaLines(schema);
    StatusReportSplit(batch, name);
    ConcatAt(header, status);
    ConcatAt(header + status, lines);
    SchemaLinesLayout(schema);
  }

  /** The `$jsonSchema` part on its own: two count lines, then the heading and field lines if any. */
  lemma SchemaLinesLayout(schema: CollectionSchema)
    ensures var lines := SchemaLines(schema);
      && |lines| >= 2
      && lines[0] == RequiredLine(schema.required)
      && lines[1] == PropertiesPrefix + IntToString(|schema.properties|)
      && (schema.properties == [] <==> |lines| == 2)
      && (schema.properties != [] ==>
            && |lines| == 3 + |schema.properties|
            && lines[2] == FieldsHeading
            && forall k :: 0 <= k < |schema.properties| ==> lines[3 + k] == FieldLine(schema.properties[k]))
  {
    var counts := [RequiredLine(schema.required), PropertiesPrefix + IntToString(|schema.properties|)];
    if schema.properties != [] {
      var fields := FieldLines(schema.properties);
      ConcatAt(counts, [FieldsHeading] + fields);
      ConcatAt([FieldsHeading], fields);
    } else {
      assert SchemaLines(schema) == counts + [];
    }
  }

  /** The required-keys line: the keys joined by ", ", or "None" for an empty list. */
  lemma RequiredLineMeaning(required: seq<string>)
    ensures required == [] ==> RequiredLine(required) == "  Required fields: None"
    ensures |required| == 1 ==> RequiredLine(required) == RequiredPrefix + required[0]
    ensures |required| > 1 ==>
      var last := required[|required| - 1];
      var line := RequiredLine(required);
      |line| >= |last| && line[|line| - |last|..] == last
  {
    if |required| > 1 {
      var last := required[|required| - 1];
      var joined := Join(", ", required);
      JoinEndsWithLast(", ", required);
      assert RequiredLine(required) == RequiredPrefix + joined;
      assert (RequiredPrefix + joined)[|RequiredPrefix + joined| - |last|..] == joined[|joined| - |last|..];
    }
  }

  /** One pass of the loop over the properties: the type, the `constraints` list, the line. */
  method FieldValidationLine(p: Property) returns (line: string)
    ensures line == FieldLine(p)
  {
    var f := p.schema;
    var fieldType := TypeDisplay(f.bsonType);
    var constraints := CollectConstraints(f);
    var constraintStr := if |constraints| > 0 then " (" + Join(", ", constraints) + ")" else "";
    line := BulletPrefix + p.name + ": " + fieldType + constraintStr;
  }

  /** The `constraints` list of one pass, one append per keyword present, in report order. */
  method CollectConstraints(f: FieldSchema) returns (constraints: seq<string>)
    ensures constraints == Constraints(f)
  {
    constraints := [];
    // Each checkpoint records one append: the list so far is the previous one plus that keyword's part.
    if f.pattern.Some? {
      constraints := constraints + ["pattern: " + PatternSource(f.pattern.value)];
    }
    ghost var c1 := constraints;
    assert c1 == PatternConstraint(f);
    if f.enumValues.Some? {
      constraints := constraints + ["enum: " + StrListRepr(f.enumValues.value)];
    }
    ghost var c2 := constraints;
    assert c2 == c1 + EnumConstraint(f);
    if f.minimum.Some? {
      constraints := constraints + ["min: " + IntToString(f.minimum.value)];
    }
    ghost var c3 := constraints;
    assert c3 == c2 + MinimumConstraint(f);
    if f.maximum.Some? {
      constraints := constraints + ["max: " + IntToString(f.maximum.value)];
    }
    ghost var c4 := constraints;
    assert c4 == c3 + MaximumConstraint(f);
    if f.minLength.Some? {
      constraints := constraints + ["minLen: " + IntToString(f.minLength.value)];
    }
    ghost var c5 := constraints;
    assert c5 == c4 + MinLengthConstraint(f);
    if f.maxLength.Some? {
      constraints := constraints + ["maxLen: " + IntToString(f.maxLength.value)];
    }
    assert constraints == c5 + MaxLengthConstraint(f);
    ConcatRegroup6(PatternConstraint(f), EnumConstraint(f), MinimumConstraint(f),
      MaximumConstraint(f), MinLengthConstraint(f), MaxLengthConstraint(f));
  }

  class StatusCommand {
    var out: seq<string>

    constructor ()
      ensures out == []
    {
      out := [];
    }

    /** `show_collection_validation` over the `listCollections` reply `batch`. */
    method ShowCollectionValidation(batch: seq<CollectionInfo>, name: string)
      modifies this
      ensures out == old(out) + StatusReport(batch, name)
    {
      // The loop over `firstBatch` ends every pass with `break`: only the first entry is read.
      if |batch| > 0 {
        var info := batch[0];
        var options := info.options.GetOr(NoOptions);
        out := out + [CollectionPrefix + name];
        out := out + [Repeat('-', 30)];
        ghost var header := [CollectionPrefix + name, Rule];
        assert out == old(out) + header;
        ghost var start := out;
        if options.validator.Some? {
          var validationLevel := options.validationLevel.GetOr("strict");
          var validationAction := options.validationAction.GetOr("error");
          out := out + [EnabledStatus];
          out := out + [LevelPrefix + validationLevel];
          out := out + [ActionPrefix + validationAction];
          ghost var status := [EnabledStatus, LevelPrefix + LevelOf(options), ActionPrefix + ActionOf(options)];
          assert out == start + status;
          if options.validator.value.JsonSchemaValidator? {
            WriteSchemaLines(options.validator.value.schema);
          } else {
            assert status + ValidatorLines(options.validator.value) == status;
          }
          ConcatRegroup3(start, status, ValidatorLines(options.validator.value));
        } else {
          out := out + [DisabledStatus];
        }
        assert out == start + ValidationLines(options);
        ConcatRegroup3(old(out), header, ValidationLines(options));
      }
    }

    /** The `$jsonSchema` part of the report: required keys, property count, field lines. */
    method WriteSchemaLines(schema: CollectionSchema)
      modifies this
      ensures out == old(out) + SchemaLines(schema)
    {
      var requiredFields := schema.required;
      var properties := schema.properties;
      out := out + [RequiredPrefix + (if |requiredFields| > 0 then Join(", ", requiredFields) else "None")];
      out := out + [PropertiesPrefix + IntToString(|properties|)];
      ghost var counts := [RequiredLine(requiredFields), PropertiesPrefix + IntToString(|properties|)];
      assert out == old(out) + counts;
      if |properties| > 0 {
        out := out + [FieldsHeading];
        WriteFieldLines(properties);
        ConcatRegroup4(old(out), counts, [FieldsHeading], FieldLines(properties));
      }
    }

    /** The loop over the properties, one line per property. */
    method WriteFieldLines(properties: seq<Property>)
      modifies this
      ensures out == old(out) + FieldLines(properties)
    {
      var i := 0;
      while i < |properties|
        invariant 0 <= i <= |properties|
        invariant out == old(out) + FieldLines(properties[..i])
      {
        var line := FieldValidationLine(properties[i]);
        out := out + [line];
        MapSnoc(FieldLine, properties, i);
        ConcatRegroup3(old(out), FieldLines(properties[..i]), [line]);
        i := i + 1;
      }
      assert properties[..i] == properties;
    }
  }
}
