/**
 * The part of MongoDB's `$jsonSchema` validator that the application's schemas use,
 * as a typed constraint model with one generic interpreter, `Valid`.
 *
 * The keywords follow JSON Schema draft 4 (the validation vocabulary of
 * draft-fge-json-schema-validation-00): `required` (section 5.4.3), `properties` and
 * `additionalProperties` (section 5.4.4), `pattern` (5.2.3), `maxLength` and
 * `minLength` (5.2.1, 5.2.2), `maximum` and `minimum` (5.1.2, 5.1.3, both inclusive
 * here), `items` (5.3.1), `uniqueItems` (5.3.4) and `enum` (5.5.1); `bsonType` is
 * MongoDB's own variant of `type`. A keyword about strings constrains only strings,
 * one about numbers only numbers, one about arrays only arrays; `enum` and
 * `bsonType` constrain every value.
 */
module JsonSchema {
  import opened Wrappers
  import opened Bson

  /** The `bsonType` keyword: one alias, or a list of aliases of which one must hold. */
  datatype BsonType = Alias(tag: TypeTag) | AnyOf(tags: seq<TypeTag>)

  /** The three regular expressions the schemas use (there is no general regex engine here). */
  datatype Pattern =
    | EmployeeIdPattern   // ^E[0-9]{3}$
    | UsernamePattern     // ^[a-zA-Z0-9_]+$
    | EmailPattern        // ^[a-zA-Z0-9._%+-]+@[a-zA-Z0-9.-]+\.[a-zA-Z]{2,}$

  /** The schema of one property: each keyword is optional. */
  datatype FieldSchema = FieldSchema(
    bsonType: Option<BsonType>,
    pattern: Option<Pattern>,
    enumValues: Option<seq<string>>,
    minimum: Option<int>,
    maximum: Option<int>,
    minLength: Option<nat>,
    maxLength: Option<nat>,
    items: Option<FieldSchema>,
    uniqueItems: bool,
    description: Option<string>)

  /** The schema that constrains nothing: every keyword absent. */
  const AnyField: FieldSchema :=
    FieldSchema(None, None, None, None, None, None, None, None, false, None)

  datatype Property = Property(name: string, schema: FieldSchema)

  /** The top level of a `$jsonSchema` document; `properties` keeps the dictionary's order. */
  datatype CollectionSchema = CollectionSchema(
    bsonType: Option<BsonType>,
    required: seq<string>,
    properties: seq<Property>,
    additionalProperties: bool)

  // ---- the patterns, character class by character class ----

  predicate IsAsciiDigit(c: char) { '0' <= c <= '9' }

  predicate IsAsciiLetter(c: char) { 'a' <= c <= 'z' || 'A' <= c <= 'Z' }

  /** `[a-zA-Z0-9_]` */
  predicate IsWordChar(c: char) { IsAsciiLetter(c) || IsAsciiDigit(c) || c == '_' }

  /** `[a-zA-Z0-9._%+-]` */
  predicate IsEmailLocalChar(c: char) {
    IsAsciiLetter(c) || IsAsciiDigit(c) || c == '.' || c == '_' || c == '%' || c == '+' || c == '-'
  }

  /** `[a-zA-Z0-9.-]` */
  predicate IsEmailHostChar(c: char) { IsAsciiLetter(c) || IsAsciiDigit(c) || c == '.' || c == '-' }

  predicate AllChars(s: string, p: char -> bool) {
    forall k :: 0 <= k < |s| ==> p(s[k])
  }

  /** `^E[0-9]{3}$`: an `E` and exactly three ASCII digits. */
  predicate MatchesEmployeeId(s: string) {
    |s| == 4 && s[0] == 'E' && AllChars(s[1..], IsAsciiDigit)
  }

  /** `^[a-zA-Z0-9_]+$` */
  predicate MatchesUsername(s: string) {
    |s| >= 1 && AllChars(s, IsWordChar)
  }

  /**
   * `^[a-zA-Z0-9._%+-]+@[a-zA-Z0-9.-]+\.[a-zA-Z]{2,}$`: some split of the text into a
   * non-empty local part, `@`, a non-empty host, `.`, and a top-level domain of at
   * least two letters (`$` taken as the end of the text).
   */
  predicate MatchesEmail(s: string) {
    exists at, dot ::
      && 1 <= at && at + 2 <= dot && dot + 3 <= |s|
      && s[at] == '@' && s[dot] == '.'
      && AllChars(s[..at], IsEmailLocalChar)
      && AllChars(s[at + 1..dot], IsEmailHostChar)
      && AllChars(s[dot + 1..], IsAsciiLetter)
  }

  predicate Matches(p: Pattern, s: string) {
    match p
    case EmployeeIdPattern => MatchesEmployeeId(s)
    case UsernamePattern => MatchesUsername(s)
    case EmailPattern => MatchesEmail(s)
  }

  /** The pattern as the schema writes it. */
  function PatternSource(p: Pattern): string {
    match p
    case EmployeeIdPattern => "^E[0-9]{3}$"
    case UsernamePattern => "^[a-zA-Z0-9_]+$"
    case EmailPattern => "^[a-zA-Z0-9._%+-]+@[a-zA-Z0-9.-]+\\.[a-zA-Z]{2,}$"
  }

  // ---- the interpreter ----

  predicate TypeMatches(t: Option<BsonType>, v: Value) {
    match t
    case None => true
    case Some(Alias(tag)) => TypeOf(v) == tag
    case Some(AnyOf(tags)) => TypeOf(v) in tags
  }

  /** No two elements equal (`uniqueItems`). */
  predicate Distinct(xs: seq<Value>) {
    forall i, j :: 0 <= i < j < |xs| ==> xs[i] != xs[j]
  }

  predicate StringValid(s: string, f: FieldSchema) {
    && (f.pattern.Some? ==> Matches(f.pattern.value, s))
    && (f.minLength.Some? ==> f.minLength.value <= |s|)
    && (f.maxLength.Some? ==> |s| <= f.maxLength.value)
  }

  predicate NumberValid(i: int, f: FieldSchema) {
    && (f.minimum.Some? ==> f.minimum.value <= i)
    && (f.maximum.Some? ==> i <= f.maximum.value)
  }

  /** Does the value `v` satisfy the property schema `f`? */
  predicate FieldValid(v: Value, f: FieldSchema)
    decreases f
  {
    && TypeMatches(f.bsonType, v)
    && (f.enumValues.Some? ==> v.Str? && v.s in f.enumValues.value)
    && (v.Str? ==> StringValid(v.s, f))
    && (v.Int? ==> NumberValid(v.i, f))
    && (v.Array? && f.items.Some? ==>
          forall k :: 0 <= k < |v.elems| ==> FieldValid(v.elems[k], f.items.value))
    && (v.Array? && f.uniqueItems ==> Distinct(v.elems))
  }

  /** Is `key` one of the schema's listed properties? */
  predicate IsDeclared(key: string, cs: CollectionSchema) {
    exists k :: 0 <= k < |cs.properties| && cs.properties[k].name == key
  }

  /** Does the document satisfy the collection schema? */
  predicate Valid(doc: Document, cs: CollectionSchema) {
    && TypeMatches(cs.bsonType, Object(doc))
    && (forall r :: r in cs.required ==> r in doc)
    && (forall k :: 0 <= k < |cs.properties| && cs.properties[k].name in doc ==>
          FieldValid(doc[cs.properties[k].name], cs.properties[k].schema))
    && (!cs.additionalProperties ==> forall key :: key in doc ==> IsDeclared(key, cs))
  }

  // ---- general properties of the interpreter ----

  lemma ValidRequiredPresent(doc: Document, cs: CollectionSchema, k: nat)
    requires Valid(doc, cs) && k < |cs.required|
    ensures cs.required[k] in doc
  {
  }

  lemma ValidPropertyHolds(doc: Document, cs: CollectionSchema, k: nat)
    requires Valid(doc, cs) && k < |cs.properties| && cs.properties[k].name in doc
    ensures FieldValid(doc[cs.properties[k].name], cs.properties[k].schema)
  {
  }

  /** A document that lacks a required key is rejected, whatever else it holds. */
  lemma MissingRequiredRejected(doc: Document, cs: CollectionSchema, key: string)
    requires key in cs.required && key !in doc
    ensures !Valid(doc, cs)
  {
  }

  /** With `additionalProperties: true`, adding or replacing an unlisted key keeps a document valid. */
  lemma AdditionalPropertyKept(doc: Document, cs: CollectionSchema, key: string, v: Value)
    requires Valid(doc, cs)
    requires cs.additionalProperties && !IsDeclared(key, cs)
    ensures Valid(doc[key := v], cs)
  {
    var doc' := doc[key := v];
    forall k | 0 <= k < |cs.properties| && cs.properties[k].name in doc'
      ensures FieldValid(doc'[cs.properties[k].name], cs.properties[k].schema)
    {
      assert cs.properties[k].name != key;
    }
  }

  /** With `additionalProperties: false`, a document with an unlisted key is rejected. */
  lemma UndeclaredKeyRejected(doc: Document, cs: CollectionSchema, key: string)
    requires !cs.additionalProperties && key in doc && !IsDeclared(key, cs)
    ensures !Valid(doc, cs)
  {
  }

  /** Dropping a key the schema does not require keeps a document valid. */
  lemma OptionalKeyRemovable(doc: Document, cs: CollectionSchema, key: string)
    requires Valid(doc, cs) && key !in cs.required
    ensures Valid(doc - {key}, cs)
  {
    var doc' := doc - {key};
    forall k | 0 <= k < |cs.properties| && cs.properties[k].name in doc'
      ensures FieldValid(doc'[cs.properties[k].name], cs.properties[k].schema)
    {
      assert doc'[cs.properties[k].name] == doc[cs.properties[k].name];
    }
  }
}
