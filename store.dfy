/**
 * The database the management commands talk to, as abstract state: each existing
 * collection has its options (validator, validation level, validation action) and
 * its documents in natural order. `listCollections` filtered by name and the
 * server's enforcement of a `$jsonSchema` validator on inserts are functions of it.
 */
module Store {
  import opened Wrappers
  import opened Bson
  import opened JsonSchema

  /** A collection's validator: a `$jsonSchema` document or a query expression (kept opaque). */
  datatype Validator = JsonSchemaValidator(schema: CollectionSchema) | QueryValidator(expression: Document)

  /** The validation part of a collection's options; a key the server did not store is None. */
  datatype CollectionOptions = CollectionOptions(
    validator: Option<Validator>,
    validationLevel: Option<string>,
    validationAction: Option<string>)

  const NoOptions: CollectionOptions := CollectionOptions(None, None, None)

  datatype Collection = Collection(options: CollectionOptions, documents: seq<Document>)

  /** One entry of `firstBatch` in a `listCollections` reply; `options` may be missing. */
  datatype CollectionInfo = CollectionInfo(name: string, options: Option<CollectionOptions>)

  class Database {
    var collections: map<string, Collection>

    constructor (collections: map<string, Collection>)
      ensures this.collections == collections
    {
      this.collections := collections;
    }
  }

  /** The `firstBatch` of `listCollections` with the filter `{"name": name}`. */
  function ListCollections(collections: map<string, Collection>, name: string): (batch: seq<CollectionInfo>)
    ensures |batch| <= 1
    ensures |batch| == 1 <==> name in collections
    ensures forall k :: 0 <= k < |batch| ==> batch[k] == CollectionInfo(name, Some(collections[name].options))
  {
    if name in collections then [CollectionInfo(name, Some(collections[name].options))] else []
  }

  /** The level and the action the server applies when the options leave them out. */
  function LevelOf(options: CollectionOptions): string { options.validationLevel.GetOr("strict") }

  function ActionOf(options: CollectionOptions): string { options.validationAction.GetOr("error") }

  /**
   * Does the server refuse to insert `doc` into a collection with these options?
   * Only a `$jsonSchema` validator whose level is not "off" and whose action is
   * "error" refuses; with "warn" the write is accepted and logged.
   */
  predicate RejectsInsert(options: CollectionOptions, doc: Document) {
    && options.validator.Some?
    && options.validator.value.JsonSchemaValidator?
    && LevelOf(options) != "off"
    && ActionOf(options) == "error"
    && !Valid(doc, options.validator.value.schema)
  }
}
