/**
 * The employee REST view set: `create` refuses an `employee_id` that is already
 * stored before handing the request to the framework's standard create, and
 * `get_by_id` answers with the stored record or 404.
 *
 * The `employees` table is a map from primary key (`employee_id`, a unique
 * primary key in the model class) to the stored record. The framework's create
 * (serializer validation, then save) is not visible; it is the opaque predicate
 * `accepts`, fixed when the view set is built.
 */
module Views {
  import opened Wrappers
  import opened Bson
  import opened JsonSchema
  import opened Schemas
  import opened ApplySchemaValidation

  const HttpOk: nat := 200
  const HttpCreated: nat := 201
  const HttpBadRequest: nat := 400
  const HttpNotFound: nat := 404

  const DuplicateMessage: string := "employee_id must be unique"
  const NotFoundMessage: string := "Employee not found"

  datatype Body =
    | RecordBody(record: Document)   // the serialized employee
    | ErrorBody(error: string)       // {'error': …}
    | SerializerErrors               // the framework's validation errors

  datatype Response = Response(status: nat, body: Body)

  /**
   * `request.data.get('employee_id')` as a primary key: only a string names a row.
   * Anything else finds no row and is left to the serializer.
   */
  function EmployeeKey(data: Document): (key: Option<string>)
    ensures key.Some? <==> "employee_id" in data && data["employee_id"].Str?
    ensures key.Some? ==> data["employee_id"] == Str(key.value)
  {
    if "employee_id" in data && data["employee_id"].Str? then Some(data["employee_id"].s) else None
  }

  /** Every row is stored under its own `employee_id`. */
  predicate Keyed(objects: map<string, Document>) {
    forall id :: id in objects ==> EmployeeKey(objects[id]) == Some(id)
  }

  /** At most one stored record per `employee_id`. */
  predicate OnePerEmployeeId(objects: map<string, Document>) {
    forall a, b ::
      (&& a in objects && b in objects
       && "employee_id" in objects[a] && "employee_id" in objects[b]
       && objects[a]["employee_id"] == objects[b]["employee_id"])
      ==> a == b
  }

  lemma KeyedIsOnePerEmployeeId(objects: map<string, Document>)
    requires Keyed(objects)
    ensures OnePerEmployeeId(objects)
  {
    forall a, b | a in objects && b in objects && "employee_id" in objects[a] && "employee_id" in objects[b]
      && objects[a]["employee_id"] == objects[b]["employee_id"]
      ensures a == b
    {
      assert EmployeeKey(objects[a]) == Some(a);
      assert EmployeeKey(objects[b]) == Some(b);
    }
  }

  /** Storing a record under its own, fresh id keeps the table keyed and one record per id. */
  lemma KeyedInsert(objects: map<string, Document>, data: Document)
    requires Keyed(objects)
    requires EmployeeKey(data).Some? && EmployeeKey(data).value !in objects
    ensures Keyed(objects[EmployeeKey(data).value := data])
    ensures OnePerEmployeeId(objects[EmployeeKey(data).value := data])
    ensures objects[EmployeeKey(data).value := data] - {EmployeeKey(data).value} == objects
  {
    var updated := objects[EmployeeKey(data).value := data];
    KeyedIsOnePerEmployeeId(updated);
  }

  class EmployeeViewSet {
    /** `Employee.objects`, by primary key. */
    var objects: map<string, Document>
    /** Whether the framework's create validates and saves a request body. */
    const accepts: Document -> bool

    ghost predicate Valid()
      reads this
    {
      && Keyed(objects)
      && forall id :: id in objects ==> accepts(objects[id])
    }

    constructor (accepts: Document -> bool)
      ensures Valid()
      ensures objects == map[] && this.accepts == accepts
    {
      objects := map[];
      this.accepts := accepts;
    }

    /** `create`: the duplicate guard, then the framework's create. */
    method Create(data: Document) returns (response: Response)
      requires Valid()
      modifies this
      ensures Valid()
      ensures var key := EmployeeKey(data);
        if key.Some? && key.value in old(objects) then
          response == Response(HttpBadRequest, ErrorBody(DuplicateMessage)) && objects == old(objects)
        else if key.Some? && accepts(data) then
          response == Response(HttpCreated, RecordBody(data)) && objects == old(objects)[key.value := data]
        else
          response == Response(HttpBadRequest, SerializerErrors) && objects == old(objects)
    {
      var key := EmployeeKey(data);
      if key.Some? && key.value in objects {
        return Response(HttpBadRequest, ErrorBody(DuplicateMessage));
      }
      // The framework's create: without a string primary key the serializer refuses the body.
      if key.Some? && accepts(data) {
        KeyedInsert(objects, data);
        objects := objects[key.value := data];
        response := Response(HttpCreated, RecordBody(data));
      } else {
        response := Response(HttpBadRequest, SerializerErrors);
      }
    }

    /** `get_by_id`: the stored record, or 404. */
    method GetById(employeeId: string) returns (response: Response)
      ensures employeeId in objects <==> response.status == HttpOk
      ensures employeeId in objects ==> response == Response(HttpOk, RecordBody(objects[employeeId]))
      ensures employeeId !in objects ==> response == Response(HttpNotFound, ErrorBody(NotFoundMessage))
    {
      if employeeId in objects {
        response := Response(HttpOk, RecordBody(objects[employeeId]));
      } else {
        response := Response(HttpNotFound, ErrorBody(NotFoundMessage));
      }
    }
  }

  /**
   * When the framework's create admits only documents the employees collection's
   * schema accepts, every stored record also passes the command's hand check.
   */
  lemma StoredEmployeesPassHandCheck(objects: map<string, Document>, accepts: Document -> bool)
    requires forall id :: id in objects ==> accepts(objects[id])
    requires forall doc :: accepts(doc) ==> Valid(doc, EmployeeSchema)
    ensures forall id :: id in objects ==> ValidateEmployeeDoc(objects[id])
  {
    forall id | id in objects ensures ValidateEmployeeDoc(objects[id]) {
      HandCheckSound(objects[id]);
    }
  }
}
