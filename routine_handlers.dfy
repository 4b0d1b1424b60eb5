/** The mock backend's in-memory routine table and its GET, POST and DELETE handlers. */
module RoutineHandlers {
  import opened Wrappers
  import opened Json

  datatype Routine = Routine(
    id: string,
    name: string,
    description: Option<string>,
    lastDone: string,
    createdAt: string,
    updatedAt: string)

  /** The three generated date strings a new routine carries. */
  datatype Stamps = Stamps(lastDone: string, createdAt: string, updatedAt: string)

  /** The decoded body of a create request. */
  datatype CreateRoutineRequest = CreateRoutineRequest(name: string, description: Option<string>)

  /** `HttpResponse.json(body, { status })`. */
  datatype Reply = Reply(status: int, body: Json)

  const MOCKED_ERROR_STATUS := 555
  const OK_STATUS := 200

  /** The name that makes POST fail, and the slug that makes DELETE fail. */
  const ERROR_NAME_TRIGGER := "error"
  const ERROR_SLUG_TRIGGER := "1"

  /** The values `faker.helpers.arrayElements([null, {}])` can return: a non-empty selection of
      the two elements, in either order. */
  predicate IsMockedErrorDetails(details: seq<Json>) {
    details in {[JNull], [JObject(map[])], [JNull, JObject(map[])], [JObject(map[]), JNull]}
  }

  /** `MOCKED_ERROR_MESSAGE`: the backend error envelope the mock sends. */
  function MockedErrorBody(details: seq<Json>): (j: Json)
    ensures j.JObject? && j.members.Keys == {"statusCode", "errorType", "message", "details"}
  {
    JObject(map[
      "statusCode" := JNumber(555.0),
      "errorType" := JString("MOCKED_ERROR"),
      "message" := JString("Mocked error message"),
      "details" := JArray(details)])
  }

  function MockedErrorReply(details: seq<Json>): Reply {
    Reply(MOCKED_ERROR_STATUS, MockedErrorBody(details))
  }

  /** The keys a serialised routine has: the five always-defined fields, and `description`
      when it is defined. */
  function RoutineKeys(r: Routine): set<string> {
    {"id", "name", "lastDone", "createdAt", "updatedAt"}
      + (if r.description.Some? then {"description"} else {})
  }

  /** The JSON a routine serialises to; an undefined description is dropped. */
  function RoutineToJson(r: Routine): (j: Json)
    ensures j.JObject? && j.members.Keys == RoutineKeys(r)
    ensures j.members["id"] == JString(r.id) && j.members["name"] == JString(r.name)
    ensures j.members["lastDone"] == JString(r.lastDone)
    ensures j.members["createdAt"] == JString(r.createdAt)
    ensures j.members["updatedAt"] == JString(r.updatedAt)
    ensures r.description.Some? ==> j.members["description"] == JString(r.description.value)
  {
    var base := map[
      "id" := JString(r.id),
      "name" := JString(r.name),
      "lastDone" := JString(r.lastDone),
      "createdAt" := JString(r.createdAt),
      "updatedAt" := JString(r.updatedAt)];
    JObject(if r.description.Some? then base["description" := JString(r.description.value)] else base)
  }

  /** A string member of a JSON object. */
  function StringMember(j: Json, key: string): Option<string> {
    if j.JObject? && key in j.members && j.members[key].JString? then Some(j.members[key].s) else None
  }

  /** Reads a routine back from the JSON a client receives: the five string fields must be there,
      and `description` is optional. */
  function RoutineFromJson(j: Json): Option<Routine> {
    var id, name := StringMember(j, "id"), StringMember(j, "name");
    var lastDone, createdAt, updatedAt :=
      StringMember(j, "lastDone"), StringMember(j, "createdAt"), StringMember(j, "updatedAt");
    if id.Some? && name.Some? && lastDone.Some? && createdAt.Some? && updatedAt.Some? then
      Some(Routine(id.value, name.value, StringMember(j, "description"),
                   lastDone.value, createdAt.value, updatedAt.value))
    else None
  }

  /** Every field of a routine survives serialisation: the reply a client reads back is the
      routine the handler stored. */
  lemma RoutineJsonRoundTrip(r: Routine)
    ensures RoutineFromJson(RoutineToJson(r)) == Some(r)
  {
    var j := RoutineToJson(r);
    if r.description.None? {
      assert "description" !in RoutineKeys(r);
    }
  }

  function RoutinesToJson(routines: seq<Routine>): (items: seq<Json>)
    ensures |items| == |routines|
    ensures forall i :: 0 <= i < |routines| ==> items[i] == RoutineToJson(routines[i])
  {
    seq(|routines|, i requires 0 <= i < |routines| => RoutineToJson(routines[i]))
  }

  /** The table the module starts with: "Leg Day" with id "1", then "Upper Body" with a
      generated id. */
  function InitialRoutines(secondId: string, first: Stamps, second: Stamps): (t: seq<Routine>)
    ensures |t| == 2
    ensures t[0].id == ERROR_SLUG_TRIGGER && t[0].name == "Leg Day"
    ensures t[1].id == secondId && t[1].name == "Upper Body"
  {
    [ Routine("1", "Leg Day", Some("Leg day routine description"),
              first.lastDone, first.createdAt, first.updatedAt),
      Routine(secondId, "Upper Body", Some("Upper body routine description"),
              second.lastDone, second.createdAt, second.updatedAt) ]
  }

  /** `routines.filter((routine) => routine.id !== slug)`. */
  function RemoveId(routines: seq<Routine>, slug: string): (r: seq<Routine>)
    ensures |r| <= |routines|
    ensures forall x :: x in r <==> x in routines && x.id != slug
  {
    if routines == [] then []
    else if routines[0].id != slug then [routines[0]] + RemoveId(routines[1..], slug)
    else RemoveId(routines[1..], slug)
  }

  /** Filtering works element by element, so the kept routines stay in their original order. */
  lemma {:induction false} RemoveIdAppend(a: seq<Routine>, b: seq<Routine>, slug: string)
    ensures RemoveId(a + b, slug) == RemoveId(a, slug) + RemoveId(b, slug)
  {
    if a != [] {
      assert (a + b)[1..] == a[1..] + b;
      RemoveIdAppend(a[1..], b, slug);
    } else {
      assert a + b == b;
    }
  }

  /** Deleting a slug no routine has leaves the table as it was. */
  lemma {:induction false} RemoveIdAbsent(routines: seq<Routine>, slug: string)
    requires forall i :: 0 <= i < |routines| ==> routines[i].id != slug
    ensures RemoveId(routines, slug) == routines
  {
    if routines != [] {
      RemoveIdAbsent(routines[1..], slug);
    }
  }

  /** Creating a routine under a fresh id and then deleting that id restores the table. */
  lemma CreateThenDeleteRestores(routines: seq<Routine>, added: Routine)
    requires forall i :: 0 <= i < |routines| ==> routines[i].id != added.id
    ensures RemoveId(routines + [added], added.id) == routines
  {
    RemoveIdAppend(routines, [added], added.id);
    RemoveIdAbsent(routines, added.id);
    assert RemoveId([added], added.id) == [];
  }

  /** `ROUTINES_LIST` with the handlers that read and change it. The generated ids, dates and
      error details are parameters. */
  class RoutineStore {
    var routines: seq<Routine>
    /** `MOCKED_ERROR_MESSAGE.details`, drawn once when the module loads. */
    const errorDetails: seq<Json>

    constructor (secondId: string, first: Stamps, second: Stamps, errorDetails: seq<Json>)
      requires IsMockedErrorDetails(errorDetails)
      ensures routines == InitialRoutines(secondId, first, second)
      ensures this.errorDetails == errorDetails
    {
      routines := InitialRoutines(secondId, first, second);
      this.errorDetails := errorDetails;
    }

    /** GET /routines: the whole table as a JSON array; the table is not changed. */
    method List() returns (reply: Reply)
      ensures reply.status == OK_STATUS && reply.body.JArray?
      ensures |reply.body.items| == |routines|
      ensures forall i :: 0 <= i < |routines| ==> reply.body.items[i] == RoutineToJson(routines[i])
    {
      reply := Reply(OK_STATUS, JArray(RoutinesToJson(routines)));
    }

    /** POST /routines: the name "error" answers the 555 envelope and changes nothing; any other
        name appends one routine at the end and answers it. */
    method Create(request: CreateRoutineRequest, id: string, stamps: Stamps) returns (reply: Reply)
      modifies this
      ensures request.name == ERROR_NAME_TRIGGER ==>
        reply == MockedErrorReply(errorDetails) && routines == old(routines)
      ensures request.name != ERROR_NAME_TRIGGER ==>
        var added := Routine(id, request.name, request.description,
                             stamps.lastDone, stamps.createdAt, stamps.updatedAt);
        routines == old(routines) + [added] && reply == Reply(OK_STATUS, RoutineToJson(added))
    {
      if request.name == ERROR_NAME_TRIGGER {
        return MockedErrorReply(errorDetails);
      }
      var routine := Routine(id, request.name, request.description,
                             stamps.lastDone, stamps.createdAt, stamps.updatedAt);
      routines := routines + [routine];
      reply := Reply(OK_STATUS, RoutineToJson(routine));
    }

    /** DELETE /routines/:slug: slug "1" answers the 555 envelope and changes nothing; any other
        slug drops every routine with that id and answers `{}`. */
    method Delete(slug: string) returns (reply: Reply)
      modifies this
      ensures slug == ERROR_SLUG_TRIGGER ==>
        reply == MockedErrorReply(errorDetails) && routines == old(routines)
      ensures slug != ERROR_SLUG_TRIGGER ==>
        routines == RemoveId(old(routines), slug) && reply == Reply(OK_STATUS, JObject(map[]))
    {
      if slug == ERROR_SLUG_TRIGGER {
        return MockedErrorReply(errorDetails);
      }
      routines := RemoveId(routines, slug);
      reply := Reply(OK_STATUS, JObject(map[]));
    }
  }

  /** A client of the store: a create followed by a delete of the new id leaves the table as it
      was, provided the new id was not in use. */
  method CreateThenDelete(store: RoutineStore, request: CreateRoutineRequest, id: string, stamps: Stamps)
    returns (created: Reply, deleted: Reply)
    requires request.name != ERROR_NAME_TRIGGER && id != ERROR_SLUG_TRIGGER
    requires forall i :: 0 <= i < |store.routines| ==> store.routines[i].id != id
    modifies store
    ensures store.routines == old(store.routines)
    ensures created.status == OK_STATUS && deleted == Reply(OK_STATUS, JObject(map[]))
  {
    created := store.Create(request, id, stamps);
    deleted := store.Delete(id);
    CreateThenDeleteRestores(old(store.routines), Routine(id, request.name, request.description,
                             stamps.lastDone, stamps.createdAt, stamps.updatedAt));
  }
}
