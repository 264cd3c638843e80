/** The v1 REST controller for license-key generators (includes/api/v1/Generators.php):
    four handlers, each a fixed chain of early-return checks in front of at most one
    repository call. The repository is not part of this model: each handler receives
    the outcome the repository would give and reports, beside its response, the
    repository call it made. */
module GeneratorsApi {
  import opened Php
  import Decimal

  /** The generator resource model; each field is what the matching getter returns. */
  datatype Generator = Generator(
    id: Value, name: Value, charset: Value, chunks: Value, chunkLength: Value,
    timesActivatedMax: Value, separator: Value, prefix: Value, suffix: Value,
    expiresIn: Value, createdAt: Value, createdBy: Value, updatedAt: Value, updatedBy: Value)

  /** A PHP associative array in key order, as returned by getGeneratorData. */
  type Dto = seq<(string, Value)>

  const DtoKeys: seq<string> := [
    "id", "name", "charset", "chunks", "chunk_length", "times_activated_max", "separator",
    "prefix", "suffix", "expires_in", "created_at", "created_by", "updated_at", "updated_by"]

  function Keys(d: Dto): (ks: seq<string>)
    ensures |ks| == |d| && forall i :: 0 <= i < |d| ==> ks[i] == d[i].0
  {
    if d == [] then [] else [d[0].0] + Keys(d[1..])
  }

  /** The value stored under the first occurrence of `key`. */
  function Get(d: Dto, key: string): (r: Option<Value>)
    ensures r.None? <==> key !in Keys(d)
  {
    if d == [] then None else if d[0].0 == key then Some(d[0].1) else Get(d[1..], key)
  }

  predicate Distinct(ks: seq<string>)
  {
    forall i, j :: 0 <= i < j < |ks| ==> ks[i] != ks[j]
  }

  /** Pairs keys with values position by position. */
  function Zip(ks: seq<string>, vs: seq<Value>): (d: Dto)
    requires |ks| == |vs|
    ensures Keys(d) == ks
  {
    if ks == [] then [] else [(ks[0], vs[0])] + Zip(ks[1..], vs[1..])
  }

  lemma {:induction false} GetZip(ks: seq<string>, vs: seq<Value>, i: nat)
    requires |ks| == |vs| && Distinct(ks) && i < |ks|
    ensures Get(Zip(ks, vs), ks[i]) == Some(vs[i])
  {
    if i > 0 {
      assert ks[0] != ks[i];
      assert Distinct(ks[1..]) by {
        forall a, b | 0 <= a < b < |ks| - 1 ensures ks[1..][a] != ks[1..][b] {
          assert ks[a + 1] != ks[b + 1];
        }
      }
      GetZip(ks[1..], vs[1..], i - 1);
    }
  }

  /** The getters of a generator, in the order getGeneratorData lists them. */
  function Getters(g: Generator): seq<Value>
  {
    [g.id, g.name, g.charset, g.chunks, g.chunkLength, g.timesActivatedMax, g.separator,
     g.prefix, g.suffix, g.expiresIn, g.createdAt, g.createdBy, g.updatedAt, g.updatedBy]
  }

  /** getGeneratorData: the fourteen getters under fourteen keys, in a fixed order. */
  function GeneratorData(g: Generator): (d: Dto)
    ensures Keys(d) == DtoKeys
  {
    Zip(DtoKeys, Getters(g))
  }

  lemma DtoKeysDistinct()
    ensures Distinct(DtoKeys)
  {
  }

  /** Each key of getGeneratorData holds the matching getter's value. */
  lemma GeneratorDataFields(g: Generator)
    ensures var d := GeneratorData(g);
      && Get(d, "id") == Some(g.id) && Get(d, "name") == Some(g.name)
      && Get(d, "charset") == Some(g.charset) && Get(d, "chunks") == Some(g.chunks)
      && Get(d, "chunk_length") == Some(g.chunkLength)
      && Get(d, "times_activated_max") == Some(g.timesActivatedMax)
      && Get(d, "separator") == Some(g.separator) && Get(d, "prefix") == Some(g.prefix)
      && Get(d, "suffix") == Some(g.suffix) && Get(d, "expires_in") == Some(g.expiresIn)
      && Get(d, "created_at") == Some(g.createdAt) && Get(d, "created_by") == Some(g.createdBy)
      && Get(d, "updated_at") == Some(g.updatedAt) && Get(d, "updated_by") == Some(g.updatedBy)
  {
    DtoKeysDistinct();
    var vs := Getters(g);
    GetZip(DtoKeys, vs, 0);
    GetZip(DtoKeys, vs, 1);
    GetZip(DtoKeys, vs, 2);
    GetZip(DtoKeys, vs, 3);
    GetZip(DtoKeys, vs, 4);
    GetZip(DtoKeys, vs, 5);
    GetZip(DtoKeys, vs, 6);
    GetZip(DtoKeys, vs, 7);
    GetZip(DtoKeys, vs, 8);
    GetZip(DtoKeys, vs, 9);
    GetZip(DtoKeys, vs, 10);
    GetZip(DtoKeys, vs, 11);
    GetZip(DtoKeys, vs, 12);
    GetZip(DtoKeys, vs, 13);
  }

  datatype Payload = One(dto: Dto) | Many(dtos: seq<Dto>)

  datatype Response =
    | Success(data: Payload, status: int, route: string)  // RestController::response(true, …)
    | Error(code: string, message: string, status: int)   // new WP_Error(code, message, ['status' => …])
    | RouteDisabled                                       // RestController::routeDisabledError()
    | Uncaught(message: string)                           // an exception that leaves the handler

  const DataErrorCode := "lmfwc_rest_data_error"

  function DataError(message: string): (r: Response)
    ensures r.Error? && r.code == DataErrorCode && r.status == 404 && r.message == message
  {
    Error(DataErrorCode, message, 404)
  }

  /** Every WP_Error the controller builds carries the same code and status 404. */
  predicate UniformError(r: Response)
  {
    r.Error? ==> r.code == DataErrorCode && r.status == 404
  }

  /** The outcome of a repository call: a value, or an exception with its message. */
  datatype Outcome<T> = Returned(value: T) | Threw(message: string)

  datatype RepoCall =
    | FindAll
    | Find(id: nat)
    | Insert(fields: map<string, Value>)
    | Update(id: nat, data: map<string, Value>)

  /** What a handler returns, and the repository call it made (None: the repository was not consulted). */
  datatype Handled = Handled(response: Response, call: Option<RepoCall>)

  /** A WP_REST_Request: its merged parameters and its raw body. */
  datatype Request = Request(params: map<string, Value>, body: string)

  // Route gate codes
  const ListRoute := "006"
  const ReadRoute := "007"
  const CreateRoute := "008"
  const UpdateRoute := "009"

  // Response messages
  const NoGenerators := "No Generators available"
  const InvalidId := "Generator ID is invalid."
  const NameMissing := "The Generator name is missing from the request."
  const CharsetMissing := "The Generator charset is missing from the request."
  const ChunksMissing := "The Generator chunks is missing from the request."
  const ChunkLengthMissing := "The Generator chunk length is missing from the request."
  const NotAdded := "The Generator could not be added to the database."
  const IdMissing := "The Generator ID is missing from the request."
  const NoParameters := "No parameters were provided."
  const NameInvalid := "Generator name is invalid."
  const CharsetInvalid := "Generator charset is invalid."
  const ChunksNotNumeric := "Generator chunks must be an absolute integer."
  const ChunkLengthNotNumeric := "Generator chunk_length must be an absolute integer."
  const TimesActivatedMaxNotNumeric := "Generator times_activated_max must be an absolute integer."
  const NotUpdated := "The generator could not be updated."

  /** sprintf('Generator with ID: %d could not be found.', id) */
  function NotFoundMessage(id: nat): string
  {
    "Generator with ID: " + Decimal.NatToString(id) + " could not be found."
  }

  // The nine fields createGenerator hands to insert, by kind.
  const StringFields: set<string> := {"name", "charset", "separator", "prefix", "suffix"}
  const NumberFields: set<string> := {"chunks", "chunk_length", "times_activated_max", "expires_in"}

  /** The array createGenerator builds for insert: a set string field is sanitized, a set
      numeric field goes through absint, and an unset one becomes null. */
  function InsertFields(rt: Runtime, body: map<string, Value>): (f: map<string, Value>)
    ensures f.Keys == StringFields + NumberFields && |f| == 9
    ensures forall k :: k in StringFields ==>
      f[k] == if IsSet(body, k) then Str(rt.sanitizeTextField(body[k])) else Null
    ensures forall k :: k in NumberFields ==>
      f[k] == if IsSet(body, k) then Int(AbsInt(rt, body[k])) else Null
    ensures forall k :: k in NumberFields ==> f[k] == Null || (f[k].Int? && f[k].i >= 0)
  {
    assert |StringFields + NumberFields| == 9;
    map k | k in StringFields + NumberFields ::
      if k in StringFields then (if IsSet(body, k) then Str(rt.sanitizeTextField(body[k])) else Null)
      else (if IsSet(body, k) then Int(AbsInt(rt, body[k])) else Null)
  }

  /** The generator id as updateGenerator reads it: absint of the parameter when that is truthy, else none (0). */
  function UpdateId(rt: Runtime, request: Request): nat
  {
    var p := Lookup(request.params, "generator_id");
    if Truthy(p) then AbsInt(rt, p) else 0
  }

  /** The decoded body as updateGenerator reads it: null unless the raw body is JSON. */
  function UpdateBody(rt: Runtime, request: Request): Value
  {
    if rt.isJson(request.body) then rt.jsonDecode(request.body) else Null
  }

  /** The checks updateGenerator applies to the fields present in the body; an absent key passes. */
  predicate NameOk(data: map<string, Value>) { "name" in data ==> !NoStrLen(data["name"]) }
  predicate CharsetOk(data: map<string, Value>) { "charset" in data ==> !NoStrLen(data["charset"]) }
  predicate NumericOk(rt: Runtime, data: map<string, Value>, key: string) { key in data ==> IsNumeric(rt, data[key]) }

  predicate UpdateDataValid(rt: Runtime, data: map<string, Value>)
  {
    NameOk(data) && CharsetOk(data) && NumericOk(rt, data, "chunks")
    && NumericOk(rt, data, "chunk_length") && NumericOk(rt, data, "times_activated_max")
  }

  /** The Generators controller; its settings are the general plugin options read at construction. */
  class Generators {
    var settings: map<string, bool>

    constructor (generalOptions: map<string, bool>)
      ensures settings == generalOptions
    {
      settings := generalOptions;
    }

    /** isRouteEnabled: a route is enabled only when its code maps to true. */
    predicate IsRouteEnabled(code: string)
      reads this
    {
      code in settings && settings[code]
    }

    /** GET generators */
    method GetGenerators(findAll: Outcome<seq<Generator>>) returns (h: Handled)
      ensures UniformError(h.response)
      ensures !IsRouteEnabled(ListRoute) ==> h == Handled(RouteDisabled, None)
      ensures IsRouteEnabled(ListRoute) ==> h.call == Some(FindAll)
      ensures IsRouteEnabled(ListRoute) && findAll.Threw? ==> h.response == DataError(findAll.message)
      ensures IsRouteEnabled(ListRoute) && findAll == Returned([]) ==> h.response == DataError(NoGenerators)
      ensures IsRouteEnabled(ListRoute) && findAll.Returned? && findAll.value != [] ==>
        && h.response.Success? && h.response.status == 200 && h.response.route == "v1/generators"
        && h.response.data.Many?
        && |h.response.data.dtos| == |findAll.value|
        && forall i :: 0 <= i < |findAll.value| ==> h.response.data.dtos[i] == GeneratorData(findAll.value[i])
    {
      if !IsRouteEnabled(ListRoute) {
        return Handled(RouteDisabled, None);
      }
      if findAll.Threw? {
        return Handled(DataError(findAll.message), Some(FindAll));
      }
      var generators := findAll.value;
      if generators == [] {
        return Handled(DataError(NoGenerators), Some(FindAll));
      }
      var response: seq<Dto> := [];
      for i := 0 to |generators|
        invariant |response| == i
        invariant forall j :: 0 <= j < i ==> response[j] == GeneratorData(generators[j])
      {
        response := response + [GeneratorData(generators[i])];
      }
      return Handled(Success(Many(response), 200, "v1/generators"), Some(FindAll));
    }

    /** GET generators/{id} */
    function GetGenerator(rt: Runtime, request: Request, find: nat -> Outcome<Option<Generator>>): (h: Handled)
      reads this
      ensures UniformError(h.response)
      ensures !IsRouteEnabled(ReadRoute) ==> h == Handled(RouteDisabled, None)
      ensures IsRouteEnabled(ReadRoute) && AbsInt(rt, Lookup(request.params, "generator_id")) == 0 ==>
        h == Handled(DataError(InvalidId), None)
      ensures h.call.Some? ==> h.call.value.Find? && h.call.value.id >= 1
      ensures IsRouteEnabled(ReadRoute) && AbsInt(rt, Lookup(request.params, "generator_id")) != 0 ==>
        var id := AbsInt(rt, Lookup(request.params, "generator_id"));
        && h.call == Some(Find(id))
        && h.response == match find(id)
             case Threw(message) => DataError(message)
             case Returned(None) => DataError(NotFoundMessage(id))
             case Returned(Some(g)) => Success(One(GeneratorData(g)), 200, "v1/generators/{id}")
    {
      if !IsRouteEnabled(ReadRoute) then Handled(RouteDisabled, None)
      else
        var id := AbsInt(rt, Lookup(request.params, "generator_id"));
        if id == 0 then Handled(DataError(InvalidId), None)
        else
          var response := match find(id)
            case Threw(message) => DataError(message)
            case Returned(found) =>
              if found.None? then DataError(NotFoundMessage(id))
              else Success(One(GeneratorData(found.value)), 200, "v1/generators/{id}");
          Handled(response, Some(Find(id)))
    }

    /** POST generators */
    function CreateGenerator(rt: Runtime, request: Request, insert: map<string, Value> -> Outcome<Option<Generator>>): (h: Handled)
      reads this
      ensures UniformError(h.response)
      ensures !IsRouteEnabled(CreateRoute) ==> h == Handled(RouteDisabled, None)
      ensures IsRouteEnabled(CreateRoute) ==>
        var f := InsertFields(rt, request.params);
        && (!Truthy(f["name"]) ==> h == Handled(DataError(NameMissing), None))
        && (Truthy(f["name"]) && !Truthy(f["charset"]) ==> h == Handled(DataError(CharsetMissing), None))
        && (Truthy(f["name"]) && Truthy(f["charset"]) && !Truthy(f["chunks"]) ==>
              h == Handled(DataError(ChunksMissing), None))
        && (Truthy(f["name"]) && Truthy(f["charset"]) && Truthy(f["chunks"]) && !Truthy(f["chunk_length"]) ==>
              h == Handled(DataError(ChunkLengthMissing), None))
        && (Truthy(f["name"]) && Truthy(f["charset"]) && Truthy(f["chunks"]) && Truthy(f["chunk_length"]) ==>
              && h.call == Some(Insert(f))
              && h.response == match insert(f)
                   case Threw(message) => DataError(message)
                   case Returned(None) => DataError(NotAdded)
                   case Returned(Some(g)) => Success(One(GeneratorData(g)), 200, "v1/generators"))
    {
      if !IsRouteEnabled(CreateRoute) then Handled(RouteDisabled, None)
      else
        var f := InsertFields(rt, request.params);
        if !Truthy(f["name"]) then Handled(DataError(NameMissing), None)
        else if !Truthy(f["charset"]) then Handled(DataError(CharsetMissing), None)
        else if !Truthy(f["chunks"]) then Handled(DataError(ChunksMissing), None)
        else if !Truthy(f["chunk_length"]) then Handled(DataError(ChunkLengthMissing), None)
        else
          var response := match insert(f)
            case Threw(message) => DataError(message)
            case Returned(created) =>
              if created.None? then DataError(NotAdded)
              else Success(One(GeneratorData(created.value)), 200, "v1/generators");
          Handled(response, Some(Insert(f)))
    }

    /** PUT generators/{id}. The update call is not guarded by try/catch, so an exception
        it raises leaves the handler. */
    function UpdateGenerator(rt: Runtime, request: Request, update: (nat, map<string, Value>) -> Outcome<Option<Generator>>): (h: Handled)
      reads this
      ensures UniformError(h.response)
      ensures !IsRouteEnabled(UpdateRoute) ==> h == Handled(RouteDisabled, None)
      ensures IsRouteEnabled(UpdateRoute) ==>
        var id := UpdateId(rt, request);
        var body := UpdateBody(rt, request);
        var data := ArrayCast(body);
        && (id == 0 ==> h == Handled(DataError(IdMissing), None))
        && (id != 0 && !Truthy(body) ==> h == Handled(DataError(NoParameters), None))
        && (id != 0 && Truthy(body) ==>
             && (!NameOk(data) ==> h == Handled(DataError(NameInvalid), None))
             && (NameOk(data) && !CharsetOk(data) ==> h == Handled(DataError(CharsetInvalid), None))
             && (NameOk(data) && CharsetOk(data) && !NumericOk(rt, data, "chunks") ==>
                   h == Handled(DataError(ChunksNotNumeric), None))
             && (NameOk(data) && CharsetOk(data) && NumericOk(rt, data, "chunks")
                 && !NumericOk(rt, data, "chunk_length") ==>
                   h == Handled(DataError(ChunkLengthNotNumeric), None))
             && (NameOk(data) && CharsetOk(data) && NumericOk(rt, data, "chunks")
                 && NumericOk(rt, data, "chunk_length") && !NumericOk(rt, data, "times_activated_max") ==>
                   h == Handled(DataError(TimesActivatedMaxNotNumeric), None))
             && (UpdateDataValid(rt, data) ==>
                   && h.call == Some(Update(id, data))
                   && h.response == match update(id, data)
                        case Threw(message) => Uncaught(message)
                        case Returned(None) => DataError(NotUpdated)
                        case Returned(Some(g)) => Success(One(GeneratorData(g)), 200, "v1/generators/{id}")))
    {
      if !IsRouteEnabled(UpdateRoute) then Handled(RouteDisabled, None)
      else
        var id := UpdateId(rt, request);
        var body := UpdateBody(rt, request);
        if id == 0 then Handled(DataError(IdMissing), None)
        else if !Truthy(body) then Handled(DataError(NoParameters), None)
        else
          var data := ArrayCast(body);
          if !NameOk(data) then Handled(DataError(NameInvalid), None)
          else if !CharsetOk(data) then Handled(DataError(CharsetInvalid), None)
          else if !NumericOk(rt, data, "chunks") then Handled(DataError(ChunksNotNumeric), None)
          else if !NumericOk(rt, data, "chunk_length") then Handled(DataError(ChunkLengthNotNumeric), None)
          else if !NumericOk(rt, data, "times_activated_max") then Handled(DataError(TimesActivatedMaxNotNumeric), None)
          else
            var response := match update(id, data)
              case Threw(message) => Uncaught(message)
              case Returned(updated) =>
                if updated.None? then DataError(NotUpdated)
                else Success(One(GeneratorData(updated.value)), 200, "v1/generators/{id}");
            Handled(response, Some(Update(id, data)))
    }
  }
}
