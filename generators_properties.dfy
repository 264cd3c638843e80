/** Properties of the generator controller that relate its checks to each other,
    to independent statements of the validation order, and to several calls. */
module GeneratorsProperties {
  import opened Php
  import Decimal
  import opened GeneratorsApi

  // ---------------------------------------------------------------- getGeneratorData

  /** The value under `key`, null when the key is missing. */
  function At(d: Dto, key: string): Value
  {
    match Get(d, key)
    case Some(v) => v
    case None => Null
  }

  /** Reads a generator back from its DTO by key. */
  function FromDto(d: Dto): Generator
  {
    Generator(At(d, "id"), At(d, "name"), At(d, "charset"), At(d, "chunks"), At(d, "chunk_length"),
              At(d, "times_activated_max"), At(d, "separator"), At(d, "prefix"), At(d, "suffix"),
              At(d, "expires_in"), At(d, "created_at"), At(d, "created_by"), At(d, "updated_at"),
              At(d, "updated_by"))
  }

  /** The DTO loses nothing: the generator can be read back from it. */
  lemma GeneratorDataRoundTrip(g: Generator)
    ensures FromDto(GeneratorData(g)) == g
  {
    GeneratorDataFields(g);
  }

  // ---------------------------------------------------------------- createGenerator

  const RequiredFields: seq<string> := ["name", "charset", "chunks", "chunk_length"]
  const RequiredMessages: seq<string> := [NameMissing, CharsetMissing, ChunksMissing, ChunkLengthMissing]

  /** With the route on, the first required field (in the order name, charset, chunks,
      chunk_length) whose value is falsy decides the message, and insert is not called. */
  lemma {:induction false} CreateReportsFirstFalsyField(
    c: Generators, rt: Runtime, request: Request, insert: map<string, Value> -> Outcome<Option<Generator>>, k: nat)
    requires c.IsRouteEnabled(CreateRoute) && k < |RequiredFields|
    requires forall j :: 0 <= j < k ==> Truthy(InsertFields(rt, request.params)[RequiredFields[j]])
    requires !Truthy(InsertFields(rt, request.params)[RequiredFields[k]])
    ensures c.CreateGenerator(rt, request, insert) == Handled(DataError(RequiredMessages[k]), None)
  {
    var f := InsertFields(rt, request.params);
    if k > 0 { assert Truthy(f[RequiredFields[0]]); }
    if k > 1 { assert Truthy(f[RequiredFields[1]]); }
    if k > 2 { assert Truthy(f[RequiredFields[2]]); }
  }

  /** insert is called exactly when the route is on and all four required fields are truthy,
      and then with the nine-field array. */
  lemma CreateInsertsIffRequiredTruthy(
    c: Generators, rt: Runtime, request: Request, insert: map<string, Value> -> Outcome<Option<Generator>>)
    ensures var h := c.CreateGenerator(rt, request, insert);
      var f := InsertFields(rt, request.params);
      && (h.call.Some? <==>
            c.IsRouteEnabled(CreateRoute) && forall j :: 0 <= j < |RequiredFields| ==> Truthy(f[RequiredFields[j]]))
      && (h.call.Some? ==> h.call == Some(Insert(f)))
  {
    var f := InsertFields(rt, request.params);
    var all := Truthy(f["name"]) && Truthy(f["charset"]) && Truthy(f["chunks"]) && Truthy(f["chunk_length"]);
    assert (forall j :: 0 <= j < |RequiredFields| ==> Truthy(f[RequiredFields[j]])) <==> all by {
      if all {
        forall j | 0 <= j < |RequiredFields| ensures Truthy(f[RequiredFields[j]]) { }
      } else {
        if !Truthy(f["name"]) { assert !Truthy(f[RequiredFields[0]]); }
        else if !Truthy(f["charset"]) { assert !Truthy(f[RequiredFields[1]]); }
        else if !Truthy(f["chunks"]) { assert !Truthy(f[RequiredFields[2]]); }
        else { assert !Truthy(f[RequiredFields[3]]); }
      }
    }
  }

  /** What reaches insert: a name and a charset that are non-empty strings other than "0",
      chunk counts and lengths of at least one, and the other numeric fields null or non-negative. */
  lemma CreateInsertArguments(
    c: Generators, rt: Runtime, request: Request, insert: map<string, Value> -> Outcome<Option<Generator>>)
    ensures var h := c.CreateGenerator(rt, request, insert);
      h.call.Some? ==>
      var call := h.call.value;
      && call.Insert?
      && call.fields.Keys == StringFields + NumberFields
      && call.fields["name"].Str? && call.fields["name"].s !in {"", "0"}
      && call.fields["charset"].Str? && call.fields["charset"].s !in {"", "0"}
      && call.fields["chunks"].Int? && call.fields["chunks"].i >= 1
      && call.fields["chunk_length"].Int? && call.fields["chunk_length"].i >= 1
      && (call.fields["times_activated_max"].Null? || call.fields["times_activated_max"].i >= 0)
      && (call.fields["expires_in"].Null? || call.fields["expires_in"].i >= 0)
  {
    var f := InsertFields(rt, request.params);
    assert "name" in StringFields && "charset" in StringFields;
    assert "chunks" in NumberFields && "chunk_length" in NumberFields;
    assert "times_activated_max" in NumberFields && "expires_in" in NumberFields;
  }

  // ---------------------------------------------------------------- getGenerator

  /** The not-found message names the id it was built from: distinct ids give distinct messages. */
  lemma NotFoundMessageNamesId(a: nat, b: nat)
    ensures NotFoundMessage(a) == NotFoundMessage(b) ==> a == b
  {
    var prefix, suffix := "Generator with ID: ", " could not be found.";
    if NotFoundMessage(a) == NotFoundMessage(b) {
      var ma, mb := NotFoundMessage(a), NotFoundMessage(b);
      assert ma[|prefix|..|ma| - |suffix|] == Decimal.NatToString(a);
      assert mb[|prefix|..|mb| - |suffix|] == Decimal.NatToString(b);
      Decimal.NatToStringInjective(a, b);
    }
  }

  /** absint folds a negative id onto its absolute value, so GET generators/-n looks up generator n. */
  lemma NegativeIdReadsAbsoluteValue(
    c: Generators, rt: Runtime, request: Request, find: nat -> Outcome<Option<Generator>>, n: nat)
    requires c.IsRouteEnabled(ReadRoute) && n >= 1
    requires Lookup(request.params, "generator_id") == Int(-(n as int))
    ensures c.GetGenerator(rt, request, find).call == Some(Find(n))
  {
  }

  /** A generator read back after it was created has the DTO the create call returned,
      provided the repository's find yields the record its insert returned. */
  lemma ReadBackAfterCreate(
    c: Generators, rt: Runtime, post: Request, get: Request,
    insert: map<string, Value> -> Outcome<Option<Generator>>, find: nat -> Outcome<Option<Generator>>, g: Generator)
    requires c.IsRouteEnabled(ReadRoute)
    requires c.CreateGenerator(rt, post, insert).call == Some(Insert(InsertFields(rt, post.params)))
    requires insert(InsertFields(rt, post.params)) == Returned(Some(g))
    requires AbsInt(rt, Lookup(get.params, "generator_id")) != 0
    requires find(AbsInt(rt, Lookup(get.params, "generator_id"))) == Returned(Some(g))
    ensures c.CreateGenerator(rt, post, insert).response.Success?
    ensures c.GetGenerator(rt, get, find).response.Success?
    ensures c.GetGenerator(rt, get, find).response.data == c.CreateGenerator(rt, post, insert).response.data
  {
  }

  // ---------------------------------------------------------------- updateGenerator

  const CheckedFields: seq<string> := ["name", "charset", "chunks", "chunk_length", "times_activated_max"]
  const CheckMessages: seq<string> :=
    [NameInvalid, CharsetInvalid, ChunksNotNumeric, ChunkLengthNotNumeric, TimesActivatedMaxNotNumeric]

  /** Check j of updateGenerator, stated from the field list: the first two fields must
      have a positive length, the other three must be numeric, and an absent field passes. */
  predicate CheckPasses(rt: Runtime, data: map<string, Value>, j: nat)
    requires j < |CheckedFields|
  {
    var key := CheckedFields[j];
    key in data ==> if j < 2 then !NoStrLen(data[key]) else IsNumeric(rt, data[key])
  }

  /** Once the id and the body are accepted, the first failing field check (in the order
      name, charset, chunks, chunk_length, times_activated_max) decides the message, and
      update is not called. */
  lemma {:induction false} UpdateReportsFirstFailingCheck(
    c: Generators, rt: Runtime, request: Request,
    update: (nat, map<string, Value>) -> Outcome<Option<Generator>>, k: nat)
    requires c.IsRouteEnabled(UpdateRoute)
    requires UpdateId(rt, request) != 0 && Truthy(UpdateBody(rt, request))
    requires k < |CheckedFields|
    requires forall j :: 0 <= j < k ==> CheckPasses(rt, ArrayCast(UpdateBody(rt, request)), j)
    requires !CheckPasses(rt, ArrayCast(UpdateBody(rt, request)), k)
    ensures c.UpdateGenerator(rt, request, update) == Handled(DataError(CheckMessages[k]), None)
  {
    var data := ArrayCast(UpdateBody(rt, request));
    if k > 0 { assert CheckPasses(rt, data, 0); }
    if k > 1 { assert CheckPasses(rt, data, 1); }
    if k > 2 { assert CheckPasses(rt, data, 2); }
    if k > 3 { assert CheckPasses(rt, data, 3); }
  }

  /** update is called exactly when the route is on, the id is non-zero, the body is
      truthy and every field check passes; it then receives the id and the body as an array. */
  lemma UpdateCalledIffChecksPass(
    c: Generators, rt: Runtime, request: Request, update: (nat, map<string, Value>) -> Outcome<Option<Generator>>)
    ensures var h := c.UpdateGenerator(rt, request, update);
      var data := ArrayCast(UpdateBody(rt, request));
      && (h.call.Some? <==>
            && c.IsRouteEnabled(UpdateRoute) && UpdateId(rt, request) != 0 && Truthy(UpdateBody(rt, request))
            && forall j :: 0 <= j < |CheckedFields| ==> CheckPasses(rt, data, j))
      && (h.call.Some? ==> h.call == Some(Update(UpdateId(rt, request), data)))
  {
    var data := ArrayCast(UpdateBody(rt, request));
    assert (forall j :: 0 <= j < |CheckedFields| ==> CheckPasses(rt, data, j)) <==> UpdateDataValid(rt, data) by {
      if UpdateDataValid(rt, data) {
        forall j | 0 <= j < |CheckedFields| ensures CheckPasses(rt, data, j) { }
      } else {
        if !NameOk(data) { assert !CheckPasses(rt, data, 0); }
        else if !CharsetOk(data) { assert !CheckPasses(rt, data, 1); }
        else if !NumericOk(rt, data, "chunks") { assert !CheckPasses(rt, data, 2); }
        else if !NumericOk(rt, data, "chunk_length") { assert !CheckPasses(rt, data, 3); }
        else { assert !CheckPasses(rt, data, 4); }
      }
    }
  }

  /** A body that names none of the five checked fields is never rejected by a field check. */
  lemma UpdateUncheckedKeysPass(
    c: Generators, rt: Runtime, request: Request, update: (nat, map<string, Value>) -> Outcome<Option<Generator>>)
    requires c.IsRouteEnabled(UpdateRoute)
    requires UpdateId(rt, request) != 0 && Truthy(UpdateBody(rt, request))
    requires forall key :: key in CheckedFields ==> key !in ArrayCast(UpdateBody(rt, request))
    ensures c.UpdateGenerator(rt, request, update).call
         == Some(Update(UpdateId(rt, request), ArrayCast(UpdateBody(rt, request))))
  {
  }

  /** 'The generator could not be updated.' is returned exactly when update was called and yielded nothing. */
  lemma NotUpdatedIffUpdateFalsy(
    c: Generators, rt: Runtime, request: Request, update: (nat, map<string, Value>) -> Outcome<Option<Generator>>)
    ensures var h := c.UpdateGenerator(rt, request, update);
      h.response == DataError(NotUpdated) <==>
        h.call.Some? && h.call.value.Update? && update(h.call.value.id, h.call.value.data) == Returned(None)
  {
  }

  /** Unlike createGenerator, updateGenerator lets a chunk count of 0 through to update:
      it only asks for a numeric value. */
  lemma UpdateAcceptsZeroChunks(
    c: Generators, rt: Runtime, request: Request, update: (nat, map<string, Value>) -> Outcome<Option<Generator>>)
    requires c.IsRouteEnabled(UpdateRoute) && UpdateId(rt, request) != 0
    requires rt.isJson(request.body) && rt.jsonDecode(request.body) == Obj(map["chunks" := Int(0)])
    ensures c.UpdateGenerator(rt, request, update).call == Some(Update(UpdateId(rt, request), map["chunks" := Int(0)]))
  {
  }

  /** createGenerator turns a chunk count of 0 away before insert. */
  lemma CreateRejectsZeroChunks(
    c: Generators, rt: Runtime, request: Request, insert: map<string, Value> -> Outcome<Option<Generator>>)
    requires c.IsRouteEnabled(CreateRoute)
    requires IsSet(request.params, "chunks") && AbsInt(rt, request.params["chunks"]) == 0
    ensures c.CreateGenerator(rt, request, insert).call == None
  {
  }

  /** A JSON object `{}` posted as the chunk count arrives as an empty array, which absint
      turns into 0: createGenerator reports the chunks as missing and does not insert. */
  lemma CreateRejectsEmptyArrayChunks(
    c: Generators, rt: Runtime, request: Request, insert: map<string, Value> -> Outcome<Option<Generator>>)
    requires c.IsRouteEnabled(CreateRoute)
    requires Truthy(InsertFields(rt, request.params)["name"]) && Truthy(InsertFields(rt, request.params)["charset"])
    requires Lookup(request.params, "chunks") == Arr(map[])
    ensures c.CreateGenerator(rt, request, insert) == Handled(DataError(ChunksMissing), None)
  {
  }
}
