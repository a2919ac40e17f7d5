/** Parameter: a managed object with a uuid, a name, a type, a value, the actions it
    accepts and a timestamp. Parameters are written from the data the API sends and their
    value is the one field the app sends back. */
module Parameters {
  import opened Json
  import opened Outcomes
  import opened Reconcile

  const NameKey := "paramName"
  const TypeKey := "paramType"
  const ActionsKey := "paramActions"
  const ValueKey := "paramValue"

  class Parameter {
    var uuid: Option<string>
    var name: Option<string>
    var paramType: Option<string>
    var value: Option<string>
    var actions: Option<string>
    var updatedAt: Option<string>

    /** `Parameter(context:)` followed by `param.uuid = uuid`. */
    constructor (uuid: string)
      ensures this.uuid == Some(uuid) && name == None && paramType == None
      ensures value == None && actions == None && updatedAt == None
    {
      this.uuid := Some(uuid);
      name := None;
      paramType := None;
      value := None;
      actions := None;
      updatedAt := None;
    }

    /** Keeps a uuid it already has, always overwrites name, type, value and actions (None
        for a key that is not a string) and overwrites the timestamp only when
        "updated_at" is a string. */
    method UpdateValues(data: JsonObject)
      modifies this
      ensures uuid == KeptUuid(old(uuid), data)
      ensures name == StringField(data, NameKey) && paramType == StringField(data, TypeKey)
      ensures value == StringField(data, ValueKey) && actions == StringField(data, ActionsKey)
      ensures updatedAt == Stamped(old(updatedAt), data)
    {
      if uuid == None {
        uuid := StringField(data, UuidKey);
      }
      name := StringField(data, NameKey);
      paramType := StringField(data, TypeKey);
      value := StringField(data, ValueKey);
      actions := StringField(data, ActionsKey);
      var date := StringField(data, UpdatedKey);
      if date.Some? {
        updatedAt := date;
      }
    }

    /** The payload sent to the API: exactly the key "paramValue", holding the value or "". */
    function ConvertToJson(): (payload: JsonObject)
      reads this
      ensures payload.Keys == {ValueKey}
      ensures payload[ValueKey] == JString(if value.Some? then value.value else "")
    {
      map[ValueKey := OrEmpty(value)]
    }

    /** `saveToAPI`: with a uuid, a PATCH of the value whose outcome the completion handler
        receives; without one, no request and a MissingAPIValues error. */
    method SaveToApi(remoteError: Option<Error>) returns (request: Option<Request>, completion: Completion)
      ensures uuid.None? ==> request == None && completion == Called(Some(MissingAPIValues("No UUID or Json Error")))
      ensures uuid.Some? ==> request == Some(Edit(uuid.value, ConvertToJson())) && completion == Called(remoteError)
    {
      if uuid.Some? {
        request := Some(Edit(uuid.value, ConvertToJson()));
        completion := Called(remoteError);
      } else {
        request := None;
        completion := Called(Some(MissingAPIValues("No UUID or Json Error")));
      }
    }
  }

  /** Round trip: once data carrying "paramValue" = v was written, the payload is exactly
      {"paramValue": v}, whatever else the data held. */
  lemma ValueRoundTrip(param: Parameter, data: JsonObject, v: string)
    requires StringField(data, ValueKey) == Some(v)
    requires param.value == StringField(data, ValueKey)
    ensures param.ConvertToJson() == map[ValueKey := JString(v)]
  {
  }

  /** The parameters of the managed object context. */
  class ParameterStore {
    var parameters: set<Parameter>
    /** Every fetch by uuid from the store throws. */
    const fetchFails: bool

    /** At most one stored parameter per uuid. */
    ghost predicate Valid()
      reads this, parameters
    {
      forall p1, p2 :: p1 in parameters && p2 in parameters && p1.uuid.Some? && p1.uuid == p2.uuid ==> p1 == p2
    }

    constructor (fetchFails: bool)
      ensures Valid() && parameters == {} && this.fetchFails == fetchFails
    {
      parameters := {};
      this.fetchFails := fetchFails;
    }

    /** The fetch request with predicate `uuid = %@`. */
    function Matching(uuid: string): set<Parameter>
      reads this, parameters
    {
      set p | p in parameters && p.uuid == Some(uuid)
    }

    /** The uuids a parameter lookup finds: those of the stored parameters, or none while
        fetches fail. */
    ghost function Resolvable(): set<string>
      reads this, parameters
    {
      if fetchFails then {} else set p | p in parameters && p.uuid.Some? :: p.uuid.value
    }

    /** The unique parameter with that uuid, or null; never creates one. */
    method FindParameter(uuid: string) returns (res: Result<Parameter?>)
      requires Valid()
      ensures fetchFails <==> res.Failure?
      ensures res.Failure? ==> res.error == StoreError
      ensures res.Success? && res.value != null ==> res.value in parameters && res.value.uuid == Some(uuid)
      ensures res.Success? && res.value == null ==> forall p :: p in parameters ==> p.uuid != Some(uuid)
    {
      if fetchFails {
        return Failure(StoreError);
      }
      var matches := Matching(uuid);
      if matches != {} {
        var param :| param in matches;
        assert matches == {param};
        return Success(param);
      }
      assert forall p :: p in parameters && p.uuid == Some(uuid) ==> p in matches;
      return Success(null);
    }

    /** Reuses the parameter with the data's uuid or creates one stamped with it, then
        writes the data into it. Data without a string "uuid" yields null and changes
        nothing. */
    method FindOrCreateParameter(data: JsonObject) returns (res: Result<Parameter?>)
      requires Valid()
      modifies this, parameters
      ensures Valid()
      ensures StringField(data, UuidKey).None? || fetchFails ==>
                parameters == old(parameters) && unchanged(parameters)
      ensures StringField(data, UuidKey).None? ==> res == Success(null)
      ensures StringField(data, UuidKey).Some? && fetchFails ==> res == Failure(StoreError)
      ensures StringField(data, UuidKey).Some? && !fetchFails ==>
                var u := StringField(data, UuidKey).value;
                && res.Success? && res.value != null
                && Matching(u) == {res.value}
                && res.value.value == StringField(data, ValueKey)
                && res.value.name == StringField(data, NameKey)
                && res.value.paramType == StringField(data, TypeKey)
                && res.value.actions == StringField(data, ActionsKey)
                && (forall p :: p in old(parameters) && p != res.value ==> unchanged(p))
                && (if old(Matching(u)) == {}
                    then fresh(res.value) && parameters == old(parameters) + {res.value}
                         && res.value.updatedAt == StringField(data, UpdatedKey)
                    else old(Matching(u)) == {res.value} && parameters == old(parameters)
                         && res.value.updatedAt == Stamped(old(res.value.updatedAt), data))
    {
      var uuid := StringField(data, UuidKey);
      if uuid.None? {
        return Success(null);
      }
      if fetchFails {
        return Failure(StoreError);
      }
      var u := uuid.value;
      var matches := Matching(u);
      var param: Parameter;
      if matches != {} {
        param :| param in matches;
        assert matches == {param};
      } else {
        param := new Parameter(u);
        parameters := parameters + {param};
      }
      param.UpdateValues(data);
      assert Matching(u) == {param};
      return Success(param);
    }
  }
}
