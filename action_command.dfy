/** ActionCommand: one "set this parameter to this value" step of an action. Commands have
    no uuid: every command built from data is a new managed object. */
module ActionCommands {
  import opened Json
  import opened Outcomes
  import Parameters

  const ParamIdKey := "paramID"
  const ValueKey := "paramValue"

  class ActionCommand {
    var paramID: Option<string>
    var paramValue: Option<string>
    var parameter: Parameters.Parameter?

    /** `ActionCommand(context:)`: every field unset. */
    constructor ()
      ensures paramID == None && paramValue == None && parameter == null
    {
      paramID := None;
      paramValue := None;
      parameter := null;
    }

    /** The dictionary sent to the API: exactly "paramID" and "paramValue", each "" when
        unset. */
    function ConvertToDict(): (dict: JsonObject)
      reads this
      ensures dict.Keys == {ParamIdKey, ValueKey}
      ensures dict[ParamIdKey] == JString(if paramID.Some? then paramID.value else "")
      ensures dict[ValueKey] == JString(if paramValue.Some? then paramValue.value else "")
    {
      map[ParamIdKey := OrEmpty(paramID), ValueKey := OrEmpty(paramValue)]
    }
  }

  /** The parameter id and value of the command an element of "actionCommands" yields when
      it is a dictionary with string "paramID" and "paramValue" whose parameter is among
      `known` (the uuids the parameter lookup finds). */
  function CommandData(element: Json, known: set<string>): (r: Option<(string, string)>)
    ensures r.Some? <==>
              && element.JObject?
              && StringField(element.fields, ParamIdKey).Some?
              && StringField(element.fields, ValueKey).Some?
              && StringField(element.fields, ParamIdKey).value in known
    ensures r.Some? ==>
              r.value == (StringField(element.fields, ParamIdKey).value, StringField(element.fields, ValueKey).value)
  {
    if element.JObject? then
      var p := StringField(element.fields, ParamIdKey);
      var v := StringField(element.fields, ValueKey);
      if p.Some? && v.Some? && p.value in known then Some((p.value, v.value)) else None
    else None
  }

  /** The dictionary a command with these parameter id and value serialises to. */
  function CommandDict(data: (string, string)): (dict: JsonObject)
    ensures StringField(dict, ParamIdKey) == Some(data.0)
    ensures StringField(dict, ValueKey) == Some(data.1)
    ensures dict.Keys == {ParamIdKey, ValueKey}
  {
    map[ParamIdKey := JString(data.0), ValueKey := JString(data.1)]
  }

  /** Round trip: the dictionary of a command built from an element carries the element's
      parameter id and value, so building a command from that dictionary again yields the
      same data. */
  lemma {:induction false} DictRoundTrip(command: ActionCommand, element: Json, known: set<string>)
    requires CommandData(element, known).Some?
    requires command.paramID == Some(CommandData(element, known).value.0)
    requires command.paramValue == Some(CommandData(element, known).value.1)
    ensures command.ConvertToDict() == CommandDict(CommandData(element, known).value)
    ensures CommandData(JObject(command.ConvertToDict()), known) == CommandData(element, known)
  {
    var d := CommandData(element, known).value;
    assert command.ConvertToDict() == CommandDict(d);
  }

  /** The commands of the managed object context. */
  class CommandStore {
    var commands: set<ActionCommand>

    constructor ()
      ensures commands == {}
    {
      commands := {};
    }

    /** Builds a new command from the data when "paramID" and "paramValue" are strings and
        the parameter lookup finds the parameter; never reuses a command. A failing lookup
        is rethrown. */
    method FindOrCreateCommand(data: JsonObject, params: Parameters.ParameterStore) returns (res: Result<ActionCommand?>)
      requires params.Valid()
      modifies this
      ensures res.Failure? <==>
                StringField(data, ParamIdKey).Some? && StringField(data, ValueKey).Some? && params.fetchFails
      ensures res.Failure? ==> res.error == StoreError
      ensures res.Success? && res.value != null <==> CommandData(JObject(data), params.Resolvable()).Some?
      ensures res.Success? && res.value != null ==>
                && fresh(res.value)
                && commands == old(commands) + {res.value}
                && (res.value.paramID, res.value.paramValue) ==
                   (Some(StringField(data, ParamIdKey).value), Some(StringField(data, ValueKey).value))
                && res.value.parameter in params.parameters
                && res.value.parameter.uuid == StringField(data, ParamIdKey)
      ensures !(res.Success? && res.value != null) ==> commands == old(commands)
    {
      var paramId := StringField(data, ParamIdKey);
      var paramValue := StringField(data, ValueKey);
      if paramId.None? || paramValue.None? {
        return Success(null);
      }
      var found := params.FindParameter(paramId.value);
      if found.Failure? {
        return Failure(found.error);
      }
      if found.value == null {
        assert paramId.value !in params.Resolvable();
        return Success(null);
      }
      var command := new ActionCommand();
      command.paramID := paramId;
      command.paramValue := paramValue;
      command.parameter := found.value;
      commands := commands + {command};
      return Success(command);
    }
  }
}
