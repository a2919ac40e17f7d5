/** Action: a named list of commands that the API can fire, and the operations that
    reconcile the actions of the local store with the remote `/actions` listing. */
module Actions {
  import opened Json
  import opened Outcomes
  import opened Reconcile
  import Parameters
  import opened ActionCommands

  const NameKey := "actionName"
  const CommandsKey := "actionCommands"

  /** The command data one element contributes to `BuiltCommands`. */
  function Yield(element: Json, known: set<string>): (d: seq<(string, string)>)
    ensures |d| <= 1
  {
    if CommandData(element, known).Some? then [CommandData(element, known).value] else []
  }

  /** The commands the elements of an "actionCommands" array yield, in order, when the
      parameter lookup finds exactly the uuids in `known`. */
  function BuiltCommands(elements: seq<Json>, known: set<string>): (built: seq<(string, string)>)
    ensures |built| <= |elements|
  {
    if elements == [] then []
    else
      var last := elements[|elements| - 1];
      BuiltCommands(elements[..|elements| - 1], known) + Yield(last, known)
  }

  /** Every built command comes from some element and names a parameter the lookup finds;
      every element that yields a command contributes it. */
  lemma {:induction false} BuiltCommandsMembership(elements: seq<Json>, known: set<string>, d: (string, string))
    ensures d in BuiltCommands(elements, known) <==>
            exists i :: 0 <= i < |elements| && CommandData(elements[i], known) == Some(d)
    ensures d in BuiltCommands(elements, known) ==> d.0 in known
  {
    if elements != [] {
      var front := elements[..|elements| - 1];
      BuiltCommandsMembership(front, known, d);
      if exists i :: 0 <= i < |elements| && CommandData(elements[i], known) == Some(d) {
        var i :| 0 <= i < |elements| && CommandData(elements[i], known) == Some(d);
        if i < |front| {
          assert front[i] == elements[i];
        }
      }
      if d in BuiltCommands(front, known) {
        var i :| 0 <= i < |front| && CommandData(front[i], known) == Some(d);
        assert elements[i] == front[i];
      }
    }
  }

  /** Without a parameter the lookup finds, no command is built. */
  lemma {:induction false} NothingBuiltWithoutParameters(elements: seq<Json>)
    ensures BuiltCommands(elements, {}) == []
  {
    if elements != [] {
      NothingBuiltWithoutParameters(elements[..|elements| - 1]);
    }
  }

  /** While parameter fetches fail, the lookup finds nothing, so an action whose commands
      were just replaced carries none: the old ones were deleted and no element yields a
      new one. */
  lemma {:induction false} NoCommandsWhileLookupsFail(commands: seq<ActionCommand>, elements: seq<Json>, params: Parameters.ParameterStore)
    requires params.fetchFails
    requires Carry(commands, BuiltCommands(elements, params.Resolvable()), params)
    ensures commands == []
  {
    assert params.Resolvable() == {};
    NothingBuiltWithoutParameters(elements);
  }

  /** The command dictionaries a payload lists for these commands, in order. */
  function CommandDicts(commands: seq<ActionCommand>): (dicts: seq<Json>)
    reads commands
    ensures |dicts| == |commands|
    ensures forall i :: 0 <= i < |commands| ==> dicts[i] == JObject(commands[i].ConvertToDict())
  {
    if commands == [] then []
    else CommandDicts(commands[..|commands| - 1]) + [JObject(commands[|commands| - 1].ConvertToDict())]
  }

  /** The commands carry, in order, exactly the built parameter ids and values, each
      linked to the stored parameter with that uuid. */
  ghost predicate Carry(commands: seq<ActionCommand>, built: seq<(string, string)>, params: Parameters.ParameterStore)
    reads commands, params, params.parameters
  {
    && |commands| == |built|
    && forall k :: 0 <= k < |commands| ==>
         && commands[k].paramID == Some(built[k].0)
         && commands[k].paramValue == Some(built[k].1)
         && commands[k].parameter in params.parameters
         && commands[k].parameter.uuid == Some(built[k].0)
  }

  /** Commands carrying two runs of built data, one after the other, carry their
      concatenation. */
  lemma CarryAppend(commands: seq<ActionCommand>, built: seq<(string, string)>,
                    more: seq<ActionCommand>, built': seq<(string, string)>, params: Parameters.ParameterStore)
    requires Carry(commands, built, params) && Carry(more, built', params)
    ensures Carry(commands + more, built + built', params)
  {
  }

  /** Round trip: the commands an action carries serialise to exactly the dictionaries
      {"paramID": p, "paramValue": v} of the elements they were built from. */
  lemma {:induction false} CarriedCommandsSerialise(commands: seq<ActionCommand>, built: seq<(string, string)>, params: Parameters.ParameterStore)
    requires Carry(commands, built, params)
    ensures CommandDicts(commands) == seq(|built|, k requires 0 <= k < |built| => JObject(CommandDict(built[k])))
  {
    var dicts := CommandDicts(commands);
    forall k | 0 <= k < |built|
      ensures dicts[k] == JObject(CommandDict(built[k]))
    {
      assert commands[k].ConvertToDict() == CommandDict(built[k]);
    }
  }

  /** What the API hands back to a `saveToAPI` request: an error, or none with or without
      returned data. */
  datatype Reply = Reply(error: Option<Error>, hasData: bool)

  /** The completion calls of the edit branch of `saveToAPI` as written: one success call
      right after the request was issued, and the reply handler's call, which reports the
      error, or success when data came back, and is skipped when neither did. The reply
      handler runs after that success call when the reply arrives over the network, and
      before it (`immediate`) when the request fails before it is sent, for want of API
      credentials or a well-formed URL. */
  function EditCompletionsAsWritten(reply: Reply, immediate: bool): (calls: seq<Option<Error>>)
    ensures None in calls
    ensures |calls| == if reply.error.Some? || reply.hasData then 2 else 1
  {
    var handled := if reply.error.Some? then [reply.error] else if reply.hasData then [None] else [];
    if immediate then handled + [None] else [None] + handled
  }

  /** As written, a failing edit is reported both as a success and as the failure: the
      handler runs twice, and in either order one of its verdicts is wrong, where the
      handler of the create branch reports the failure once. */
  lemma {:induction false} FailedEditReportedAsSuccess(e: Error, immediate: bool)
    ensures EditCompletionsAsWritten(Reply(Some(e), false), immediate) ==
            if immediate then [Some(e), None] else [None, Some(e)]
    ensures ReplyCompletions(Reply(Some(e), false)) == [Some(e)]
    ensures None !in ReplyCompletions(Reply(Some(e), false))
  {
    assert ReplyCompletions(Reply(Some(e), false)) == [Some(e)];
  }

  /** As written, an edit reply with neither error nor data is reported as a success,
      where the create branch reports a DownloadError. `HomeFetcher.sendRequest` passes
      exactly one of data or an error, so no request produces this reply: the lemma
      compares the two reply handlers only. */
  lemma {:induction false} EmptyEditReplyReportedAsSuccess(immediate: bool)
    ensures EditCompletionsAsWritten(Reply(None, false), immediate) == [None]
    ensures ReplyCompletions(Reply(None, false)) == [Some(DownloadError("No Data"))]
  {
  }

  /** The completion calls of a reply handler that calls back once with the outcome, as
      the create branch of `saveToAPI` does: the error, success when data came back, and a
      DownloadError when neither did. */
  function ReplyCompletions(reply: Reply): (calls: seq<Option<Error>>)
    ensures |calls| == 1
    ensures calls[0].None? <==> reply.error.None? && reply.hasData
    ensures reply.error.Some? ==> calls[0] == reply.error
  {
    if reply.error.Some? then [reply.error]
    else if reply.hasData then [None]
    else [Some(DownloadError("No Data"))]
  }

  /** Builds a command from each element, in order, adding each one built to the store;
      returns those built. */
  method CreateCommands(elements: seq<Json>, store: CommandStore, params: Parameters.ParameterStore)
    returns (built: seq<ActionCommand>)
    requires params.Valid()
    modifies store
    ensures Carry(built, BuiltCommands(elements, params.Resolvable()), params)
    ensures forall c :: c in built ==> fresh(c)
    ensures store.commands == old(store.commands) + (set c | c in built)
  {
    built := [];
    var j := 0;
    while j < |elements|
      invariant 0 <= j <= |elements|
      invariant Carry(built, BuiltCommands(elements[..j], params.Resolvable()), params)
      invariant forall c :: c in built ==> fresh(c)
      invariant forall c :: c in store.commands <==> c in old(store.commands) || c in built
    {
      assert elements[..j + 1][..j] == elements[..j];
      var made := CreateCommand(elements[j], store, params);
      CarryAppend(built, BuiltCommands(elements[..j], params.Resolvable()), made,
                  Yield(elements[j], params.Resolvable()), params);
      built := built + made;
      j := j + 1;
    }
    assert elements[..j] == elements;
    assert store.commands == old(store.commands) + (set c | c in built);
  }

  /** One pass of the loop of `CreateCommands`: the command built from `element`, if any,
      added to the store. */
  method CreateCommand(element: Json, store: CommandStore, params: Parameters.ParameterStore)
    returns (made: seq<ActionCommand>)
    requires params.Valid()
    modifies store
    ensures Carry(made, Yield(element, params.Resolvable()), params)
    ensures forall c :: c in made ==> fresh(c)
    ensures forall c :: c in store.commands <==> c in old(store.commands) || c in made
  {
    made := [];
    if element.JObject? {
      var res := store.FindOrCreateCommand(element.fields, params);
      if res.Success? && res.value != null {
        made := [res.value];
      }
    }
  }

  class Action {
    var uuid: Option<string>
    var name: Option<string>
    var updatedAt: Option<string>
    var commands: seq<ActionCommand>
    /** Commands staged as JSON while an action is being built; when set, the payload
        sends them instead of `commands`. */
    var jsonCommands: Option<seq<Json>>

    /** `Action(context:)` followed by `action.uuid = uuid`. */
    constructor (uuid: string)
      ensures this.uuid == Some(uuid) && name == None && updatedAt == None
      ensures commands == [] && jsonCommands == None
    {
      this.uuid := Some(uuid);
      name := None;
      updatedAt := None;
      commands := [];
      jsonCommands := None;
    }

    /** The action holds the fields that every write of `data` overwrites. */
    ghost predicate Follows(data: JsonObject)
      reads this
    {
      name == StringField(data, NameKey)
    }

    /** Stages data entered for a new action: the name, and the "actionCommands" array
        (None when it is not an array). */
    method ApplyJson(data: JsonObject)
      modifies this`name, this`jsonCommands
      ensures name == StringField(data, NameKey)
      ensures jsonCommands == ArrayField(data, CommandsKey)
    {
      name := StringField(data, NameKey);
      jsonCommands := ArrayField(data, CommandsKey);
    }

    /** Deletes every command of the action from the store, one at a time. */
    method DeleteCommands(store: CommandStore)
      modifies store
      ensures store.commands == old(store.commands) - set c | c in commands
    {
      var i := 0;
      while i < |commands|
        invariant 0 <= i <= |commands|
        invariant store.commands == old(store.commands) - set c | c in commands[..i]
      {
        store.commands := store.commands - {commands[i]};
        assert commands[..i + 1] == commands[..i] + [commands[i]];
        i := i + 1;
      }
      assert commands[..i] == commands;
    }

    /** Deletes every command of the action from the store, then builds a new command from
        each element and links those built: the action then carries exactly the commands
        built from elements whose parameter the lookup found. */
    method AddCommands(elements: seq<Json>, store: CommandStore, params: Parameters.ParameterStore)
      requires params.Valid()
      modifies this`commands, store
      ensures store.commands == (old(store.commands) - set c | c in old(commands)) + (set c | c in commands)
      ensures Carry(commands, BuiltCommands(elements, params.Resolvable()), params)
      ensures forall c :: c in commands ==> fresh(c)
      ensures params.fetchFails ==> commands == []
    {
      DeleteCommands(store);
      commands := CreateCommands(elements, store, params);
      if params.fetchFails {
        NoCommandsWhileLookupsFail(commands, elements, params);
      }
    }

    /** Keeps a uuid it already has, always overwrites the name, overwrites the timestamp
        only when "updated_at" is a string, and replaces the commands only when
        "actionCommands" is an array. */
    method UpdateValues(data: JsonObject, store: CommandStore, params: Parameters.ParameterStore)
      requires params.Valid()
      modifies this, store
      ensures uuid == KeptUuid(old(uuid), data)
      ensures name == StringField(data, NameKey)
      ensures updatedAt == Stamped(old(updatedAt), data)
      ensures jsonCommands == old(jsonCommands)
      ensures ArrayField(data, CommandsKey).None? ==>
                commands == old(commands) && store.commands == old(store.commands)
      ensures ArrayField(data, CommandsKey).Some? ==>
                && store.commands == (old(store.commands) - set c | c in old(commands)) + (set c | c in commands)
                && Carry(commands, BuiltCommands(ArrayField(data, CommandsKey).value, params.Resolvable()), params)
                && (forall c :: c in commands ==> fresh(c))
    {
      if uuid == None {
        uuid := StringField(data, UuidKey);
      }
      name := StringField(data, NameKey);
      var date := StringField(data, UpdatedKey);
      if date.Some? {
        updatedAt := date;
      }
      var elements := ArrayField(data, CommandsKey);
      if elements.Some? {
        AddCommands(elements.value, store, params);
      }
    }

    /** The payload sent to the API: exactly "actionName" (the name or "") and
        "actionCommands", which holds the staged JSON commands when there are any and
        otherwise the dictionaries of the stored commands, in order. */
    method ConvertToJson() returns (payload: JsonObject)
      ensures payload.Keys == {NameKey, CommandsKey}
      ensures payload[NameKey] == JString(if name.Some? then name.value else "")
      ensures jsonCommands.Some? ==> payload[CommandsKey] == JArray(jsonCommands.value)
      ensures jsonCommands.None? ==> payload[CommandsKey] == JArray(CommandDicts(commands))
    {
      var commandArray: seq<Json> := [];
      if jsonCommands.Some? {
        commandArray := jsonCommands.value;
      } else {
        var i := 0;
        while i < |commands|
          invariant 0 <= i <= |commands|
          invariant commandArray == CommandDicts(commands[..i])
        {
          assert commands[..i + 1][..i] == commands[..i];
          commandArray := commandArray + [JObject(commands[i].ConvertToDict())];
          i := i + 1;
        }
        assert commands[..i] == commands;
      }
      payload := map[NameKey := OrEmpty(name), CommandsKey := JArray(commandArray)];
    }

    /** `saveToAPI`: an edit of the action when it has a uuid, otherwise a creation, with
        the payload of `ConvertToJson`; the completion handler is called once with the
        outcome of the request (the edit branch corrected, see `EditCompletionsAsWritten`). */
    method SaveToApi(reply: Reply) returns (request: Request, completions: seq<Option<Error>>)
      ensures uuid.Some? <==> request.Edit?
      ensures request.Edit? ==> request.id == uuid.value
      ensures request.payload.Keys == {NameKey, CommandsKey}
      ensures request.payload[CommandsKey] ==
                JArray(if jsonCommands.Some? then jsonCommands.value else CommandDicts(commands))
      ensures request.payload[NameKey] == JString(if name.Some? then name.value else "")
      ensures completions == ReplyCompletions(reply)
      ensures |completions| == 1
      ensures completions[0].None? <==> reply.error.None? && reply.hasData
    {
      var payload := ConvertToJson();
      if uuid.Some? {
        request := Edit(uuid.value, payload);
      } else {
        request := Add(payload);
      }
      completions := ReplyCompletions(reply);
    }

    /** `fire`: with a uuid, a POST to the action whose outcome the completion handler
        receives; without one, no request and a MissingAPIValues error. */
    method Fire(remoteError: Option<Error>) returns (request: Option<string>, completion: Completion)
      ensures request == uuid
      ensures uuid.None? ==> completion == Called(Some(MissingAPIValues("No UUID for action")))
      ensures uuid.Some? ==> completion == Called(remoteError)
    {
      if uuid.Some? {
        request := uuid;
        completion := Called(remoteError);
      } else {
        request := None;
        completion := Called(Some(MissingAPIValues("No UUID for action")));
      }
    }
  }

  /** The actions of the managed object context. */
  class ActionStore {
    var actions: set<Action>
    /** Every fetch by uuid from the store throws (the fetch before a sweep is the
        separate `sweepFails` of `UpdateDatabase`). */
    const fetchFails: bool
    /** Saving the context throws. */
    const saveFails: bool

    /** At most one stored action per uuid. */
    ghost predicate Valid()
      reads this, actions
    {
      forall a1, a2 :: a1 in actions && a2 in actions && a1.uuid.Some? && a1.uuid == a2.uuid ==> a1 == a2
    }

    constructor (fetchFails: bool, saveFails: bool)
      ensures Valid() && actions == {}
      ensures this.fetchFails == fetchFails && this.saveFails == saveFails
    {
      actions := {};
      this.fetchFails := fetchFails;
      this.saveFails := saveFails;
    }

    /** The fetch request with predicate `uuid = %@`. */
    function Matching(uuid: string): set<Action>
      reads this, actions
    {
      set a | a in actions && a.uuid == Some(uuid)
    }

    /** The unique action with that uuid, or null; never creates one. */
    method FindAction(uuid: string) returns (res: Result<Action?>)
      requires Valid()
      ensures fetchFails <==> res.Failure?
      ensures res.Failure? ==> res.error == StoreError
      ensures res.Success? && res.value != null ==> res.value in actions && res.value.uuid == Some(uuid)
      ensures res.Success? && res.value == null ==> forall a :: a in actions ==> a.uuid != Some(uuid)
    {
      if fetchFails {
        return Failure(StoreError);
      }
      var matches := Matching(uuid);
      if matches != {} {
        var action :| action in matches;
        assert matches == {action};
        return Success(action);
      }
      assert forall a :: a in actions && a.uuid == Some(uuid) ==> a in matches;
      return Success(null);
    }

    /** Reuses the action with the data's uuid or creates one stamped with it, then writes
        the data into it (commands included). Data without a string "uuid" yields null and
        changes nothing. */
    method FindOrCreateAction(data: JsonObject, store: CommandStore, params: Parameters.ParameterStore)
      returns (res: Result<Action?>)
      requires Valid() && params.Valid()
      modifies this, actions, store
      ensures Valid()
      ensures StringField(data, UuidKey).None? || fetchFails ==>
                actions == old(actions) && unchanged(actions) && unchanged(store)
      ensures StringField(data, UuidKey).None? ==> res == Success(null)
      ensures StringField(data, UuidKey).Some? && fetchFails ==> res == Failure(StoreError)
      ensures StringField(data, UuidKey).Some? && !fetchFails ==>
                var u := StringField(data, UuidKey).value;
                && res.Success? && res.value != null
                && Matching(u) == {res.value}
                && res.value.name == StringField(data, NameKey)
                && (forall a :: a in old(actions) && a != res.value ==> unchanged(a))
                && (ArrayField(data, CommandsKey).Some? ==>
                      Carry(res.value.commands, BuiltCommands(ArrayField(data, CommandsKey).value, params.Resolvable()), params))
                && (ArrayField(data, CommandsKey).None? ==> store.commands == old(store.commands))
                && (if old(Matching(u)) == {}
                    then && fresh(res.value) && actions == old(actions) + {res.value}
                         && res.value.updatedAt == StringField(data, UpdatedKey)
                         && (ArrayField(data, CommandsKey).None? ==> res.value.commands == [])
                         && (ArrayField(data, CommandsKey).Some? ==>
                               store.commands == old(store.commands) + (set c | c in res.value.commands))
                    else && old(Matching(u)) == {res.value} && actions == old(actions)
                         && res.value.updatedAt == Stamped(old(res.value.updatedAt), data)
                         && (ArrayField(data, CommandsKey).None? ==> res.value.commands == old(res.value.commands))
                         && (ArrayField(data, CommandsKey).Some? ==>
                               store.commands == (old(store.commands) - set c | c in old(res.value.commands))
                                                 + (set c | c in res.value.commands)))
    {
      var uuid := StringField(data, UuidKey);
      if uuid.None? {
        return Success(null);
      }
      if fetchFails {
        return Failure(StoreError);
      }
      var u := uuid.value;
      var matches := Matching(u);
      var action: Action;
      if matches != {} {
        action :| action in matches;
        assert matches == {action};
      } else {
        action := new Action(u);
        actions := actions + {action};
      }
      action.UpdateValues(data, store, params);
      assert Matching(u) == {action};
      return Success(action);
    }

    /** Reconciles the store with a whole `/actions` listing: find-or-create for every
        dictionary element, collecting the uuids of the actions written, then deletion of
        every stored action whose uuid was not collected. Actions without a uuid stay.
        `sweepFails`: the fetch of all actions before the deletions throws, so nothing is
        deleted. While the element fetches throw, nothing is written or collected, and a
        sweep that does run deletes every action with a uuid. */
    method UpdateDatabase(listing: seq<Json>, store: CommandStore, params: Parameters.ParameterStore, sweepFails: bool)
      requires Valid() && params.Valid()
      modifies this, actions, store
      ensures Valid()
      ensures fetchFails ==> actions <= old(actions) && unchanged(old(actions))
      ensures var collected := if fetchFails then [] else CollectedUuids(listing, None);
              && (forall a :: a in old(actions) ==> (a in actions <==> sweepFails || Survives(old(a.uuid), collected)))
              && (forall a :: a in actions && a !in old(actions) ==>
                    fresh(a) && a.uuid.Some? && a.uuid.value in collected)
              && (!sweepFails ==> forall a :: a in actions ==> Survives(a.uuid, collected))
              && (forall u :: u in collected ==> exists a :: a in actions && a.uuid == Some(u))
              && (forall a :: a in actions && a.uuid.Some? && a.uuid.value in collected ==>
                    LastListed(listing, a.uuid.value).Some? && a.Follows(LastListed(listing, a.uuid.value).value))
              && (forall a :: a in old(actions) && old(a.uuid).None? ==> unchanged(a))
      ensures forall a :: a in old(actions) ==> a.uuid == old(a.uuid)
      ensures forall a :: a in old(actions) && old(a.uuid).Some? && LastListed(listing, old(a.uuid).value).None? ==>
                unchanged(a)
    {
      var uuids := CollectListing(listing, store, params);
      SweepUnlisted(uuids, sweepFails);
    }

    /** The collection loop of `UpdateDatabase`: find-or-create for every element, in
        order, returning the uuids collected. */
    method CollectListing(listing: seq<Json>, store: CommandStore, params: Parameters.ParameterStore) returns (uuids: seq<string>)
      requires Valid() && params.Valid()
      modifies this, actions, store
      ensures Valid()
      ensures fetchFails ==> uuids == [] && actions == old(actions) && unchanged(old(actions))
      ensures !fetchFails ==> uuids == CollectedUuids(listing, None)
      ensures old(actions) <= actions
      ensures forall a :: a in actions && a !in old(actions) ==> fresh(a)
      ensures forall a :: a in actions ==> a in old(actions) || (a.uuid.Some? && a.uuid.value in uuids)
      ensures forall a :: a in old(actions) ==> a.uuid == old(a.uuid)
      ensures forall a :: a in old(actions) && old(a.uuid).None? ==> unchanged(a)
      ensures forall a :: a in old(actions) && old(a.uuid).Some? && LastListed(listing, old(a.uuid).value).None? ==>
                unchanged(a)
      ensures forall u :: u in uuids ==> Matching(u) != {}
      ensures FieldsFollow(listing, uuids)
    {
      uuids := [];
      var i := 0;
      while i < |listing|
        invariant 0 <= i <= |listing|
        invariant Valid()
        invariant fetchFails ==> uuids == [] && actions == old(actions) && unchanged(old(actions))
        invariant !fetchFails ==> uuids == CollectedUuids(listing[..i], None)
        invariant old(actions) <= actions
        invariant forall a :: a in actions && a !in old(actions) ==> fresh(a)
        invariant forall a :: a in actions ==> a in old(actions) || (a.uuid.Some? && a.uuid.value in uuids)
        invariant forall a :: a in old(actions) ==> a.uuid == old(a.uuid)
        invariant forall a :: a in old(actions) && old(a.uuid).None? ==> unchanged(a)
        invariant forall a :: a in old(actions) && old(a.uuid).Some? && LastListed(listing[..i], old(a.uuid).value).None? ==>
                    unchanged(a)
        invariant forall u :: u in uuids ==> Matching(u) != {}
        invariant FieldsFollow(listing[..i], uuids)
      {
        if !fetchFails {
          CollectedUuidsSnoc(listing, None, i);
        }
        uuids := CollectElement(listing[i], listing[..i], uuids, store, params);
        assert listing[..i] + [listing[i]] == listing[..i + 1];
        i := i + 1;
      }
      assert listing[..i] == listing;
    }

    /** Every stored action whose uuid was collected holds the fields of the last
        listed element carrying that uuid. */
    ghost predicate FieldsFollow(listed: seq<Json>, uuids: seq<string>)
      reads this, actions
    {
      forall a :: a in actions && a.uuid.Some? && a.uuid.value in uuids ==>
        LastListed(listed, a.uuid.value).Some? && a.Follows(LastListed(listed, a.uuid.value).value)
    }

    /** One pass of the collection loop of `UpdateDatabase`. */
    method CollectElement(element: Json, ghost listed: seq<Json>, uuids: seq<string>, store: CommandStore, params: Parameters.ParameterStore)
      returns (uuids': seq<string>)
      requires Valid() && params.Valid() && FieldsFollow(listed, uuids)
      requires forall u :: u in uuids ==> Matching(u) != {}
      requires fetchFails ==> uuids == []
      modifies this, actions, store
      ensures Valid() && FieldsFollow(listed + [element], uuids')
      ensures forall u :: u in uuids' ==> Matching(u) != {}
      ensures fetchFails ==> uuids' == uuids && actions == old(actions) && unchanged(actions)
      ensures !fetchFails ==> uuids' == uuids + (if ElementUuid(element).Some? then [ElementUuid(element).value] else [])
      ensures old(actions) <= actions
      ensures forall a :: a in actions && a !in old(actions) ==> fresh(a) && a.uuid.Some? && a.uuid.value in uuids'
      ensures forall a :: a in old(actions) ==> a.uuid == old(a.uuid)
      ensures forall a :: a in old(actions) && old(a.uuid) != ElementUuid(element) ==> unchanged(a)
      ensures forall a :: a in old(actions) && old(a.uuid).Some? && LastListed(listed + [element], old(a.uuid).value).None? ==>
                unchanged(a) && LastListed(listed, old(a.uuid).value).None?
      ensures forall a :: a in old(actions) && old(a.uuid).None? ==> unchanged(a)
    {
      LastListedAppend(listed, element);
      uuids' := uuids;
      if element.JObject? {
        var res := FindOrCreateAction(element.fields, store, params);
        if res.Success? && res.value != null && res.value.uuid.Some? {
          uuids' := uuids + [res.value.uuid.value];
        }
      }
    }

    /** Deletes every action whose uuid is not collected; actions without a uuid stay. When
        the fetch of all actions throws (`sweepFails`), nothing is deleted. */
    method SweepUnlisted(uuids: seq<string>, sweepFails: bool)
      modifies this
      ensures sweepFails ==> actions == old(actions)
      ensures !sweepFails ==> actions == set a | a in old(actions) && Survives(a.uuid, uuids)
    {
      if sweepFails {
        return;
      }
      var matches := actions;
      ghost var before := actions;
      while matches != {}
        invariant matches <= before
        invariant actions == set a | a in before && (a in matches || Survives(a.uuid, uuids))
        decreases matches
      {
        var action :| action in matches;
        if action.uuid.Some? && action.uuid.value !in uuids {
          actions := actions - {action};
        }
        matches := matches - {action};
      }
    }

    /** Without a uuid: a MissingAPIValues error and no change. Otherwise the action is
        deleted locally once the remote delete reported no error. */
    method Delete(action: Action, remoteError: Option<Error>) returns (completion: Completion)
      requires Valid()
      modifies this
      ensures Valid()
      ensures action.uuid.None? || remoteError.Some? ==> actions == old(actions)
      ensures action.uuid.None? ==> completion == Called(Some(MissingAPIValues("No uuid to delete.")))
      ensures action.uuid.Some? && remoteError.Some? ==> completion == Called(remoteError)
      ensures action.uuid.Some? && remoteError.None? ==>
                actions == old(actions) - {action} &&
                completion == Called(if saveFails then Some(StoreError) else None)
    {
      if action.uuid.None? {
        return Called(Some(MissingAPIValues("No uuid to delete.")));
      }
      if remoteError.Some? {
        return Called(remoteError);
      }
      actions := actions - {action};
      if saveFails {
        return Called(Some(StoreError));
      }
      return Called(None);
    }
  }
}
