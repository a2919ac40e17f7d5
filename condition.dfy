/** Condition: a managed object comparing a parameter with a value or with a second
    parameter, and naming the action to fire; and the operations that reconcile the
    conditions of the local store with the remote `/conditions` listing. */
module Conditions {
  import opened Json
  import opened Outcomes
  import opened Reconcile
  import Parameters
  import Actions

  const NameKey := "conditionName"
  const ParamIdKey := "paramID"
  const TypeKey := "comparisonType"
  const ComparisonKey := "comparison"
  const ComparisonValueKey := "comparisonValue"
  const CompParamIdKey := "comparisonParameter"
  const ToleranceKey := "tolerance"
  const ActionIdKey := "actionID"

  /** Whether a link lookup for this id runs and returns: the id is present and the
      fetch does not throw. Only then is the link assigned, to the match or to nil. */
  predicate LookupReturns(id: Option<string>, fetchFails: bool)
  {
    id.Some? && !fetchFails
  }

  /** A parameter link after a lookup of `uuid` returned: the unique match, or nil when
      no stored parameter has that uuid. */
  ghost predicate LinksParameter(link: Parameters.Parameter?, uuid: string, params: Parameters.ParameterStore)
    reads params, params.parameters
  {
    if params.Matching(uuid) == {} then link == null else link in params.Matching(uuid)
  }

  /** An action link after a lookup of `uuid` returned: the unique match, or nil. */
  ghost predicate LinksAction(link: Actions.Action?, uuid: string, actions: Actions.ActionStore)
    reads actions, actions.actions
  {
    if actions.Matching(uuid) == {} then link == null else link in actions.Matching(uuid)
  }

  /** `if let id = id, let p = try? Parameter.findParameter(for: id, ...)`. `try?` on a
      lookup returning `Parameter?` yields `Parameter??`: a throwing lookup gives None (the
      `if let` fails and the link is left alone), a lookup that returns gives Some of the
      match or of nil, and the link is then assigned that value. */
  method ResolveParameter(id: Option<string>, params: Parameters.ParameterStore)
    returns (link: Option<Parameters.Parameter?>)
    requires params.Valid()
    ensures link.Some? <==> LookupReturns(id, params.fetchFails)
    ensures link.Some? ==> LinksParameter(link.value, id.value, params)
  {
    link := None;
    if id.Some? {
      var res := params.FindParameter(id.value);
      if res.Success? {
        if res.value != null {
          assert res.value in params.Matching(id.value);
        } else {
          assert forall p :: p in params.parameters && p.uuid == id ==> p in params.Matching(id.value);
        }
        link := Some(res.value);
      }
    }
  }

  /** `if let id = id, let a = try? Action.findAction(for: id, ...)`, the same way. */
  method ResolveAction(id: Option<string>, actions: Actions.ActionStore)
    returns (link: Option<Actions.Action?>)
    requires actions.Valid()
    ensures link.Some? <==> LookupReturns(id, actions.fetchFails)
    ensures link.Some? ==> LinksAction(link.value, id.value, actions)
  {
    link := None;
    if id.Some? {
      var res := actions.FindAction(id.value);
      if res.Success? {
        if res.value != null {
          assert res.value in actions.Matching(id.value);
        } else {
          assert forall a :: a in actions.actions && a.uuid == id ==> a in actions.Matching(id.value);
        }
        link := Some(res.value);
      }
    }
  }

  class Condition {
    var uuid: Option<string>
    var name: Option<string>
    var paramID: Option<string>
    var comparisonType: Option<string>
    var comparison: Option<string>
    var comparisonValue: Option<string>
    var comparisonParam: Option<string>
    var actionID: Option<string>
    var tolerance: Option<string>
    var parameter: Parameters.Parameter?
    var compParameter: Parameters.Parameter?
    var action: Actions.Action?

    /** `Condition(context:)` followed by `condition.uuid = uuid`. */
    constructor (uuid: string)
      ensures this.uuid == Some(uuid) && name == None && paramID == None
      ensures comparisonType == None && comparison == None && comparisonValue == None
      ensures comparisonParam == None && actionID == None && tolerance == None
      ensures parameter == null && compParameter == null && action == null
    {
      this.uuid := Some(uuid);
      name := None;
      paramID := None;
      comparisonType := None;
      comparison := None;
      comparisonValue := None;
      comparisonParam := None;
      actionID := None;
      tolerance := None;
      parameter := null;
      compParameter := null;
      action := null;
    }

    /** The condition holds the scalar fields that every write of `data` overwrites. */
    ghost predicate Follows(data: JsonObject)
      reads this
    {
      && name == StringField(data, NameKey) && paramID == StringField(data, ParamIdKey)
      && comparisonType == StringField(data, TypeKey) && comparison == StringField(data, ComparisonKey)
      && comparisonValue == StringField(data, ComparisonValueKey)
      && comparisonParam == StringField(data, CompParamIdKey)
      && actionID == StringField(data, ActionIdKey) && tolerance == StringField(data, ToleranceKey)
    }

    /** The three links after a write: each is relinked per its lookup when the lookup
        returns, and otherwise still holds its previous value. */
    ghost predicate Relinked(previousParameter: Parameters.Parameter?, previousCompParameter: Parameters.Parameter?,
                             previousAction: Actions.Action?, params: Parameters.ParameterStore, actions: Actions.ActionStore)
      reads this, params, params.parameters, actions, actions.actions
    {
      && (if LookupReturns(paramID, params.fetchFails)
          then LinksParameter(parameter, paramID.value, params) else parameter == previousParameter)
      && (if LookupReturns(comparisonParam, params.fetchFails)
          then LinksParameter(compParameter, comparisonParam.value, params) else compParameter == previousCompParameter)
      && (if LookupReturns(actionID, actions.fetchFails)
          then LinksAction(action, actionID.value, actions) else action == previousAction)
    }

    /** Keeps a uuid it already has and overwrites all eight scalar fields (None for a key
        that is not a string). Each of the three links is assigned whenever its id is
        present and the lookup does not throw: to the match, or to nil when nothing
        matches. A throwing lookup leaves the link as it was. */
    method UpdateValues(data: JsonObject, params: Parameters.ParameterStore, actions: Actions.ActionStore)
      requires params.Valid() && actions.Valid()
      modifies this
      ensures uuid == KeptUuid(old(uuid), data)
      ensures name == StringField(data, NameKey) && paramID == StringField(data, ParamIdKey)
      ensures comparisonType == StringField(data, TypeKey) && comparison == StringField(data, ComparisonKey)
      ensures comparisonValue == StringField(data, ComparisonValueKey)
      ensures comparisonParam == StringField(data, CompParamIdKey)
      ensures actionID == StringField(data, ActionIdKey) && tolerance == StringField(data, ToleranceKey)
      ensures if LookupReturns(paramID, params.fetchFails)
              then LinksParameter(parameter, paramID.value, params)
              else parameter == old(parameter)
      ensures if LookupReturns(comparisonParam, params.fetchFails)
              then LinksParameter(compParameter, comparisonParam.value, params)
              else compParameter == old(compParameter)
      ensures if LookupReturns(actionID, actions.fetchFails)
              then LinksAction(action, actionID.value, actions)
              else action == old(action)
    {
      WriteFields(data);
      Relink(params, actions);
    }

    /** The scalar steps of `UpdateValues`. */
    method WriteFields(data: JsonObject)
      modifies this`uuid, this`name, this`paramID, this`comparisonType, this`comparison
      modifies this`comparisonValue, this`comparisonParam, this`actionID, this`tolerance
      ensures uuid == KeptUuid(old(uuid), data)
      ensures name == StringField(data, NameKey) && paramID == StringField(data, ParamIdKey)
      ensures comparisonType == StringField(data, TypeKey) && comparison == StringField(data, ComparisonKey)
      ensures comparisonValue == StringField(data, ComparisonValueKey)
      ensures comparisonParam == StringField(data, CompParamIdKey)
      ensures actionID == StringField(data, ActionIdKey) && tolerance == StringField(data, ToleranceKey)
    {
      if uuid == None {
        uuid := StringField(data, UuidKey);
      }
      name := StringField(data, NameKey);
      paramID := StringField(data, ParamIdKey);
      comparisonType := StringField(data, TypeKey);
      comparison := StringField(data, ComparisonKey);
      comparisonValue := StringField(data, ComparisonValueKey);
      comparisonParam := StringField(data, CompParamIdKey);
      actionID := StringField(data, ActionIdKey);
      tolerance := StringField(data, ToleranceKey);
    }

    /** The link steps of `UpdateValues`, for the ids just written. */
    method Relink(params: Parameters.ParameterStore, actions: Actions.ActionStore)
      requires params.Valid() && actions.Valid()
      modifies this`parameter, this`compParameter, this`action
      ensures if LookupReturns(paramID, params.fetchFails)
              then LinksParameter(parameter, paramID.value, params)
              else parameter == old(parameter)
      ensures if LookupReturns(comparisonParam, params.fetchFails)
              then LinksParameter(compParameter, comparisonParam.value, params)
              else compParameter == old(compParameter)
      ensures if LookupReturns(actionID, actions.fetchFails)
              then LinksAction(action, actionID.value, actions)
              else action == old(action)
    {
      var p := ResolveParameter(paramID, params);
      if p.Some? {
        parameter := p.value;
      }
      var c := ResolveParameter(comparisonParam, params);
      if c.Some? {
        compParameter := c.value;
      }
      var a := ResolveAction(actionID, actions);
      if a.Some? {
        action := a.value;
      }
    }
  }

  /** The conditions of the managed object context. */
  class ConditionStore {
    var conditions: set<Condition>
    /** Every fetch by uuid from the store throws (the fetch before a sweep is the
        separate `sweepFails` of `UpdateDatabase`). */
    const fetchFails: bool

    /** At most one stored condition per uuid. */
    ghost predicate Valid()
      reads this, conditions
    {
      forall c1, c2 :: c1 in conditions && c2 in conditions && c1.uuid.Some? && c1.uuid == c2.uuid ==> c1 == c2
    }

    constructor (fetchFails: bool)
      ensures Valid() && conditions == {} && this.fetchFails == fetchFails
    {
      conditions := {};
      this.fetchFails := fetchFails;
    }

    /** The fetch request with predicate `uuid = %@`. */
    function Matching(uuid: string): set<Condition>
      reads this, conditions
    {
      set c | c in conditions && c.uuid == Some(uuid)
    }

    /** Reuses the condition with the data's uuid or creates one stamped with it, then
        writes the data into it. Data without a string "uuid" yields null and changes
        nothing. Failing parameter or action lookups do not make it throw. */
    method FindOrCreateCondition(data: JsonObject, params: Parameters.ParameterStore, actions: Actions.ActionStore)
      returns (res: Result<Condition?>)
      requires Valid() && params.Valid() && actions.Valid()
      modifies this, conditions
      ensures Valid()
      ensures StringField(data, UuidKey).None? || fetchFails ==>
                conditions == old(conditions) && unchanged(conditions)
      ensures StringField(data, UuidKey).None? ==> res == Success(null)
      ensures StringField(data, UuidKey).Some? && fetchFails ==> res == Failure(StoreError)
      ensures StringField(data, UuidKey).Some? && !fetchFails ==>
                var u := StringField(data, UuidKey).value;
                && res.Success? && res.value != null
                && Matching(u) == {res.value}
                && res.value.Follows(data)
                && (LookupReturns(res.value.actionID, actions.fetchFails) ==>
                      LinksAction(res.value.action, res.value.actionID.value, actions))
                && (forall c :: c in old(conditions) && c != res.value ==> unchanged(c))
                && (if old(Matching(u)) == {}
                    then && fresh(res.value) && conditions == old(conditions) + {res.value}
                         && res.value.Relinked(null, null, null, params, actions)
                    else && old(Matching(u)) == {res.value} && conditions == old(conditions)
                         && res.value.Relinked(old(res.value.parameter), old(res.value.compParameter),
                                               old(res.value.action), params, actions))
    {
      var uuid := StringField(data, UuidKey);
      if uuid.None? {
        return Success(null);
      }
      if fetchFails {
        return Failure(StoreError);
      }
      var u := uuid.value;
      var matches := Matching(u);
      var condition: Condition;
      if matches != {} {
        condition :| condition in matches;
        assert matches == {condition};
      } else {
        condition := new Condition(u);
        conditions := conditions + {condition};
      }
      condition.UpdateValues(data, params, actions);
      assert Matching(u) == {condition};
      return Success(condition);
    }

    /** Reconciles the store with a whole `/conditions` listing: find-or-create for every
        dictionary element, collecting the uuids of the conditions written, then deletion of
        every stored condition whose uuid was not collected. Conditions without a uuid stay.
        `sweepFails`: the fetch of all conditions before the deletions throws, so nothing is
        deleted. While the element fetches throw, nothing is written or collected, and a
        sweep that does run deletes every condition with a uuid. */
    method UpdateDatabase(listing: seq<Json>, params: Parameters.ParameterStore, actions: Actions.ActionStore, sweepFails: bool)
      requires Valid() && params.Valid() && actions.Valid()
      modifies this, conditions
      ensures Valid()
      ensures fetchFails ==> conditions <= old(conditions) && unchanged(old(conditions))
      ensures var collected := if fetchFails then [] else CollectedUuids(listing, None);
              && (forall c :: c in old(conditions) ==> (c in conditions <==> sweepFails || Survives(old(c.uuid), collected)))
              && (forall c :: c in conditions && c !in old(conditions) ==>
                    fresh(c) && c.uuid.Some? && c.uuid.value in collected)
              && (!sweepFails ==> forall c :: c in conditions ==> Survives(c.uuid, collected))
              && (forall u :: u in collected ==> exists c :: c in conditions && c.uuid == Some(u))
              && (forall c :: c in conditions && c.uuid.Some? && c.uuid.value in collected ==>
                    LastListed(listing, c.uuid.value).Some? && c.Follows(LastListed(listing, c.uuid.value).value))
              && (forall c :: c in old(conditions) && old(c.uuid).None? ==> unchanged(c))
      ensures forall c :: c in old(conditions) ==> c.uuid == old(c.uuid)
      ensures forall c :: c in old(conditions) && old(c.uuid).Some? && LastListed(listing, old(c.uuid).value).None? ==>
                unchanged(c)
    {
      var uuids := CollectListing(listing, params, actions);
      SweepUnlisted(uuids, sweepFails);
    }

    /** The collection loop of `UpdateDatabase`: find-or-create for every element, in
        order, returning the uuids collected. */
    method CollectListing(listing: seq<Json>, params: Parameters.ParameterStore, actions: Actions.ActionStore) returns (uuids: seq<string>)
      requires Valid() && params.Valid() && actions.Valid()
      modifies this, conditions
      ensures Valid()
      ensures fetchFails ==> uuids == [] && conditions == old(conditions) && unchanged(old(conditions))
      ensures !fetchFails ==> uuids == CollectedUuids(listing, None)
      ensures old(conditions) <= conditions
      ensures forall c :: c in conditions && c !in old(conditions) ==> fresh(c)
      ensures forall c :: c in conditions ==> c in old(conditions) || (c.uuid.Some? && c.uuid.value in uuids)
      ensures forall c :: c in old(conditions) ==> c.uuid == old(c.uuid)
      ensures forall c :: c in old(conditions) && old(c.uuid).None? ==> unchanged(c)
      ensures forall c :: c in old(conditions) && old(c.uuid).Some? && LastListed(listing, old(c.uuid).value).None? ==>
                unchanged(c)
      ensures forall u :: u in uuids ==> Matching(u) != {}
      ensures FieldsFollow(listing, uuids)
    {
      uuids := [];
      var i := 0;
      while i < |listing|
        invariant 0 <= i <= |listing|
        invariant Valid()
        invariant fetchFails ==> uuids == [] && conditions == old(conditions) && unchanged(old(conditions))
        invariant !fetchFails ==> uuids == CollectedUuids(listing[..i], None)
        invariant old(conditions) <= conditions
        invariant forall c :: c in conditions && c !in old(conditions) ==> fresh(c)
        invariant forall c :: c in conditions ==> c in old(conditions) || (c.uuid.Some? && c.uuid.value in uuids)
        invariant forall c :: c in old(conditions) ==> c.uuid == old(c.uuid)
        invariant forall c :: c in old(conditions) && old(c.uuid).None? ==> unchanged(c)
        invariant forall c :: c in old(conditions) && old(c.uuid).Some? && LastListed(listing[..i], old(c.uuid).value).None? ==>
                    unchanged(c)
        invariant forall u :: u in uuids ==> Matching(u) != {}
        invariant FieldsFollow(listing[..i], uuids)
      {
        if !fetchFails {
          CollectedUuidsSnoc(listing, None, i);
        }
        uuids := CollectElement(listing[i], listing[..i], uuids, params, actions);
        assert listing[..i] + [listing[i]] == listing[..i + 1];
        i := i + 1;
      }
      assert listing[..i] == listing;
    }

    /** Every stored condition whose uuid was collected holds the fields of the last
        listed element carrying that uuid. */
    ghost predicate FieldsFollow(listed: seq<Json>, uuids: seq<string>)
      reads this, conditions
    {
      forall c :: c in conditions && c.uuid.Some? && c.uuid.value in uuids ==>
        LastListed(listed, c.uuid.value).Some? && c.Follows(LastListed(listed, c.uuid.value).value)
    }

    /** One pass of the collection loop of `UpdateDatabase`. */
    method CollectElement(element: Json, ghost listed: seq<Json>, uuids: seq<string>,
                          params: Parameters.ParameterStore, actions: Actions.ActionStore)
      returns (uuids': seq<string>)
      requires Valid() && params.Valid() && actions.Valid() && FieldsFollow(listed, uuids)
      requires forall u :: u in uuids ==> Matching(u) != {}
      requires fetchFails ==> uuids == []
      modifies this, conditions
      ensures Valid() && FieldsFollow(listed + [element], uuids')
      ensures forall u :: u in uuids' ==> Matching(u) != {}
      ensures fetchFails ==> uuids' == uuids && conditions == old(conditions) && unchanged(conditions)
      ensures !fetchFails ==> uuids' == uuids + (if ElementUuid(element).Some? then [ElementUuid(element).value] else [])
      ensures old(conditions) <= conditions
      ensures forall c :: c in conditions && c !in old(conditions) ==> fresh(c) && c.uuid.Some? && c.uuid.value in uuids'
      ensures forall c :: c in old(conditions) ==> c.uuid == old(c.uuid)
      ensures forall c :: c in old(conditions) && old(c.uuid) != ElementUuid(element) ==> unchanged(c)
      ensures forall c :: c in old(conditions) && old(c.uuid).Some? && LastListed(listed + [element], old(c.uuid).value).None? ==>
                unchanged(c) && LastListed(listed, old(c.uuid).value).None?
      ensures forall c :: c in old(conditions) && old(c.uuid).None? ==> unchanged(c)
    {
      LastListedAppend(listed, element);
      uuids' := uuids;
      if element.JObject? {
        var res := FindOrCreateCondition(element.fields, params, actions);
        if res.Success? && res.value != null && res.value.uuid.Some? {
          uuids' := uuids + [res.value.uuid.value];
        }
      }
    }

    /** Deletes every condition whose uuid is not collected; conditions without a uuid stay. When
        the fetch of all conditions throws (`sweepFails`), nothing is deleted. */
    method SweepUnlisted(uuids: seq<string>, sweepFails: bool)
      modifies this
      ensures sweepFails ==> conditions == old(conditions)
      ensures !sweepFails ==> conditions == set c | c in old(conditions) && Survives(c.uuid, uuids)
    {
      if sweepFails {
        return;
      }
      var matches := conditions;
      ghost var before := conditions;
      while matches != {}
        invariant matches <= before
        invariant conditions == set c | c in before && (c in matches || Survives(c.uuid, uuids))
        decreases matches
      {
        var condition :| condition in matches;
        if condition.uuid.Some? && condition.uuid.value !in uuids {
          conditions := conditions - {condition};
        }
        matches := matches - {condition};
      }
    }
  }
}
