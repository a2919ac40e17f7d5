/** What the five entity kinds share when they reconcile the local store with a remote
    listing: the uuid key, which uuids a pass over a listing collects, which stored
    records the orphan sweep keeps, and the two field-overwrite rules every
    `updateValues` applies to `uuid` and `updated_at`. */
module Reconcile {
  import opened Json

  const UuidKey := "uuid"
  const UpdatedKey := "updated_at"

  /** The uuid of a listing element: `element as? [String: Any]`, then `["uuid"] as? String`. */
  function ElementUuid(element: Json): (u: Option<string>)
    ensures u.Some? <==> element.JObject? && StringField(element.fields, UuidKey).Some?
    ensures u.Some? ==> u == StringField(element.fields, UuidKey)
  {
    if element.JObject? then StringField(element.fields, UuidKey) else None
  }

  /** Whether find-or-create throws on this element after writing it: it does when the
      lookup that follows the write fails, which happens for elements that carry a string
      under `failingKey` (None: no element throws). */
  predicate Throws(element: Json, failingKey: Option<string>)
  {
    failingKey.Some? && element.JObject? && StringField(element.fields, failingKey.value).Some?
  }

  /** The `uuids` array that an `updateDatabase` pass appends to, in listing order: one entry
      per dictionary element with a string uuid whose find-or-create did not throw. */
  function CollectedUuids(listing: seq<Json>, failingKey: Option<string>): (r: seq<string>)
    ensures |r| <= |listing|
  {
    if listing == [] then []
    else
      var last := listing[|listing| - 1];
      CollectedUuids(listing[..|listing| - 1], failingKey)
        + (if ElementUuid(last).Some? && !Throws(last, failingKey) then [ElementUuid(last).value] else [])
  }

  /** A uuid is collected exactly when some element carries it and does not throw. */
  lemma {:induction false} CollectedUuidsMembership(listing: seq<Json>, failingKey: Option<string>, u: string)
    ensures u in CollectedUuids(listing, failingKey) <==>
            exists i :: 0 <= i < |listing| && ElementUuid(listing[i]) == Some(u) && !Throws(listing[i], failingKey)
  {
    if listing != [] {
      var front := listing[..|listing| - 1];
      CollectedUuidsMembership(front, failingKey, u);
      if exists i :: 0 <= i < |listing| && ElementUuid(listing[i]) == Some(u) && !Throws(listing[i], failingKey) {
        var i :| 0 <= i < |listing| && ElementUuid(listing[i]) == Some(u) && !Throws(listing[i], failingKey);
        if i < |front| {
          assert front[i] == listing[i];
        }
      }
      if u in CollectedUuids(front, failingKey) {
        var i :| 0 <= i < |front| && ElementUuid(front[i]) == Some(u) && !Throws(front[i], failingKey);
        assert listing[i] == front[i];
      }
    }
  }

  /** Extending the listing by one element extends the collected uuids by that element's. */
  lemma CollectedUuidsSnoc(listing: seq<Json>, failingKey: Option<string>, i: nat)
    requires i < |listing|
    ensures CollectedUuids(listing[..i + 1], failingKey) ==
            CollectedUuids(listing[..i], failingKey)
              + (if ElementUuid(listing[i]).Some? && !Throws(listing[i], failingKey) then [ElementUuid(listing[i]).value] else [])
  {
    assert listing[..i + 1][..i] == listing[..i];
  }

  /** The dictionary of the last listing element that carries `u`: the one whose scalar
      fields a record with uuid `u` holds after the pass, since every later write overwrites. */
  function LastListed(listing: seq<Json>, u: string): (r: Option<JsonObject>)
    ensures r.Some? ==> exists i :: 0 <= i < |listing| && listing[i] == JObject(r.value) && ElementUuid(listing[i]) == Some(u)
  {
    if listing == [] then None
    else
      var last := listing[|listing| - 1];
      if ElementUuid(last) == Some(u) then Some(last.fields)
      else
        var r := LastListed(listing[..|listing| - 1], u);
        assert r.Some? ==> exists i :: 0 <= i < |listing| - 1 && listing[i] == JObject(r.value) && ElementUuid(listing[i]) == Some(u);
        r
  }

  /** Appending an element to the listing changes the last listed element only for that
      element's uuid. */
  lemma LastListedAppend(listing: seq<Json>, element: Json)
    ensures forall u :: LastListed(listing + [element], u) ==
              if ElementUuid(element) == Some(u) then Some(element.fields) else LastListed(listing, u)
  {
    assert (listing + [element])[..|listing|] == listing;
  }

  /** Every collected uuid has a last listed element. */
  lemma {:induction false} CollectedHasLast(listing: seq<Json>, failingKey: Option<string>, u: string)
    requires u in CollectedUuids(listing, failingKey)
    ensures LastListed(listing, u).Some?
  {
    var front := listing[..|listing| - 1];
    if ElementUuid(listing[|listing| - 1]) != Some(u) {
      CollectedHasLast(front, failingKey, u);
    }
  }

  /** The orphan-sweep rule: a stored record survives when it has no uuid (it is pending
      creation) or when its uuid was collected from the listing. */
  predicate Survives(uuid: Option<string>, collected: seq<string>)
  {
    uuid.None? || uuid.value in collected
  }

  /** The sweep rule read against the listing itself: a record survives exactly when it
      has no uuid or some listed dictionary carries its uuid and did not throw. */
  lemma {:induction false} SurvivesIffListed(listing: seq<Json>, failingKey: Option<string>, uuid: Option<string>)
    ensures Survives(uuid, CollectedUuids(listing, failingKey)) <==>
            uuid.None? ||
            exists i :: 0 <= i < |listing| && ElementUuid(listing[i]) == uuid && !Throws(listing[i], failingKey)
  {
    if uuid.Some? {
      CollectedUuidsMembership(listing, failingKey, uuid.value);
    }
  }

  /** A uuid all of whose listed elements throw is not collected, so the sweep deletes the
      record that carries it even though the pass wrote that record. */
  lemma {:induction false} ThrowingOnlyNotCollected(listing: seq<Json>, failingKey: Option<string>, u: string)
    requires forall i :: 0 <= i < |listing| && ElementUuid(listing[i]) == Some(u) ==> Throws(listing[i], failingKey)
    ensures u !in CollectedUuids(listing, failingKey)
    ensures !Survives(Some(u), CollectedUuids(listing, failingKey))
  {
    CollectedUuidsMembership(listing, failingKey, u);
  }

  /** `if uuid == nil { uuid = data["uuid"] as? String }` */
  function KeptUuid(uuid: Option<string>, data: JsonObject): (r: Option<string>)
    ensures uuid.Some? ==> r == uuid
    ensures uuid.None? ==> r == StringField(data, UuidKey)
  {
    if uuid.None? then StringField(data, UuidKey) else uuid
  }

  /** `if let dateString = data["updated_at"] as? String { updated_at = ... }` (the date is
      kept as the text received). */
  function Stamped(updatedAt: Option<string>, data: JsonObject): (r: Option<string>)
    ensures StringField(data, UpdatedKey).Some? ==> r == StringField(data, UpdatedKey)
    ensures StringField(data, UpdatedKey).None? ==> r == updatedAt
  {
    if StringField(data, UpdatedKey).Some? then StringField(data, UpdatedKey) else updatedAt
  }

  /** Applying the same data twice changes nothing more than applying it once. */
  lemma OverwriteRulesIdempotent(uuid: Option<string>, updatedAt: Option<string>, data: JsonObject)
    ensures KeptUuid(KeptUuid(uuid, data), data) == KeptUuid(uuid, data)
    ensures Stamped(Stamped(updatedAt, data), data) == Stamped(updatedAt, data)
  {
  }
}
