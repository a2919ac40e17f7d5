/** Room: a managed object with a uuid, a name and a timestamp, and the operations that
    reconcile the rooms of the local store with the remote `/rooms` listing. */
module Rooms {
  import opened Json
  import opened Outcomes
  import opened Reconcile

  const NameKey := "roomName"

  class Room {
    var uuid: Option<string>
    var name: Option<string>
    var updatedAt: Option<string>

    /** `Room(context:)` followed by `room.uuid = uuid`. */
    constructor (uuid: string)
      ensures this.uuid == Some(uuid) && name == None && updatedAt == None
    {
      this.uuid := Some(uuid);
      name := None;
      updatedAt := None;
    }

    /** Keeps a uuid it already has, always overwrites the name (None when "roomName" is
        not a string) and overwrites the timestamp only when "updated_at" is a string. */
    method UpdateValues(data: JsonObject)
      modifies this
      ensures uuid == KeptUuid(old(uuid), data)
      ensures name == StringField(data, NameKey)
      ensures updatedAt == Stamped(old(updatedAt), data)
    {
      if uuid == None {
        uuid := StringField(data, UuidKey);
      }
      name := StringField(data, NameKey);
      var date := StringField(data, UpdatedKey);
      if date.Some? {
        updatedAt := date;
      }
    }

    /** The room holds the fields that every write of `data` overwrites. */
    ghost predicate Follows(data: JsonObject)
      reads this
    {
      name == StringField(data, NameKey)
    }

    /** The payload sent to the API: exactly the key "roomName", holding the name or "". */
    function ConvertToJson(): (payload: JsonObject)
      reads this
      ensures payload.Keys == {NameKey}
      ensures payload[NameKey] == JString(if name.Some? then name.value else "")
    {
      map[NameKey := OrEmpty(name)]
    }

    /** Which request `saveToAPI` sends: an edit of the room when it has a uuid, otherwise
        a creation. */
    function SaveRequest(): (request: Request)
      reads this
      ensures uuid.Some? <==> request.Edit?
      ensures request.Edit? ==> request.id == uuid.value
      ensures request.payload == ConvertToJson()
    {
      if uuid.Some? then Edit(uuid.value, ConvertToJson()) else Add(ConvertToJson())
    }
  }

  /** Writing a room's payload back as data restores its name, with "" for no name. */
  lemma PayloadRoundTrip(room: Room)
    ensures StringField(room.ConvertToJson(), NameKey) == Some(room.name.GetOr(""))
  {
  }

  /** The rooms of the managed object context. */
  class RoomStore {
    var rooms: set<Room>
    /** Every fetch by uuid from the store throws (the fetch before a sweep is the
        separate `sweepFails` of `UpdateDatabase`). */
    const fetchFails: bool
    /** Saving the context throws. */
    const saveFails: bool

    /** At most one stored room per uuid: the fetch by uuid never returns two matches. */
    ghost predicate Valid()
      reads this, rooms
    {
      forall r1, r2 :: r1 in rooms && r2 in rooms && r1.uuid.Some? && r1.uuid == r2.uuid ==> r1 == r2
    }

    constructor (fetchFails: bool, saveFails: bool)
      ensures Valid() && rooms == {}
      ensures this.fetchFails == fetchFails && this.saveFails == saveFails
    {
      rooms := {};
      this.fetchFails := fetchFails;
      this.saveFails := saveFails;
    }

    /** The fetch request with predicate `uuid = %@`. */
    function Matching(uuid: string): set<Room>
      reads this, rooms
    {
      set r | r in rooms && r.uuid == Some(uuid)
    }

    /** The unique room with that uuid, or null; never creates one. */
    method FindRoom(uuid: string) returns (res: Result<Room?>)
      requires Valid()
      ensures fetchFails <==> res.Failure?
      ensures res.Failure? ==> res.error == StoreError
      ensures res.Success? && res.value != null ==> res.value in rooms && res.value.uuid == Some(uuid)
      ensures res.Success? && res.value == null ==> forall r :: r in rooms ==> r.uuid != Some(uuid)
    {
      if fetchFails {
        return Failure(StoreError);
      }
      var matches := Matching(uuid);
      if matches != {} {
        var room :| room in matches;
        assert matches == {room};
        return Success(room);
      }
      assert forall r :: r in rooms && r.uuid == Some(uuid) ==> r in matches;
      return Success(null);
    }

    /** Reuses the room with the data's uuid or creates one stamped with it, then writes
        the data into it. Data without a string "uuid" yields null and changes nothing. */
    method FindOrCreateRoom(data: JsonObject) returns (res: Result<Room?>)
      requires Valid()
      modifies this, rooms
      ensures Valid()
      ensures StringField(data, UuidKey).None? || fetchFails ==>
                rooms == old(rooms) && unchanged(rooms)
      ensures StringField(data, UuidKey).None? ==> res == Success(null)
      ensures StringField(data, UuidKey).Some? && fetchFails ==> res == Failure(StoreError)
      ensures StringField(data, UuidKey).Some? && !fetchFails ==>
                var u := StringField(data, UuidKey).value;
                && res.Success? && res.value != null
                && Matching(u) == {res.value}
                && res.value.name == StringField(data, NameKey)
                && (forall r :: r in old(rooms) && r != res.value ==> unchanged(r))
                && (if old(Matching(u)) == {}
                    then fresh(res.value) && rooms == old(rooms) + {res.value}
                         && res.value.updatedAt == StringField(data, UpdatedKey)
                    else old(Matching(u)) == {res.value} && rooms == old(rooms)
                         && res.value.updatedAt == Stamped(old(res.value.updatedAt), data))
    {
      var uuid := StringField(data, UuidKey);
      if uuid.None? {
        return Success(null);
      }
      if fetchFails {
        return Failure(StoreError);
      }
      var u := uuid.value;
      var matches := Matching(u);
      var room: Room;
      if matches != {} {
        room :| room in matches;
        assert matches == {room};
      } else {
        room := new Room(u);
        rooms := rooms + {room};
      }
      room.UpdateValues(data);
      assert Matching(u) == {room};
      return Success(room);
    }

    /** Reconciles the store with a whole `/rooms` listing: find-or-create for every
        dictionary element, collecting the uuids of the rooms written, then deletion of every
        stored room whose uuid was not collected. Rooms without a uuid are never deleted.
        `sweepFails`: the fetch of all rooms before the deletions throws, so nothing is
        deleted. While the element fetches throw, nothing is written or collected, and a
        sweep that does run deletes every room with a uuid. */
    method UpdateDatabase(listing: seq<Json>, sweepFails: bool)
      requires Valid()
      modifies this, rooms
      ensures Valid()
      ensures fetchFails ==> rooms <= old(rooms) && unchanged(old(rooms))
      ensures var collected := if fetchFails then [] else CollectedUuids(listing, None);
              && (forall r :: r in old(rooms) ==> (r in rooms <==> sweepFails || Survives(old(r.uuid), collected)))
              && (forall r :: r in rooms && r !in old(rooms) ==>
                    fresh(r) && r.uuid.Some? && r.uuid.value in collected)
              && (!sweepFails ==> forall r :: r in rooms ==> Survives(r.uuid, collected))
              && (forall u :: u in collected ==> exists r :: r in rooms && r.uuid == Some(u))
              && (forall r :: r in rooms && r.uuid.Some? && r.uuid.value in collected ==>
                    LastListed(listing, r.uuid.value).Some? && r.Follows(LastListed(listing, r.uuid.value).value))
              && (forall r :: r in old(rooms) && old(r.uuid).None? ==> unchanged(r))
      ensures forall r :: r in old(rooms) ==> r.uuid == old(r.uuid)
      ensures forall r :: r in old(rooms) && old(r.uuid).Some? && LastListed(listing, old(r.uuid).value).None? ==>
                unchanged(r)
    {
      var uuids := CollectListing(listing);
      SweepUnlisted(uuids, sweepFails);
    }

    /** The collection loop of `UpdateDatabase`: find-or-create for every element, in
        order, returning the uuids collected. */
    method CollectListing(listing: seq<Json>) returns (uuids: seq<string>)
      requires Valid()
      modifies this, rooms
      ensures Valid()
      ensures fetchFails ==> uuids == [] && rooms == old(rooms) && unchanged(old(rooms))
      ensures !fetchFails ==> uuids == CollectedUuids(listing, None)
      ensures old(rooms) <= rooms
      ensures forall r :: r in rooms && r !in old(rooms) ==> fresh(r)
      ensures forall r :: r in rooms ==> r in old(rooms) || (r.uuid.Some? && r.uuid.value in uuids)
      ensures forall r :: r in old(rooms) ==> r.uuid == old(r.uuid)
      ensures forall r :: r in old(rooms) && old(r.uuid).None? ==> unchanged(r)
      ensures forall r :: r in old(rooms) && old(r.uuid).Some? && LastListed(listing, old(r.uuid).value).None? ==>
                unchanged(r)
      ensures forall u :: u in uuids ==> Matching(u) != {}
      ensures FieldsFollow(listing, uuids)
    {
      uuids := [];
      var i := 0;
      while i < |listing|
        invariant 0 <= i <= |listing|
        invariant Valid()
        invariant fetchFails ==> uuids == [] && rooms == old(rooms) && unchanged(old(rooms))
        invariant !fetchFails ==> uuids == CollectedUuids(listing[..i], None)
        invariant old(rooms) <= rooms
        invariant forall r :: r in rooms && r !in old(rooms) ==> fresh(r)
        invariant forall r :: r in rooms ==> r in old(rooms) || (r.uuid.Some? && r.uuid.value in uuids)
        invariant forall r :: r in old(rooms) ==> r.uuid == old(r.uuid)
        invariant forall r :: r in old(rooms) && old(r.uuid).None? ==> unchanged(r)
        invariant forall r :: r in old(rooms) && old(r.uuid).Some? && LastListed(listing[..i], old(r.uuid).value).None? ==>
                    unchanged(r)
        invariant forall u :: u in uuids ==> Matching(u) != {}
        invariant FieldsFollow(listing[..i], uuids)
      {
        if !fetchFails {
          CollectedUuidsSnoc(listing, None, i);
        }
        uuids := CollectElement(listing[i], listing[..i], uuids);
        assert listing[..i] + [listing[i]] == listing[..i + 1];
        i := i + 1;
      }
      assert listing[..i] == listing;
    }

    /** Every stored room whose uuid was collected holds the fields of the last listed
        element carrying that uuid. */
    ghost predicate FieldsFollow(listed: seq<Json>, uuids: seq<string>)
      reads this, rooms
    {
      forall r :: r in rooms && r.uuid.Some? && r.uuid.value in uuids ==>
        LastListed(listed, r.uuid.value).Some? && r.Follows(LastListed(listed, r.uuid.value).value)
    }

    /** One pass of the collection loop of `UpdateDatabase`: find-or-create for the element
        when it is a dictionary, appending the uuid of the room written. */
    method CollectElement(element: Json, ghost listed: seq<Json>, uuids: seq<string>) returns (uuids': seq<string>)
      requires Valid() && FieldsFollow(listed, uuids)
      requires forall u :: u in uuids ==> Matching(u) != {}
      requires fetchFails ==> uuids == []
      modifies this, rooms
      ensures Valid() && FieldsFollow(listed + [element], uuids')
      ensures forall u :: u in uuids' ==> Matching(u) != {}
      ensures fetchFails ==> uuids' == uuids && rooms == old(rooms) && unchanged(rooms)
      ensures !fetchFails ==> uuids' == uuids + (if ElementUuid(element).Some? then [ElementUuid(element).value] else [])
      ensures old(rooms) <= rooms
      ensures forall r :: r in rooms && r !in old(rooms) ==> fresh(r) && r.uuid.Some? && r.uuid.value in uuids'
      ensures forall r :: r in old(rooms) ==> r.uuid == old(r.uuid)
      ensures forall r :: r in old(rooms) && old(r.uuid) != ElementUuid(element) ==> unchanged(r)
      ensures forall r :: r in old(rooms) && old(r.uuid).Some? && LastListed(listed + [element], old(r.uuid).value).None? ==>
                unchanged(r) && LastListed(listed, old(r.uuid).value).None?
      ensures forall r :: r in old(rooms) && old(r.uuid).None? ==> unchanged(r)
    {
      LastListedAppend(listed, element);
      uuids' := uuids;
      if element.JObject? {
        var res := FindOrCreateRoom(element.fields);
        if res.Success? && res.value != null && res.value.uuid.Some? {
          uuids' := uuids + [res.value.uuid.value];
        }
      }
    }

    /** Deletes the room locally once the remote delete reported no error. Without a uuid
        nothing happens and the completion handler is never called. */
    method Delete(room: Room, remoteError: Option<Error>) returns (completion: Completion)
      requires Valid()
      modifies this
      ensures Valid()
      ensures room.uuid.None? || remoteError.Some? ==> rooms == old(rooms)
      ensures room.uuid.None? ==> completion == NotCalled
      ensures room.uuid.Some? && remoteError.Some? ==> completion == Called(remoteError)
      ensures room.uuid.Some? && remoteError.None? ==>
                rooms == old(rooms) - {room} &&
                completion == Called(if saveFails then Some(StoreError) else None)
    {
      if room.uuid.None? {
        return NotCalled;
      }
      if remoteError.Some? {
        return Called(remoteError);
      }
      rooms := rooms - {room};
      if saveFails {
        return Called(Some(StoreError));
      }
      return Called(None);
    }

    /** Deletes every room whose uuid is not collected; rooms without a uuid stay. When
        the fetch of all rooms throws (`sweepFails`), nothing is deleted. */
    method SweepUnlisted(uuids: seq<string>, sweepFails: bool)
      modifies this
      ensures sweepFails ==> rooms == old(rooms)
      ensures !sweepFails ==> rooms == set r | r in old(rooms) && Survives(r.uuid, uuids)
    {
      if sweepFails {
        return;
      }
      var matches := rooms;
      ghost var before := rooms;
      while matches != {}
        invariant matches <= before
        invariant rooms == set r | r in before && (r in matches || Survives(r.uuid, uuids))
        decreases matches
      {
        var room :| room in matches;
        if room.uuid.Some? && room.uuid.value !in uuids {
          rooms := rooms - {room};
        }
        matches := matches - {room};
      }
    }
  }
}
