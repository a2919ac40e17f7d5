/** Device: a managed object with a uuid, a name, a type, a timestamp and a link to its
    room, and the operations that reconcile the devices of the local store with the remote
    `/devices` listing. */
module Devices {
  import opened Json
  import opened Outcomes
  import opened Reconcile
  import Rooms

  const NameKey := "deviceName"
  const TypeKey := "deviceType"
  const RoomIdKey := "roomID"

  class Device {
    var uuid: Option<string>
    var name: Option<string>
    var deviceType: Option<string>
    var updatedAt: Option<string>
    var room: Rooms.Room?

    /** `Device(context:)` followed by `device.uuid = uuid`. */
    constructor (uuid: string)
      ensures this.uuid == Some(uuid) && name == None && deviceType == None
      ensures updatedAt == None && room == null
    {
      this.uuid := Some(uuid);
      name := None;
      deviceType := None;
      updatedAt := None;
      room := null;
    }

    /** The device holds the fields that every write of `data` overwrites. */
    ghost predicate Follows(data: JsonObject)
      reads this
    {
      name == StringField(data, NameKey) && deviceType == StringField(data, TypeKey)
    }

    /** When `data` names a room the lookup finds, the device links that room. */
    ghost predicate LinkFollows(data: JsonObject, roomStore: Rooms.RoomStore)
      reads this, roomStore, roomStore.rooms
    {
      LinksRoom(data, roomStore) ==> room in roomStore.rooms && room.uuid == StringField(data, RoomIdKey)
    }
  }

  /** Whether the data names a room that the room lookup finds: only then is the device's
      room link rewritten. */
  ghost predicate LinksRoom(data: JsonObject, roomStore: Rooms.RoomStore)
    reads roomStore, roomStore.rooms
  {
    && StringField(data, RoomIdKey).Some?
    && !roomStore.fetchFails
    && roomStore.Matching(StringField(data, RoomIdKey).value) != {}
  }

  /** The devices of the managed object context. */
  class DeviceStore {
    var devices: set<Device>
    /** Every fetch by uuid from the store throws (the fetch before a sweep is the
        separate `sweepFails` of `UpdateDatabase`). */
    const fetchFails: bool
    /** Saving the context throws. */
    const saveFails: bool

    /** At most one stored device per uuid. */
    ghost predicate Valid()
      reads this, devices
    {
      forall d1, d2 :: d1 in devices && d2 in devices && d1.uuid.Some? && d1.uuid == d2.uuid ==> d1 == d2
    }

    constructor (fetchFails: bool, saveFails: bool)
      ensures Valid() && devices == {}
      ensures this.fetchFails == fetchFails && this.saveFails == saveFails
    {
      devices := {};
      this.fetchFails := fetchFails;
      this.saveFails := saveFails;
    }

    /** The fetch request with predicate `uuid = %@`. */
    function Matching(uuid: string): set<Device>
      reads this, devices
    {
      set d | d in devices && d.uuid == Some(uuid)
    }

    /** Reuses the device with the data's uuid or creates one stamped with it; then always
        overwrites name and type, overwrites the timestamp only when "updated_at" is a
        string, and points the room link at the room named by "roomID" only when the room
        lookup finds it. A failing room lookup is rethrown, after the device was written;
        `written` is the device written, also in that case. */
    method FindOrCreateDevice(data: JsonObject, roomStore: Rooms.RoomStore) returns (res: Result<Device?>, ghost written: Device?)
      requires Valid() && roomStore.Valid()
      modifies this, devices
      ensures Valid()
      ensures StringField(data, UuidKey).None? || fetchFails ==>
                written == null && devices == old(devices) && unchanged(devices)
      ensures StringField(data, UuidKey).None? ==> res == Success(null)
      ensures StringField(data, UuidKey).Some? && fetchFails ==> res == Failure(StoreError)
      ensures StringField(data, UuidKey).Some? && !fetchFails ==>
                var u := StringField(data, UuidKey).value;
                && written != null
                && Matching(u) == {written}
                && res == (if StringField(data, RoomIdKey).Some? && roomStore.fetchFails
                           then Failure(StoreError) else Success(written))
                && written.name == StringField(data, NameKey)
                && written.deviceType == StringField(data, TypeKey)
                && (LinksRoom(data, roomStore) ==>
                      written.room in roomStore.rooms && written.room.uuid == StringField(data, RoomIdKey))
                && (forall d :: d in old(devices) && d != written ==> unchanged(d))
                && (if old(Matching(u)) == {}
                    then && fresh(written) && devices == old(devices) + {written}
                         && written.updatedAt == StringField(data, UpdatedKey)
                         && (!LinksRoom(data, roomStore) ==> written.room == null)
                    else && old(Matching(u)) == {written} && devices == old(devices)
                         && written.updatedAt == Stamped(old(written.updatedAt), data)
                         && (!LinksRoom(data, roomStore) ==> written.room == old(written.room)))
    {
      written := null;
      var uuid := StringField(data, UuidKey);
      if uuid.None? {
        return Success(null), written;
      }
      if fetchFails {
        return Failure(StoreError), written;
      }
      var u := uuid.value;
      var matches := Matching(u);
      var device: Device;
      if matches != {} {
        device :| device in matches;
        assert matches == {device};
      } else {
        device := new Device(u);
        devices := devices + {device};
      }
      written := device;
      device.name := StringField(data, NameKey);
      device.deviceType := StringField(data, TypeKey);
      var date := StringField(data, UpdatedKey);
      if date.Some? {
        device.updatedAt := date;
      }
      assert Matching(u) == {device};
      var roomError := ResolveRoom(device, data, roomStore);
      if roomError.Some? {
        return Failure(roomError.value), written;
      }
      return Success(device), written;
    }

    /** The room-link step of `FindOrCreateDevice`: when "roomID" is a string, look the room
        up, link it when found, and pass a failing lookup on. */
    static method ResolveRoom(device: Device, data: JsonObject, roomStore: Rooms.RoomStore) returns (error: Option<Error>)
      requires roomStore.Valid()
      modifies device`room
      ensures error == if StringField(data, RoomIdKey).Some? && roomStore.fetchFails then Some(StoreError) else None
      ensures LinksRoom(data, roomStore) ==>
                device.room in roomStore.rooms && device.room.uuid == StringField(data, RoomIdKey)
      ensures !LinksRoom(data, roomStore) ==> device.room == old(device.room)
    {
      var roomId := StringField(data, RoomIdKey);
      if roomId.Some? {
        var found := roomStore.FindRoom(roomId.value);
        if found.Failure? {
          return Some(found.error);
        }
        if found.value != null {
          assert found.value in roomStore.Matching(roomId.value);
          device.room := found.value;
        } else {
          assert forall r :: r in roomStore.rooms && r.uuid == roomId ==> r in roomStore.Matching(roomId.value);
          assert roomStore.Matching(roomId.value) == {};
        }
      }
      return None;
    }

    /** Reconciles the store with a whole `/devices` listing. The uuid of an element is
        collected only when its find-or-create did not throw, so while room lookups fail
        an element naming a room is written and then deleted again by the sweep (unless
        another element with the same uuid and no "roomID" was collected). `sweepFails`:
        the fetch of all devices before the deletions throws, so nothing is deleted. */
    method UpdateDatabase(listing: seq<Json>, roomStore: Rooms.RoomStore, sweepFails: bool)
      requires Valid() && roomStore.Valid()
      modifies this, devices
      ensures Valid()
      ensures fetchFails ==> devices <= old(devices) && unchanged(old(devices))
      ensures var collected := if fetchFails then [] else CollectedUuids(listing, FailingKey(roomStore));
              && (forall d :: d in old(devices) ==> (d in devices <==> sweepFails || Survives(old(d.uuid), collected)))
              && (forall d :: d in devices && d !in old(devices) ==>
                    fresh(d) && d.uuid.Some? && LastListed(listing, d.uuid.value).Some?)
              && (!sweepFails ==> forall d :: d in devices ==> Survives(d.uuid, collected))
              && (forall u :: u in collected ==> exists d :: d in devices && d.uuid == Some(u))
              && (!fetchFails ==> forall d :: d in devices && d.uuid.Some? && LastListed(listing, d.uuid.value).Some? ==>
                    d.Follows(LastListed(listing, d.uuid.value).value) &&
                    d.LinkFollows(LastListed(listing, d.uuid.value).value, roomStore))
              && (forall d :: d in old(devices) && old(d.uuid).None? ==> unchanged(d))
      ensures forall d :: d in old(devices) ==> d.uuid == old(d.uuid)
      ensures forall d :: d in old(devices) && old(d.uuid).Some? && LastListed(listing, old(d.uuid).value).None? ==>
                unchanged(d)
    {
      var uuids := CollectListing(listing, roomStore);
      SweepUnlisted(uuids, sweepFails);
    }

    /** The collection loop of `UpdateDatabase`: find-or-create for every element, in
        order, returning the uuids collected. */
    method CollectListing(listing: seq<Json>, roomStore: Rooms.RoomStore) returns (uuids: seq<string>)
      requires Valid() && roomStore.Valid()
      modifies this, devices
      ensures Valid()
      ensures fetchFails ==> uuids == [] && devices == old(devices) && unchanged(old(devices))
      ensures !fetchFails ==> uuids == CollectedUuids(listing, FailingKey(roomStore))
      ensures old(devices) <= devices
      ensures forall d :: d in devices && d !in old(devices) ==>
                fresh(d) && d.uuid.Some? && LastListed(listing, d.uuid.value).Some?
      ensures forall d :: d in old(devices) ==> d.uuid == old(d.uuid)
      ensures forall d :: d in old(devices) && old(d.uuid).None? ==> unchanged(d)
      ensures forall d :: d in old(devices) && old(d.uuid).Some? && LastListed(listing, old(d.uuid).value).None? ==>
                unchanged(d)
      ensures forall u :: u in uuids ==> Matching(u) != {}
      ensures !fetchFails ==> FieldsFollow(listing, roomStore)
    {
      uuids := [];
      var i := 0;
      while i < |listing|
        invariant 0 <= i <= |listing|
        invariant Valid()
        invariant fetchFails ==> uuids == [] && devices == old(devices) && unchanged(old(devices))
        invariant !fetchFails ==> uuids == CollectedUuids(listing[..i], FailingKey(roomStore))
        invariant old(devices) <= devices
        invariant forall d :: d in devices && d !in old(devices) ==>
                    fresh(d) && d.uuid.Some? && LastListed(listing[..i], d.uuid.value).Some?
        invariant forall d :: d in old(devices) ==> d.uuid == old(d.uuid)
        invariant forall d :: d in old(devices) && old(d.uuid).None? ==> unchanged(d)
        invariant forall d :: d in old(devices) && old(d.uuid).Some? && LastListed(listing[..i], old(d.uuid).value).None? ==>
                    unchanged(d)
        invariant forall u :: u in uuids ==> Matching(u) != {}
        invariant !fetchFails ==> FieldsFollow(listing[..i], roomStore)
      {
        if !fetchFails {
          CollectedUuidsSnoc(listing, FailingKey(roomStore), i);
        }
        uuids := CollectElement(listing[i], listing[..i], uuids, roomStore);
        assert listing[..i] + [listing[i]] == listing[..i + 1];
        i := i + 1;
      }
      assert listing[..i] == listing;
    }

    /** The key whose presence makes find-or-create throw: "roomID" while room lookups fail. */
    function FailingKey(roomStore: Rooms.RoomStore): (k: Option<string>)
      ensures k.Some? <==> roomStore.fetchFails
      ensures k.Some? ==> k.value == RoomIdKey
    {
      if roomStore.fetchFails then Some(RoomIdKey) else None
    }

    /** Every stored device whose uuid some element of `listed` carries holds the fields
        and the room link of the last such element. */
    ghost predicate FieldsFollow(listed: seq<Json>, roomStore: Rooms.RoomStore)
      reads this, devices, roomStore, roomStore.rooms
    {
      forall d :: d in devices && d.uuid.Some? && LastListed(listed, d.uuid.value).Some? ==>
        d.Follows(LastListed(listed, d.uuid.value).value) &&
        d.LinkFollows(LastListed(listed, d.uuid.value).value, roomStore)
    }

    /** One pass of the collection loop of `UpdateDatabase`. */
    method CollectElement(element: Json, ghost listed: seq<Json>, uuids: seq<string>, roomStore: Rooms.RoomStore)
      returns (uuids': seq<string>)
      requires Valid() && roomStore.Valid()
      requires !fetchFails ==> FieldsFollow(listed, roomStore)
      requires forall u :: u in uuids ==> Matching(u) != {}
      requires fetchFails ==> uuids == []
      modifies this, devices
      ensures Valid()
      ensures !fetchFails ==> FieldsFollow(listed + [element], roomStore)
      ensures forall u :: u in uuids' ==> Matching(u) != {}
      ensures fetchFails ==> uuids' == uuids && devices == old(devices) && unchanged(devices)
      ensures !fetchFails ==>
                uuids' == uuids + (if ElementUuid(element).Some? && !Throws(element, FailingKey(roomStore))
                                   then [ElementUuid(element).value] else [])
      ensures old(devices) <= devices
      ensures forall d :: d in devices && d !in old(devices) ==> fresh(d) && d.uuid.Some? && d.uuid == ElementUuid(element)
      ensures forall d :: d in old(devices) ==> d.uuid == old(d.uuid)
      ensures forall d :: d in old(devices) && old(d.uuid) != ElementUuid(element) ==> unchanged(d)
      ensures forall d :: d in old(devices) && old(d.uuid).Some? && LastListed(listed + [element], old(d.uuid).value).None? ==>
                unchanged(d) && LastListed(listed, old(d.uuid).value).None?
      ensures forall d :: d in old(devices) && old(d.uuid).None? ==> unchanged(d)
    {
      LastListedAppend(listed, element);
      uuids' := uuids;
      if element.JObject? {
        ghost var written;
        var res;
        res, written := FindOrCreateDevice(element.fields, roomStore);
        if res.Success? && res.value != null && res.value.uuid.Some? {
          uuids' := uuids + [res.value.uuid.value];
        }
      }
    }

    /** Deletes every device whose uuid is not collected; devices without a uuid stay. When
        the fetch of all devices throws (`sweepFails`), nothing is deleted. */
    method SweepUnlisted(uuids: seq<string>, sweepFails: bool)
      modifies this
      ensures sweepFails ==> devices == old(devices)
      ensures !sweepFails ==> devices == set d | d in old(devices) && Survives(d.uuid, uuids)
    {
      if sweepFails {
        return;
      }
      var matches := devices;
      ghost var before := devices;
      while matches != {}
        invariant matches <= before
        invariant devices == set d | d in before && (d in matches || Survives(d.uuid, uuids))
        decreases matches
      {
        var device :| device in matches;
        if device.uuid.Some? && device.uuid.value !in uuids {
          devices := devices - {device};
        }
        matches := matches - {device};
      }
    }

    /** Deletes the device locally once the remote delete reported no error. Without a uuid
        nothing happens and the completion handler is never called. */
    method Delete(device: Device, remoteError: Option<Error>) returns (completion: Completion)
      requires Valid()
      modifies this
      ensures Valid()
      ensures device.uuid.None? || remoteError.Some? ==> devices == old(devices)
      ensures device.uuid.None? ==> completion == NotCalled
      ensures device.uuid.Some? && remoteError.Some? ==> completion == Called(remoteError)
      ensures device.uuid.Some? && remoteError.None? ==>
                devices == old(devices) - {device} &&
                completion == Called(if saveFails then Some(StoreError) else None)
    {
      if device.uuid.None? {
        return NotCalled;
      }
      if remoteError.Some? {
        return Called(remoteError);
      }
      devices := devices - {device};
      if saveFails {
        return Called(Some(StoreError));
      }
      return Called(None);
    }
  }
}
