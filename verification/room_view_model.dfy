/** The room list of the chat client (ViewModel/RoomViewModel.cs): a cache of room
    objects ordered newest first, kept in step with the backend by load, create,
    update, delete and profile-picture commands. HTTP outcomes, prompt answers, the
    secure-storage user id, the picked file and `File.Exists` are parameters; each
    command runs to completion before the next one starts. */
module Rooms {
  import opened Common
  import opened Ordering

  /** A room as the backend sends and receives it (JSON). A null id is written "". */
  datatype RoomRecord = RoomRecord(
    id: string,
    name: string,
    description: string,
    profileImageRoom: Option<string>,
    createdAt: int)

  /** The sort key of the room list. */
  function CreatedAt(r: RoomRecord): int
  {
    r.createdAt
  }

  /** A room object. The view-models share these objects and change their fields in place. */
  class Room {
    var id: string
    var name: string
    var description: string
    var profileImageRoom: Option<string>
    var createdAt: int

    /** Deserialisation of one record into a new object. */
    constructor (rec: RoomRecord)
      ensures Value() == rec
    {
      id, name, description := rec.id, rec.name, rec.description;
      profileImageRoom, createdAt := rec.profileImageRoom, rec.createdAt;
    }

    function Value(): RoomRecord
      reads this
    {
      RoomRecord(id, name, description, profileImageRoom, createdAt)
    }
  }

  /** The records the objects of a list currently hold, position by position. */
  function RoomValues(rs: seq<Room>): (vs: seq<RoomRecord>)
    reads rs
    ensures |vs| == |rs|
    ensures forall k :: 0 <= k < |rs| ==> vs[k] == rs[k].Value()
  {
    if rs == [] then [] else [rs[0].Value()] + RoomValues(rs[1..])
  }

  /** The check made on every loaded room: an image path that is set but names no
      existing file is dropped to null; nothing else about the room changes. */
  function WithoutMissingImage(rec: RoomRecord, fileExists: string -> bool): (r: RoomRecord)
    ensures r.(profileImageRoom := rec.profileImageRoom) == rec
    ensures r.profileImageRoom.None?
        <==> rec.profileImageRoom.None? || (NonEmpty(rec.profileImageRoom) && !fileExists(rec.profileImageRoom.value))
    ensures r.profileImageRoom.Some? ==> r.profileImageRoom == rec.profileImageRoom
  {
    if NonEmpty(rec.profileImageRoom) && !fileExists(rec.profileImageRoom.value)
    then rec.(profileImageRoom := None)
    else rec
  }

  function CheckImages(rs: seq<RoomRecord>, fileExists: string -> bool): (r: seq<RoomRecord>)
    ensures |r| == |rs|
    ensures forall k :: 0 <= k < |rs| ==> r[k] == WithoutMissingImage(rs[k], fileExists)
  {
    if rs == [] then [] else [WithoutMissingImage(rs[0], fileExists)] + CheckImages(rs[1..], fileExists)
  }

  /** What a successful load puts in the cache: the fetched rooms, newest first,
      with missing images dropped. */
  function LoadedRooms(fetched: seq<RoomRecord>, fileExists: string -> bool): seq<RoomRecord>
  {
    CheckImages(SortDesc(fetched, CreatedAt), fileExists)
  }

  lemma {:induction false} CheckImagesWithKey(rs: seq<RoomRecord>, fileExists: string -> bool, k: int)
    ensures WithKey(CheckImages(rs, fileExists), CreatedAt, k) == CheckImages(WithKey(rs, CreatedAt, k), fileExists)
  {
    if rs != [] {
      CheckImagesWithKey(rs[1..], fileExists, k);
      assert CheckImages(rs, fileExists)[1..] == CheckImages(rs[1..], fileExists);
      if CreatedAt(rs[0]) == k {
        assert [rs[0]] + WithKey(rs[1..], CreatedAt, k) == WithKey(rs, CreatedAt, k);
        assert ([rs[0]] + WithKey(rs[1..], CreatedAt, k))[1..] == WithKey(rs[1..], CreatedAt, k);
      }
    }
  }

  /** A loaded list holds as many rooms as were fetched and is ordered by creation
      time, newest first. */
  lemma LoadedRoomsAreNewestFirst(fetched: seq<RoomRecord>, fileExists: string -> bool)
    ensures |LoadedRooms(fetched, fileExists)| == |fetched|
    ensures Descending(LoadedRooms(fetched, fileExists), CreatedAt)
  {
    var sorted := SortDesc(fetched, CreatedAt);
    SortDescPermutes(fetched, CreatedAt);
    SortDescIsDescending(fetched, CreatedAt);
    var r := LoadedRooms(fetched, fileExists);
    forall i, j | 0 <= i < j < |r| ensures CreatedAt(r[i]) >= CreatedAt(r[j]) {
      assert r[i].createdAt == sorted[i].createdAt && r[j].createdAt == sorted[j].createdAt;
    }
  }

  /** The rooms created at any one instant are exactly the fetched rooms created
      then, in the order the backend sent them (each with its image checked): the
      load is a stable reordering of the fetched list and drops or adds no room. */
  lemma LoadedRoomsKeepFetchOrderOnTies(fetched: seq<RoomRecord>, fileExists: string -> bool, k: int)
    ensures WithKey(LoadedRooms(fetched, fileExists), CreatedAt, k)
         == CheckImages(WithKey(fetched, CreatedAt, k), fileExists)
  {
    CheckImagesWithKey(SortDesc(fetched, CreatedAt), fileExists, k);
    SortDescIsStable(fetched, CreatedAt, k);
  }

  /** The user id `LoadRooms` works with: the field, or the stored one when the field
      is null or empty. */
  function ResolveUserId(current: Option<string>, stored: Option<string>): Option<string>
  {
    if NonEmpty(current) then current else stored
  }

  /** The fetched list a load installs, if any: only with a usable user id, a success
      status and a non-null, non-empty list. */
  function Fetched(userId: Option<string>, reply: Reply<Option<seq<RoomRecord>>>): (f: Option<seq<RoomRecord>>)
    ensures f.Some? <==> NonEmpty(userId) && reply.Success? && reply.body.Some? && |reply.body.value| > 0
    ensures f.Some? ==> f.value == reply.body.value
  {
    if NonEmpty(userId) && reply.Success? && reply.body.Some? && |reply.body.value| > 0
    then reply.body else None
  }

  /** The body of the POST that creates a room: the two answers and the creation
      time, no id and no image yet. */
  function NewRoom(name: string, description: string, now: int): RoomRecord
  {
    RoomRecord("", name, description, None, now)
  }

  /** The room the backend returns from a create, when one was posted and came back. */
  function CreatedRoom(posted: Option<RoomRecord>, reply: Reply<Option<RoomRecord>>): (c: Option<RoomRecord>)
    ensures c.Some? <==> posted.Some? && reply.Success? && reply.body.Some?
    ensures c.Some? ==> c == reply.body
  {
    if posted.Some? && reply.Success? then reply.body else None
  }

  /** The lookup predicate of `FirstOrDefault(r => r.Name == name)` over fetched rooms. */
  function HasName(name: string): RoomRecord -> bool
  {
    (r: RoomRecord) => r.name == name
  }

  /** `FirstOrDefault(r => r.Id == id)` over the cached room objects, as a position
      (|rs| when there is none). */
  function FirstById(rs: seq<Room>, id: string): (i: nat)
    reads rs
    ensures i <= |rs|
    ensures i < |rs| ==> rs[i].id == id
    ensures forall k :: 0 <= k < i ==> rs[k].id != id
  {
    if rs == [] then 0
    else if rs[0].id == id then 0
    else 1 + FirstById(rs[1..], id)
  }

  /** The PATCH that adds a new room to the user's membership list. */
  datatype MembershipPatch = MembershipPatch(userId: string, roomId: string)

  class RoomViewModel {
    var rooms: seq<Room>
    var userId: Option<string>
    var isRefreshing: bool

    /** What the cache currently shows. */
    function Snapshot(): seq<RoomRecord>
      reads this, rooms
    {
      RoomValues(rooms)
    }

    /** The state `LoadRooms` leaves, starting from the user id `previousUserId`: the
        resolved id is kept, the refresh indicator is off whatever happened, and the
        cache is either replaced by new objects for the fetched rooms or left as it was. */
    twostate predicate RoomsReloaded(previousUserId: Option<string>, storedUserId: Option<string>,
                                     reply: Reply<Option<seq<RoomRecord>>>, fileExists: string -> bool)
      reads this, rooms
    {
      && userId == ResolveUserId(previousUserId, storedUserId)
      && !isRefreshing
      && (Fetched(userId, reply).Some? ==>
            && Snapshot() == LoadedRooms(Fetched(userId, reply).value, fileExists)
            && forall k :: 0 <= k < |rooms| ==> fresh(rooms[k]))
      && (Fetched(userId, reply).None? ==> rooms == old(rooms))
    }

    /** The constructor's own state; the load it starts is a separate `LoadRooms`. */
    constructor (userId: Option<string>)
      ensures rooms == [] && this.userId == userId && !isRefreshing
    {
      rooms := [];
      this.userId := userId;
      isRefreshing := false;
    }

    /** `LoadRooms`: resolve the user id (falling back to secure storage), GET the
        user's rooms and, on a non-empty list, clear the cache and add the rooms newest
        first, dropping image paths whose file is gone. */
    method LoadRooms(storedUserId: Option<string>, reply: Reply<Option<seq<RoomRecord>>>,
                     fileExists: string -> bool)
      modifies this
      ensures RoomsReloaded(old(userId), storedUserId, reply, fileExists)
    {
      if !NonEmpty(userId) {
        userId := storedUserId;
        if !NonEmpty(userId) {
          isRefreshing := false;
          return;
        }
      }
      if reply.Success? && reply.body.Some? && |reply.body.value| > 0 {
        var ordered := SortDesc(reply.body.value, CreatedAt);
        rooms := [];
        var i := 0;
        while i < |ordered|
          invariant 0 <= i <= |ordered|
          invariant userId == ResolveUserId(old(userId), storedUserId)
          invariant |rooms| == i
          invariant forall k :: 0 <= k < i ==> fresh(rooms[k])
          invariant forall k :: 0 <= k < i ==> rooms[k].Value() == WithoutMissingImage(ordered[k], fileExists)
        {
          var room := new Room(ordered[i]);
          if NonEmpty(room.profileImageRoom) && !fileExists(room.profileImageRoom.value) {
            room.profileImageRoom := None;
          }
          rooms := rooms + [room];
          i := i + 1;
        }
        assert Snapshot() == LoadedRooms(reply.body.value, fileExists);
      }
      isRefreshing := false;
    }

    /** `SetUserIdAndLoadRooms`: replace the user id, then load. */
    method SetUserIdAndLoadRooms(newUserId: Option<string>, storedUserId: Option<string>,
                                 reply: Reply<Option<seq<RoomRecord>>>, fileExists: string -> bool)
      modifies this
      ensures RoomsReloaded(newUserId, storedUserId, reply, fileExists)
    {
      userId := newUserId;
      LoadRooms(storedUserId, reply, fileExists);
    }

    /** `OnRefresh`: switch the refresh indicator on, then load (which switches it off). */
    method OnRefresh(storedUserId: Option<string>, reply: Reply<Option<seq<RoomRecord>>>,
                     fileExists: string -> bool)
      modifies this
      ensures RoomsReloaded(old(userId), storedUserId, reply, fileExists)
    {
      isRefreshing := true;
      LoadRooms(storedUserId, reply, fileExists);
    }

    /** `OnCreateRoomAsync`: with both prompt answers and a stored user id, POST a new
        room; when the backend returns the saved room, PATCH the user's membership list
        (its outcome is only logged) and insert the room at the head of the cache. */
    method OnCreateRoomAsync(roomName: Option<string>, roomDescription: Option<string>, now: int,
                             storedUserId: Option<string>, reply: Reply<Option<RoomRecord>>)
      returns (posted: Option<RoomRecord>, patch: Option<MembershipPatch>)
      modifies this
      ensures posted == if NonEmpty(roomName) && NonEmpty(roomDescription) && NonEmpty(storedUserId)
                        then Some(NewRoom(roomName.value, roomDescription.value, now)) else None
      ensures CreatedRoom(posted, reply).Some? ==>
                && patch == Some(MembershipPatch(storedUserId.value, CreatedRoom(posted, reply).value.id))
                && |rooms| == |old(rooms)| + 1
                && fresh(rooms[0])
                && rooms[0].Value() == CreatedRoom(posted, reply).value
                && rooms[1..] == old(rooms)
      ensures CreatedRoom(posted, reply).None? ==> patch == None && rooms == old(rooms)
      ensures userId == old(userId) && isRefreshing == old(isRefreshing)
    {
      posted, patch := None, None;
      if NonEmpty(roomName) && NonEmpty(roomDescription) {
        var newRoom := NewRoom(roomName.value, roomDescription.value, now);
        if !NonEmpty(storedUserId) {
          return;
        }
        posted := Some(newRoom);
        if reply.Success? && reply.body.Some? {
          var created := new Room(reply.body.value);
          patch := Some(MembershipPatch(storedUserId.value, created.id));
          rooms := [created] + rooms;
        }
      }
    }

    /** `OnUpdateRoom`: with both prompt answers, write the new name and description
        into the room object first (kept whatever follows), then with a stored user id
        PUT the room, and on success reload the list. */
    method OnUpdateRoom(room: Room?, updatedName: Option<string>, updatedDescription: Option<string>,
                        storedUserId: Option<string>, putReply: Reply<()>,
                        reloadReply: Reply<Option<seq<RoomRecord>>>, fileExists: string -> bool)
      returns (put: Option<RoomRecord>)
      modifies this, room
      ensures room != null && NonEmpty(updatedName) && NonEmpty(updatedDescription) ==>
                room.Value() == old(room.Value()).(name := updatedName.value, description := updatedDescription.value)
      ensures room != null && !(NonEmpty(updatedName) && NonEmpty(updatedDescription)) ==>
                room.Value() == old(room.Value())
      ensures put == if room != null && NonEmpty(updatedName) && NonEmpty(updatedDescription) && NonEmpty(storedUserId)
                     then Some(room.Value()) else None
      ensures put.Some? && putReply.Success? ==> RoomsReloaded(old(userId), storedUserId, reloadReply, fileExists)
      ensures !(put.Some? && putReply.Success?) ==>
                rooms == old(rooms) && userId == old(userId) && isRefreshing == old(isRefreshing)
    {
      put := None;
      if room == null {
        return;
      }
      if NonEmpty(updatedName) && NonEmpty(updatedDescription) {
        room.name := updatedName.value;
        room.description := updatedDescription.value;
        if !NonEmpty(storedUserId) {
          return;
        }
        put := Some(room.Value());
        if putReply.Success? {
          LoadRooms(storedUserId, reloadReply, fileExists);
        }
      }
    }

    /** `OnDeleteRoom`: after confirmation and with a stored user id, DELETE the room and
        on success remove it from the cache; in every other case the cache is unchanged. */
    method OnDeleteRoom(room: Room?, confirmed: bool, storedUserId: Option<string>, reply: Reply<()>)
      returns (deleted: bool)
      modifies this
      ensures deleted == (room != null && confirmed && NonEmpty(storedUserId) && reply.Success?)
      ensures rooms == if deleted then RemoveFirst(old(rooms), room) else old(rooms)
      ensures userId == old(userId) && isRefreshing == old(isRefreshing)
    {
      deleted := false;
      if room == null || !confirmed || !NonEmpty(storedUserId) {
        return;
      }
      if reply.Success? {
        rooms := RemoveFirst(rooms, room);
        deleted := true;
      }
    }

    /** The cache part of `ChangeProfilePictureCommand`: point the room at the copied
        image, put the room back at its own position in the list (a view refresh), and
        with a stored user id PUT it; on success copy its image, name and description
        into the first cached room with the same id. `pickedPath` is the path of the
        copied file, or None when the picker was cancelled. */
    method ChangeProfilePicture(room: Room?, pickedPath: Option<string>, storedUserId: Option<string>,
                                putReply: Reply<()>)
      returns (put: Option<RoomRecord>)
      modifies this, room, rooms
      ensures rooms == old(rooms) && userId == old(userId) && isRefreshing == old(isRefreshing)
      ensures room != null && pickedPath.Some? ==>
                room.Value() == old(room.Value()).(profileImageRoom := pickedPath)
      ensures put == if room != null && pickedPath.Some? && NonEmpty(storedUserId)
                     then Some(room.Value()) else None
      ensures put.Some? && putReply.Success? && FirstById(rooms, room.id) < |rooms| ==>
                var target := rooms[FirstById(rooms, room.id)];
                target.Value() == old(target.Value()).(profileImageRoom := room.profileImageRoom,
                                                       name := room.name, description := room.description)
      ensures forall r :: r in rooms && r != room
                && !(put.Some? && putReply.Success? && FirstById(rooms, room.id) < |rooms| && r == rooms[FirstById(rooms, room.id)])
                ==> r.Value() == old(r.Value())
      ensures room != null && pickedPath.None? ==> room.Value() == old(room.Value())
    {
      put := None;
      if room == null || pickedPath.None? {
        return;
      }
      room.profileImageRoom := pickedPath;
      var index := IndexOf(rooms, room);
      if index < |rooms| {
        rooms := rooms[index := room];
      }
      if !NonEmpty(storedUserId) {
        return;
      }
      put := Some(room.Value());
      if putReply.Success? {
        var j := FirstById(rooms, room.id);
        if j < |rooms| {
          var updated := rooms[j];
          updated.profileImageRoom := room.profileImageRoom;
          updated.name := room.name;
          updated.description := room.description;
        }
      }
    }
  }
}
