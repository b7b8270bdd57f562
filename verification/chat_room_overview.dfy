/** The overview list (ViewModel/ChatRoomOverviewViewModel.cs and the `ChatRoom` type of
    Model/ChatRoom.cs): three sample rooms, shown most recently active first. Times are
    whole minutes; `now` stands for `DateTime.Now`. */
module Overview {
  import opened Ordering

  datatype ChatRoom = ChatRoom(name: string, description: string, latestMessageTime: int)

  /** The sort key of the overview list. */
  function LatestMessageTime(r: ChatRoom): int
  {
    r.latestMessageTime
  }

  /** `GetChatRooms`: the sample rooms, last active five, one and two minutes ago. */
  function GetChatRooms(now: int): (rooms: seq<ChatRoom>)
    ensures |rooms| == 3
  {
    [ ChatRoom("Room 1", "Description of Room 1", now - 5),
      ChatRoom("Room 2", "Description of Room 2", now - 1),
      ChatRoom("Room 3", "Description of Room 3", now - 2) ]
  }

  /** What `LoadChatRooms` shows: the sample rooms ordered by latest activity, newest first. */
  function OverviewOrder(now: int): seq<ChatRoom>
  {
    SortDesc(GetChatRooms(now), LatestMessageTime)
  }

  /** The overview shows exactly the sample rooms, each once, newest activity first. */
  lemma OverviewIsOrderedPermutation(now: int)
    ensures multiset(OverviewOrder(now)) == multiset(GetChatRooms(now))
    ensures Descending(OverviewOrder(now), LatestMessageTime)
  {
    SortDescPermutes(GetChatRooms(now), LatestMessageTime);
    SortDescIsDescending(GetChatRooms(now), LatestMessageTime);
  }

  /** With the sample offsets the order is Room 2, Room 3, Room 1, whatever the time. */
  lemma {:induction false} SampleOrder(now: int)
    ensures |OverviewOrder(now)| == 3
    ensures OverviewOrder(now)[0].name == "Room 2"
    ensures OverviewOrder(now)[1].name == "Room 3"
    ensures OverviewOrder(now)[2].name == "Room 1"
  {
    var r1 := ChatRoom("Room 1", "Description of Room 1", now - 5);
    var r2 := ChatRoom("Room 2", "Description of Room 2", now - 1);
    var r3 := ChatRoom("Room 3", "Description of Room 3", now - 2);
    var s := GetChatRooms(now);
    assert s[1..] == [r2, r3] && s[2..] == [r3] && s[3..] == [];
    assert SortDesc([r3], LatestMessageTime) == [r3];
    assert SortDesc([r2, r3], LatestMessageTime) == Insert(r2, [r3], LatestMessageTime) == [r2, r3];
    assert Insert(r1, [r3], LatestMessageTime) == [r3] + Insert(r1, [], LatestMessageTime);
    assert OverviewOrder(now) == Insert(r1, [r2, r3], LatestMessageTime) == [r2, r3, r1];
  }

  class ChatRoomOverviewViewModel {
    var chatRooms: seq<ChatRoom>

    /** The constructor loads the list. */
    constructor (now: int)
      ensures chatRooms == OverviewOrder(now)
    {
      chatRooms := [];
      new;
      LoadChatRooms(now);
    }

    /** `LoadChatRooms`: sort the sample rooms, clear the list and add them one by one;
        whatever the list held before is gone. */
    method LoadChatRooms(now: int)
      modifies this
      ensures chatRooms == OverviewOrder(now)
    {
      var rooms := SortDesc(GetChatRooms(now), LatestMessageTime);
      chatRooms := [];
      for i := 0 to |rooms|
        invariant chatRooms == rooms[..i]
      {
        chatRooms := chatRooms + [rooms[i]];
      }
    }

    /** `OnRefresh`: exactly a load. */
    method OnRefresh(now: int)
      modifies this
      ensures chatRooms == OverviewOrder(now)
    {
      LoadChatRooms(now);
    }
  }
}
