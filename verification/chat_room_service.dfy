/** The per-room message registry (Model/ChatRoomService.cs): a dictionary from room
    name to that room's message collection, filled on demand. */
module ChatRooms {
  import opened Messages

  /** An `ObservableCollection<Message>`: a list object that callers share by reference. */
  class MessageCollection {
    var items: seq<Message>

    constructor ()
      ensures items == []
    {
      items := [];
    }
  }

  class ChatRoomService {
    var messagesPerRoom: map<string, MessageCollection>

    constructor ()
      ensures messagesPerRoom == map[]
    {
      messagesPerRoom := map[];
    }

    /** `GetMessages`: the collection registered for the room; on a miss, a new empty
        collection is registered first. Other rooms' entries never change. */
    method GetMessages(roomName: string) returns (collection: MessageCollection)
      modifies this
      ensures roomName in messagesPerRoom && messagesPerRoom[roomName] == collection
      ensures roomName in old(messagesPerRoom) ==>
                collection == old(messagesPerRoom)[roomName] && messagesPerRoom == old(messagesPerRoom)
      ensures roomName !in old(messagesPerRoom) ==>
                fresh(collection) && collection.items == []
                && messagesPerRoom == old(messagesPerRoom)[roomName := collection]
      ensures forall other :: other != roomName && other in old(messagesPerRoom) ==>
                other in messagesPerRoom && messagesPerRoom[other] == old(messagesPerRoom)[other]
      ensures messagesPerRoom.Keys == old(messagesPerRoom).Keys + {roomName}
    {
      if roomName !in messagesPerRoom {
        var created := new MessageCollection();
        messagesPerRoom := messagesPerRoom[roomName := created];
      }
      collection := messagesPerRoom[roomName];
    }

    /** Asking twice for the same room hands out the same collection and registers
        nothing the second time. */
    method GetMessagesTwice(roomName: string) returns (first: MessageCollection, second: MessageCollection)
      modifies this
      ensures first == second
      ensures messagesPerRoom.Keys == old(messagesPerRoom).Keys + {roomName}
    {
      first := GetMessages(roomName);
      ghost var between := messagesPerRoom;
      second := GetMessages(roomName);
      assert messagesPerRoom == between;
    }
  }
}
