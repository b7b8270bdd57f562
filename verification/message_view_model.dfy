/** The message list of one room (ViewModel/MessageViewModel.cs and its near twin
    MessagePage.xaml.cs, whose load, update, delete and forward are the same code): a
    cache of message objects in arrival order, the cross-room forward that raises the
    destination's new-message flag, and the page's on-appearing flag check. HTTP
    outcomes, prompt and confirm answers, secure-storage values and the formatted
    current time are parameters; each command runs to completion before the next. */
module Messages {
  import opened Common
  import opened Rooms
  import opened Notifications

  /** A message as the backend sends and receives it (JSON). A null id is written "". */
  datatype MessageRecord = MessageRecord(
    id: string,
    senderName: string,
    userProfilePicture: Option<string>,
    text: string,
    timestamp: string,
    roomId: string,
    roomName: string,
    fromRoomName: Option<string>)

  /** A message object; the view-model changes its fields in place. */
  class Message {
    var id: string
    var senderName: string
    var userProfilePicture: Option<string>
    var text: string
    var timestamp: string
    var roomId: string
    var roomName: string
    var fromRoomName: Option<string>

    /** Deserialisation of one record into a new object. */
    constructor (rec: MessageRecord)
      ensures Value() == rec
    {
      id, senderName, userProfilePicture, text := rec.id, rec.senderName, rec.userProfilePicture, rec.text;
      timestamp, roomId, roomName, fromRoomName := rec.timestamp, rec.roomId, rec.roomName, rec.fromRoomName;
    }

    function Value(): MessageRecord
      reads this
    {
      MessageRecord(id, senderName, userProfilePicture, text, timestamp, roomId, roomName, fromRoomName)
    }
  }

  /** The records the objects of a list currently hold, position by position. */
  function MessageValues(ms: seq<Message>): (vs: seq<MessageRecord>)
    reads ms
    ensures |vs| == |ms|
    ensures forall k :: 0 <= k < |ms| ==> vs[k] == ms[k].Value()
  {
    if ms == [] then [] else [ms[0].Value()] + MessageValues(ms[1..])
  }

  /** The fetched messages as the cache holds them after a load: every one carries the
      open room's name, and nothing else about any of them changes. */
  function StampRoomName(fetched: seq<MessageRecord>, roomName: string): (r: seq<MessageRecord>)
    ensures |r| == |fetched|
    ensures forall k :: 0 <= k < |r| ==> r[k].roomName == roomName
    ensures forall k :: 0 <= k < |r| ==> r[k].(roomName := fetched[k].roomName) == fetched[k]
  {
    if fetched == [] then []
    else [fetched[0].(roomName := roomName)] + StampRoomName(fetched[1..], roomName)
  }

  /** The room avatar shown when the room has no image of its own. */
  const DefaultRoomAvatar := "default_room_avatar.png"

  /** The sender picture of a new message when none is stored. */
  const DefaultAvatar := "default_avatar.png"

  /** The destination of a forward: the first fetched room named by the selection,
      once the room list came back non-empty and a room other than "Cancel" was picked. */
  function ForwardTarget(roomsReply: Reply<Option<seq<RoomRecord>>>, selection: Option<string>): (target: Option<RoomRecord>)
    ensures target.Some? ==> roomsReply.Success? && roomsReply.body.Some? && |roomsReply.body.value| > 0
    ensures target.Some? ==> NonEmpty(selection) && selection.value != "Cancel"
    ensures target.Some? ==> target.value.name == selection.value && target.value in roomsReply.body.value
    ensures target.Some? ==> target.value == roomsReply.body.value[FirstWhere(roomsReply.body.value, HasName(selection.value))]
    ensures (target.None? && roomsReply.Success? && roomsReply.body.Some? && NonEmpty(selection) && selection.value != "Cancel")
              ==> forall r :: r in roomsReply.body.value ==> r.name != selection.value
  {
    if !roomsReply.Success? || roomsReply.body.None? || |roomsReply.body.value| == 0 then None
    else if !NonEmpty(selection) || selection.value == "Cancel" then None
    else
      var i := FirstWhere(roomsReply.body.value, HasName(selection.value));
      if i < |roomsReply.body.value| then Some(roomsReply.body.value[i]) else None
  }

  /** The new message a forward posts: a new entity (no id) in the destination room,
      carrying the original's sender and text and the name of the room it came from. */
  function Forwarded(original: MessageRecord, destination: RoomRecord, fromRoomName: string, now: string): (m: MessageRecord)
    ensures m.senderName == original.senderName && m.text == original.text
    ensures m.roomId == destination.id && m.roomName == destination.name
    ensures m.fromRoomName == Some(fromRoomName)
    ensures m.id == "" && m.userProfilePicture == None && m.timestamp == now
  {
    MessageRecord("", original.senderName, None, original.text, now, destination.id, destination.name, Some(fromRoomName))
  }

  /** The page's toast after a positive flag check: the open room and the origin of the
      last cached message ("You got a new message in your: {room} from {origin}"). */
  datatype Notice = Notice(roomName: string, fromRoomName: Option<string>)

  /** What a positive check shows: a notice naming the last cached message's origin, or
      nothing when the cache is empty. A negative check shows nothing. */
  function NoticeFor(hasNewMessage: bool, cached: seq<MessageRecord>, roomName: string): (n: Option<Notice>)
    ensures n.Some? <==> hasNewMessage && |cached| > 0
    ensures n.Some? ==> n.value == Notice(roomName, cached[|cached| - 1].fromRoomName)
  {
    if hasNewMessage && |cached| > 0 then Some(Notice(roomName, cached[|cached| - 1].fromRoomName)) else None
  }

  class MessageViewModel {
    /** The open room, shared with the room list (its name is read afresh on every load). */
    const chatRoom: Room
    var roomId: string
    var roomName: string
    var roomProfil: string
    /** The text being composed: `MessageText` in the view-model, `MessageInput.Text` on the page. */
    var messageText: string
    var messages: seq<Message>

    function Snapshot(): seq<MessageRecord>
      reads this, messages
    {
      MessageValues(messages)
    }

    /** The constructor for a room that is not null. The load it starts is a separate
        `LoadMessages`. */
    constructor (selectedRoom: Room)
      ensures chatRoom == selectedRoom
      ensures roomId == selectedRoom.id && roomName == selectedRoom.name
      ensures roomProfil == OrDefault(selectedRoom.profileImageRoom, DefaultRoomAvatar)
      ensures messageText == "" && messages == []
    {
      chatRoom := selectedRoom;
      roomId := selectedRoom.id;
      roomName := selectedRoom.name;
      roomProfil := OrDefault(selectedRoom.profileImageRoom, DefaultRoomAvatar);
      messageText := "";
      messages := [];
    }

    /** `LoadMessages`: GET the room's messages and, when the body is a list (even an
        empty one), replace the cache by new objects for them, each stamped with the
        open room's current name; on a non-success status or an exception the cache
        is unchanged. */
    method LoadMessages(reply: Reply<Option<seq<MessageRecord>>>)
      modifies this
      ensures reply.Success? && reply.body.Some? ==>
                && Snapshot() == StampRoomName(reply.body.value, chatRoom.name)
                && forall k :: 0 <= k < |messages| ==> fresh(messages[k])
      ensures !(reply.Success? && reply.body.Some?) ==> messages == old(messages)
      ensures roomId == old(roomId) && roomName == old(roomName) && roomProfil == old(roomProfil)
      ensures messageText == old(messageText)
    {
      if reply.Success? && reply.body.Some? {
        var fetched := reply.body.value;
        var stamped := StampRoomName(fetched, chatRoom.name);
        messages := [];
        var i := 0;
        while i < |fetched|
          invariant 0 <= i <= |fetched|
          invariant |messages| == i
          invariant roomId == old(roomId) && roomName == old(roomName) && roomProfil == old(roomProfil)
          invariant messageText == old(messageText)
          invariant forall k :: 0 <= k < i ==> fresh(messages[k])
          invariant forall k :: 0 <= k < i ==> messages[k].Value() == stamped[k]
        {
          var message := new Message(fetched[i]);
          message.roomName := chatRoom.name;
          messages := messages + [message];
          i := i + 1;
        }
        assert Snapshot() == stamped;
      }
    }

    /** The view-model's `OnCreateMessage`: with non-empty text and a stored user name,
        POST a message from that user (stored picture or the default avatar) in this
        room and, on success, append it to the cache. */
    method OnCreateMessage(storedUserName: Option<string>, storedPicture: Option<string>, now: string,
                           reply: Reply<()>)
      returns (posted: Option<MessageRecord>)
      modifies this
      ensures posted == if messageText != "" && NonEmpty(storedUserName)
                        then Some(MessageRecord("", storedUserName.value, Some(OrDefault(storedPicture, DefaultAvatar)),
                                                messageText, now, chatRoom.id, chatRoom.name, None))
                        else None
      ensures posted.Some? && reply.Success? ==>
                && |messages| == |old(messages)| + 1
                && messages[..|old(messages)|] == old(messages)
                && fresh(messages[|old(messages)|])
                && messages[|old(messages)|].Value() == posted.value
      ensures !(posted.Some? && reply.Success?) ==> messages == old(messages)
      ensures messageText == old(messageText) && roomId == old(roomId) && roomName == old(roomName)
      ensures roomProfil == old(roomProfil)
    {
      posted := None;
      var text := messageText;
      if text == "" {
        return;
      }
      if !NonEmpty(storedUserName) {
        return;
      }
      var picture := OrDefault(storedPicture, DefaultAvatar);
      var newMessage := MessageRecord("", storedUserName.value, Some(picture), text, now,
                                      chatRoom.id, chatRoom.name, None);
      posted := Some(newMessage);
      if reply.Success? {
        var message := new Message(newMessage);
        messages := messages + [message];
      }
    }

    /** The page's `OnCreateMessage`: with non-empty input, POST a message from the
        fixed sender "Emilie" in this room and, on success, append it and empty the input. */
    method OnCreateMessageFromPage(now: string, reply: Reply<()>)
      returns (posted: Option<MessageRecord>)
      modifies this
      ensures posted == if old(messageText) != ""
                        then Some(MessageRecord("", "Emilie", None, old(messageText), now, chatRoom.id, chatRoom.name, None))
                        else None
      ensures posted.Some? && reply.Success? ==>
                && |messages| == |old(messages)| + 1
                && messages[..|old(messages)|] == old(messages)
                && fresh(messages[|old(messages)|])
                && messages[|old(messages)|].Value() == posted.value
                && messageText == ""
      ensures !(posted.Some? && reply.Success?) ==> messages == old(messages) && messageText == old(messageText)
      ensures roomId == old(roomId) && roomName == old(roomName) && roomProfil == old(roomProfil)
    {
      posted := None;
      var text := messageText;
      if text != "" {
        var newMessage := MessageRecord("", "Emilie", None, text, now, chatRoom.id, chatRoom.name, None);
        posted := Some(newMessage);
        if reply.Success? {
          var message := new Message(newMessage);
          messages := messages + [message];
          messageText := "";
        }
      }
    }

    /** `OnUpdateMessage`: with both prompt answers, write the new sender, text and time
        into the message object first (kept whatever follows), PUT it, and on success
        put it back at its own position in the cache. */
    method OnUpdateMessage(message: Message?, updatedSenderName: Option<string>, updatedText: Option<string>,
                           now: string, reply: Reply<()>)
      returns (put: Option<MessageRecord>)
      modifies this, message
      ensures messages == old(messages)
      ensures message != null && NonEmpty(updatedSenderName) && NonEmpty(updatedText) ==>
                message.Value() == old(message.Value()).(senderName := updatedSenderName.value,
                                                         text := updatedText.value, timestamp := now)
      ensures message != null && !(NonEmpty(updatedSenderName) && NonEmpty(updatedText)) ==>
                message.Value() == old(message.Value())
      ensures put == if message != null && NonEmpty(updatedSenderName) && NonEmpty(updatedText)
                     then Some(message.Value()) else None
      ensures roomId == old(roomId) && roomName == old(roomName) && roomProfil == old(roomProfil)
      ensures messageText == old(messageText)
    {
      put := None;
      if message == null {
        return;
      }
      if NonEmpty(updatedText) && NonEmpty(updatedSenderName) {
        message.senderName := updatedSenderName.value;
        message.text := updatedText.value;
        message.timestamp := now;
        put := Some(message.Value());
        if reply.Success? {
          var index := IndexOf(messages, message);
          if index < |messages| {
            messages := messages[index := message];
          }
        }
      }
    }

    /** `OnDeleteMessage`: after confirmation, DELETE the message and on success remove
        it from the cache; in every other case the cache is unchanged. */
    method OnDeleteMessage(message: Message?, confirmed: bool, reply: Reply<()>)
      returns (deleted: bool)
      modifies this
      ensures deleted == (message != null && confirmed && reply.Success?)
      ensures messages == if deleted then RemoveFirst(old(messages), message) else old(messages)
      ensures roomId == old(roomId) && roomName == old(roomName) && roomProfil == old(roomProfil)
      ensures messageText == old(messageText)
    {
      deleted := false;
      if message == null || !confirmed {
        return;
      }
      if reply.Success? {
        messages := RemoveFirst(messages, message);
        deleted := true;
      }
    }

    /** `OnSendToAnotherRoom`: GET the room list, let the user pick a room by name, POST
        a new message built from the original for the first room of that name and, only
        when the POST succeeds, set that room's new-message flag. Neither the cache nor
        the original message is touched (the method changes nothing of this client). */
    method OnSendToAnotherRoom(message: Message?, roomsReply: Reply<Option<seq<RoomRecord>>>,
                               selection: Option<string>, now: string, postReply: Reply<()>,
                               flags: FlagStore, flagReply: Reply<()>)
      returns (posted: Option<MessageRecord>, flagsAfter: FlagStore)
      ensures posted.Some? <==> message != null && ForwardTarget(roomsReply, selection).Some?
      ensures posted.Some? ==>
                posted.value == Forwarded(message.Value(), ForwardTarget(roomsReply, selection).value, chatRoom.name, now)
      ensures flagsAfter == if posted.Some? && postReply.Success?
                            then StoreNewMessageFlag(flags, ForwardTarget(roomsReply, selection).value.id, flagReply)
                            else flags
    {
      posted, flagsAfter := None, flags;
      if message == null {
        return;
      }
      if !roomsReply.Success? {
        return;
      }
      var rooms := roomsReply.body;
      if rooms.None? || |rooms.value| == 0 {
        return;
      }
      if !NonEmpty(selection) || selection.value == "Cancel" {
        return;
      }
      var i := FirstWhere(rooms.value, HasName(selection.value));
      if i == |rooms.value| {
        return;
      }
      var selectedRoom := rooms.value[i];
      var newMessage := MessageRecord("", message.senderName, None, message.text, now,
                                      selectedRoom.id, selection.value, Some(chatRoom.name));
      posted := Some(newMessage);
      if postReply.Success? {
        flagsAfter := StoreNewMessageFlag(flags, selectedRoom.id, flagReply);
      }
    }

    /** The page's `OnAppearing`: check this room's flag; when it is set, show a notice
        naming the last cached message's origin (none for an empty cache) and clear the
        flag; then, whatever the check said, reload the messages. */
    method OnAppearing(checkReply: Reply<Option<bool>>, flags: FlagStore, clearReply: Reply<()>,
                       loadReply: Reply<Option<seq<MessageRecord>>>)
      returns (notice: Option<Notice>, flagsAfter: FlagStore)
      modifies this
      ensures notice == NoticeFor(CheckNewMessageFlag(chatRoom.id, checkReply), old(Snapshot()), chatRoom.name)
      ensures flagsAfter == if CheckNewMessageFlag(chatRoom.id, checkReply)
                            then ClearNewMessageFlag(flags, chatRoom.id, clearReply) else flags
      ensures loadReply.Success? && loadReply.body.Some? ==>
                && Snapshot() == StampRoomName(loadReply.body.value, chatRoom.name)
                && forall k :: 0 <= k < |messages| ==> fresh(messages[k])
      ensures !(loadReply.Success? && loadReply.body.Some?) ==> messages == old(messages)
      ensures roomId == old(roomId) && roomName == old(roomName) && roomProfil == old(roomProfil)
      ensures messageText == old(messageText)
    {
      notice, flagsAfter := None, flags;
      var hasNewMessage := CheckNewMessageFlag(chatRoom.id, checkReply);
      if hasNewMessage {
        if |messages| > 0 {
          var latest := messages[|messages| - 1];
          notice := Some(Notice(chatRoom.name, latest.fromRoomName));
        }
        flagsAfter := ClearNewMessageFlag(flags, chatRoom.id, clearReply);
      }
      LoadMessages(loadReply);
    }
  }

  /** The view-model's constructor as called: a null room is rejected (the source
      throws `ArgumentNullException`), any other room gets a view-model. */
  method NewMessageViewModel(selectedRoom: Room?) returns (vm: MessageViewModel?)
    ensures vm == null <==> selectedRoom == null
    ensures vm != null ==> fresh(vm) && vm.chatRoom == selectedRoom && vm.messages == []
    ensures vm != null ==> vm.roomId == selectedRoom.id && vm.roomName == selectedRoom.name
    ensures vm != null ==> vm.roomProfil == OrDefault(selectedRoom.profileImageRoom, DefaultRoomAvatar)
    ensures vm != null ==> vm.messageText == ""
  {
    if selectedRoom == null {
      return null;
    }
    vm := new MessageViewModel(selectedRoom);
  }
}
