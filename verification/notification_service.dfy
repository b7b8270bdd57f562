/** The per-room "new message" flag kept by the backend, and the client's three calls
    on it (Model/NotificationService.cs). The backend's flags are a value passed in and
    returned; each call's HTTP outcome is a parameter, and no call ever reports an
    error to its caller: failures only leave the flags as they were. */
module Notifications {
  import opened Common

  /** The backend's flags, by room id; a room without an entry has no flag. */
  type FlagStore = map<string, bool>

  function Flag(store: FlagStore, roomId: string): bool
  {
    roomId in store && store[roomId]
  }

  /** `StoreNewMessageFlag`: POST set_new_message_flag/{roomId}. A successful reply
      means the backend set that room's flag; any other outcome is only logged. */
  function StoreNewMessageFlag(store: FlagStore, roomId: string, reply: Reply<()>): (r: FlagStore)
    ensures Flag(r, roomId) == (reply.Success? || Flag(store, roomId))
    ensures forall id :: id != roomId ==> Flag(r, id) == Flag(store, id)
  {
    if reply.Success? then store[roomId := true] else store
  }

  /** `CheckNewMessageFlag`: GET check_new_message_flag/{roomId}. The body is parsed as
      a boolean; `Success(None)` is a body that `bool.Parse` rejects. Every failure,
      whether a non-success status, a thrown request or a failed parse, reads as false. */
  function CheckNewMessageFlag(roomId: string, reply: Reply<Option<bool>>): (hasNewMessage: bool)
    ensures hasNewMessage <==> reply == Success(Some(true))
  {
    match reply
    case Success(parsed) => parsed.Some? && parsed.value
    case NonSuccess(_) => false
    case Threw => false
  }

  /** `ClearNewMessageFlag`: POST clear_new_message_flag/{roomId}. A successful reply
      means the backend cleared that room's flag; any other outcome is only logged. */
  function ClearNewMessageFlag(store: FlagStore, roomId: string, reply: Reply<()>): (r: FlagStore)
    ensures Flag(r, roomId) == (!reply.Success? && Flag(store, roomId))
    ensures forall id :: id != roomId ==> Flag(r, id) == Flag(store, id)
  {
    if reply.Success? then store[roomId := false] else store
  }

  /** The reply a backend holding `store` gives to a check of `roomId`: the flag's value
      as the boolean text "True" or "False", which parses. */
  function ServerAnswer(store: FlagStore, roomId: string): Reply<Option<bool>>
  {
    Success(Some(Flag(store, roomId)))
  }

  /** Against a backend that answers truthfully, a check reports exactly the stored flag. */
  lemma CheckReportsStoredFlag(store: FlagStore, roomId: string)
    ensures CheckNewMessageFlag(roomId, ServerAnswer(store, roomId)) == Flag(store, roomId)
  {
  }

  /** A second set before any clear is absorbed: the flag is one bit, not a queue. */
  lemma StoreIsIdempotent(store: FlagStore, roomId: string)
    ensures StoreNewMessageFlag(StoreNewMessageFlag(store, roomId, Success(())), roomId, Success(()))
         == StoreNewMessageFlag(store, roomId, Success(()))
  {
  }

  /** Set, set, check reports true; clear, check reports false; other rooms never move. */
  lemma {:induction false} SetCheckClearCycle(store: FlagStore, roomId: string, other: string)
    requires other != roomId
    ensures var set2 := StoreNewMessageFlag(StoreNewMessageFlag(store, roomId, Success(())), roomId, Success(()));
            && CheckNewMessageFlag(roomId, ServerAnswer(set2, roomId))
            && !CheckNewMessageFlag(roomId, ServerAnswer(ClearNewMessageFlag(set2, roomId, Success(())), roomId))
            && Flag(ClearNewMessageFlag(set2, roomId, Success(())), other) == Flag(store, other)
  {
  }
}
