# ChatAppRum client cache bookkeeping, in Dafny

This project models the client-side state of the ChatAppRum mobile chat client. The
client is a view layer over an HTTP backend. What it keeps itself is:

- the **room list** (`RoomViewModel`): room objects ordered newest first;
- the **message list** of the open room (`MessageViewModel` and its near twin
  `MessagePage`): message objects in arrival order;
- the **new-message flag** per room, kept by the backend and reached through
  `NotificationService`. A cross-room forward sets it. The page checks it, and clears
  it after a positive check, each time the room is opened;
- the **per-room message registry** (`ChatRoomService`);
- the **overview list** of sample rooms (`ChatRoomOverviewViewModel`).

Each command of the view-models becomes one Dafny method on a class. The class holds
the same fields as the source and changes them in place. Rooms and messages are
classes too (`Rooms.Room`, `Messages.Message`), because the source changes their
fields in place and shares them between the view-models. What the backend sends and
receives is a datatype (`RoomRecord`, `MessageRecord`). Every method's `ensures` states
the cache it leaves in terms of those records. Deserialising a JSON list is modelled
as allocating one fresh object per record.

Everything outside the client becomes a parameter:

- every HTTP call's outcome is a `Reply<T>`: a success with its decoded body, a
  non-success status, or an exception;
- prompt answers and secure-storage values are `Option<string>` (null or a string);
- the confirm dialog is a `bool`;
- `File.Exists` is a `string -> bool` function;
- the picked and copied image path is an `Option<string>`;
- the current time is an `int` for room creation times and overview times (in
  minutes), and a `string` for message timestamps;
- the backend's flags are a `map<string, bool>`. A call passes it in and gets back
  the new map.

Modules: `Common` (nullable values with a fallback, HTTP replies, `IndexOf`, `FirstOrDefault` and `Remove` on a list),
`Ordering` (LINQ's stable `OrderByDescending`), `Notifications`, `Rooms`, `Messages`,
`ChatRooms` and `Overview`.

Behaviour of the code a reader may not expect, which the model keeps:

- `LoadMessages` does not look for a user id.
- Creating, updating or deleting a message does not reload the list. A create appends
  and an update puts the object back at its own position.
- Updating a room does reload the list.
- The room list used for a forward is fetched without a user id.
- A load that returns an empty room list leaves the cached rooms in place. A load that
  returns an empty message list empties the message cache.

## Model

| member | source | states |
|---|---|---|
| `Common.IndexOf` | ViewModel/RoomViewModel.cs:382-383 | the position found is the first occurrence of the item; \|list\| means absent |
| `Common.OrDefault` | ViewModel/MessageViewModel.cs:125 | a null or empty value is replaced by the fallback; any other value is kept. With "default_room_avatar.png" it gives the room avatar, and with "default_avatar.png" (lines 236-242) the sender picture of a new message |
| `Common.RemoveFirst` | ViewModel/RoomViewModel.cs:330 | `Remove` drops exactly the first occurrence and keeps the rest in order; an absent item leaves the list as it is |
| `Common.RemoveFirstTakesOne` | ViewModel/MessageViewModel.cs:357 | removing a present item shortens the list by one and takes one copy of it out of the multiset |
| `Ordering.SortDescPermutes` | ViewModel/RoomViewModel.cs:128 | `OrderByDescending` returns a permutation of its input |
| `Ordering.SortDescIsDescending` | ViewModel/ChatRoomOverviewViewModel.cs:28 | `OrderByDescending` orders by key, largest first |
| `Ordering.SortDescIsStable` | ViewModel/RoomViewModel.cs:128 | `OrderByDescending` is stable: for every key, the elements with that key keep their input order |
| `Notifications.StoreNewMessageFlag` | Model/NotificationService.cs:19-37 | a successful set raises that room's flag; any failure leaves it as it was; other rooms' flags never change; no error reaches the caller |
| `Notifications.CheckNewMessageFlag` | Model/NotificationService.cs:40-63 | true exactly when the status is a success and the body parses to true; a non-success status, an exception or a failed parse gives false |
| `Notifications.ClearNewMessageFlag` | Model/NotificationService.cs:66-84 | a successful clear lowers that room's flag; any failure leaves it as it was; other rooms' flags never change; no error reaches the caller |
| `Notifications.CheckReportsStoredFlag` | Model/NotificationService.cs:44-50 | against a backend that answers truthfully, the check reports exactly the stored flag of the room asked about |
| `Notifications.StoreIsIdempotent` | Model/NotificationService.cs:23 | a second set before a clear is absorbed: the flag is one bit per room, not a queue |
| `Notifications.SetCheckClearCycle` | Model/NotificationService.cs:19-84 | set twice then check reads true; clear then check reads false; the flags of other rooms are untouched |
| `Rooms.RoomValues` | ViewModel/RoomViewModel.cs:23 | the records a list of room objects currently holds, position by position |
| `Rooms.WithoutMissingImage` | ViewModel/RoomViewModel.cs:131-135 | a room's image becomes null exactly when it is set, non-empty and names no existing file; no other field changes |
| `Rooms.CheckImages` | ViewModel/RoomViewModel.cs:128-138 | the image check is applied to each loaded room, position by position |
| `Rooms.CheckImagesWithKey` | ViewModel/RoomViewModel.cs:131-135 | the image check never moves a room between creation times |
| `Rooms.LoadedRoomsAreNewestFirst` | ViewModel/RoomViewModel.cs:127-138 | a loaded list has as many rooms as were fetched and is ordered by `CreatedAt`, newest first |
| `Rooms.LoadedRoomsKeepFetchOrderOnTies` | ViewModel/RoomViewModel.cs:128 | for every creation time, the loaded rooms with that time are the fetched rooms with that time, in fetch order (image checked): no room is dropped, added or reordered among equals |
| `Rooms.Fetched` | ViewModel/RoomViewModel.cs:97-124 | a load installs a list exactly when the user id is usable, the status is a success and the list is non-null and non-empty |
| `Rooms.CreatedRoom` | ViewModel/RoomViewModel.cs:194-198 | a create yields a room exactly when a room was posted, the status is a success and the body decodes to a room |
| `Rooms.FirstById` | ViewModel/RoomViewModel.cs:412 | the position found is the first cached room with that id; \|list\| means none |
| `Rooms.RoomViewModel.constructor` | ViewModel/RoomViewModel.cs:55-83 | starts with an empty cache, the given user id and the refresh indicator off |
| `Rooms.RoomViewModel.LoadRooms` | ViewModel/RoomViewModel.cs:92-158 | the user id falls back to the stored one. Without a usable id, or on a non-success, an exception from the request or decoding, or a null or empty list, the cache is the same list as before. Otherwise it holds fresh objects for the fetched rooms, newest first, with missing images dropped. The refresh indicator is off afterwards in every case |
| `Rooms.RoomViewModel.SetUserIdAndLoadRooms` | ViewModel/RoomViewModel.cs:85-89 | the new user id replaces the field, then the load's outcome follows as for `LoadRooms` |
| `Rooms.RoomViewModel.OnRefresh` | ViewModel/RoomViewModel.cs:160-165 | has the load's outcome, and the refresh indicator it switched on is off again |
| `Rooms.RoomViewModel.OnCreateRoomAsync` | ViewModel/RoomViewModel.cs:168-225 | posts only with both answers non-empty and a stored user id. When the saved room comes back, it sits at index 0 as a fresh object, the old rooms follow in their old order, and the membership PATCH names that user and room. Otherwise the cache is unchanged |
| `Rooms.RoomViewModel.OnUpdateRoom` | ViewModel/RoomViewModel.cs:253-299 | with both answers, the room object takes the new name and description before any network call. The change stays even with no user id or a failed PUT (no rollback). Only a successful PUT reloads the list |
| `Rooms.RoomViewModel.OnDeleteRoom` | ViewModel/RoomViewModel.cs:302-343 | removes the room (its first occurrence) only after confirmation, with a stored user id and a successful DELETE; otherwise the cache is unchanged |
| `Rooms.RoomViewModel.ChangeProfilePicture` | ViewModel/RoomViewModel.cs:354-429 | the room takes the copied image path. The list of room objects is the same before and after: same length, same room at every index. After a successful PUT, the first cached room with the same id takes the room's image, name and description. No other room changes |
| `Messages.MessageValues` | ViewModel/MessageViewModel.cs:110 | the records a list of message objects currently holds, position by position |
| `Messages.StampRoomName` | ViewModel/MessageViewModel.cs:183-189 | every loaded message carries the open room's name, in fetch order, and nothing else about it changes |
| `Common.FirstWhere` | ViewModel/MessageViewModel.cs:431 | `FirstOrDefault` finds the first element that satisfies the predicate; \|list\| means none, and then no element satisfies it |
| `Messages.ForwardTarget` | ViewModel/MessageViewModel.cs:388-437 | a destination exists only for a successful, non-empty room list and a selection that is neither empty nor "Cancel". It is the first room with the selected name; when no room has that name there is none |
| `Messages.Forwarded` | ViewModel/MessageViewModel.cs:440-448 | the forwarded message is a new entity (no id): the original's sender and text, the destination's id and name, the source room as `FromRoomName` |
| `Messages.NoticeFor` | MessagePage.xaml.cs:347-357 | a notice is shown exactly when the check was positive and the cache is non-empty, and it names the last cached message's `FromRoomName` |
| `Messages.MessageViewModel.constructor` | ViewModel/MessageViewModel.cs:119-125 | takes the room's id and name, and the room's image or the default room avatar; the cache starts empty |
| `Messages.NewMessageViewModel` | ViewModel/MessageViewModel.cs:115-118 | a null room is rejected; any other room gets a fresh view-model on it |
| `Messages.MessageViewModel.LoadMessages` | ViewModel/MessageViewModel.cs:170-201 | on a success with a non-null list, the cache holds fresh objects for exactly the fetched messages in order, each stamped with the room's current name. A non-success or an exception from the request or decoding leaves the cache unchanged |
| `Messages.MessageViewModel.OnCreateMessage` | ViewModel/MessageViewModel.cs:203-288 | posts only with non-empty text and a stored user name; the picture falls back to the default avatar. On success exactly one fresh message, with this room's id and name, is appended and the earlier ones stay as they were |
| `Messages.MessageViewModel.OnCreateMessageFromPage` | MessagePage.xaml.cs:98-141 | posts only with non-empty input, as sender "Emilie". On success exactly one message is appended and the input is emptied; otherwise cache and input are unchanged |
| `Messages.MessageViewModel.OnUpdateMessage` | ViewModel/MessageViewModel.cs:290-336 | with both answers, the message object takes the new sender, text and time before the PUT, whatever its outcome. The cache keeps its length and every message its index |
| `Messages.MessageViewModel.OnDeleteMessage` | ViewModel/MessageViewModel.cs:339-370 | removes the message (its first occurrence) only after confirmation and a successful DELETE; otherwise the cache is unchanged |
| `Messages.MessageViewModel.OnSendToAnotherRoom` | ViewModel/MessageViewModel.cs:373-481 | posts only when a destination was found. The post is the forwarded message built from the original. The destination's flag is set only after a successful post. Neither the cache nor the original message changes |
| `Messages.MessageViewModel.OnAppearing` | MessagePage.xaml.cs:340-364 | the notice is computed from the cache as it was before the reload. The flag is cleared if and only if the check was positive, even when no notice is shown. The reload follows in every case |
| `ChatRooms.ChatRoomService.constructor` | Model/ChatRoomService.cs:15-18 | the registry starts empty |
| `ChatRooms.ChatRoomService.GetMessages` | Model/ChatRoomService.cs:20-28 | a known room gets its own collection and the map is unchanged. An unknown room gets a fresh empty collection, registered under its name. Afterwards the key is present and other entries are unchanged |
| `ChatRooms.ChatRoomService.GetMessagesTwice` | Model/ChatRoomService.cs:20-28 | two calls with the same room return the same collection |
| `Overview.GetChatRooms` | ViewModel/ChatRoomOverviewViewModel.cs:45-54 | three sample rooms |
| `Overview.OverviewIsOrderedPermutation` | ViewModel/ChatRoomOverviewViewModel.cs:28-33 | the overview holds exactly the sample rooms, each once, ordered by latest message time, newest first |
| `Overview.SampleOrder` | ViewModel/ChatRoomOverviewViewModel.cs:50-52 | with the offsets −5, −1 and −2 minutes the order is Room 2, Room 3, Room 1 |
| `Overview.ChatRoomOverviewViewModel.constructor` | ViewModel/ChatRoomOverviewViewModel.cs:18-23 | the new view-model already shows the ordered sample rooms |
| `Overview.ChatRoomOverviewViewModel.LoadChatRooms` | ViewModel/ChatRoomOverviewViewModel.cs:25-37 | the list is cleared and refilled with the ordered sample rooms, so a reload never accumulates entries |
| `Overview.ChatRoomOverviewViewModel.OnRefresh` | ViewModel/ChatRoomOverviewViewModel.cs:39-43 | a refresh has exactly the effect of a load |

`MessagePage.xaml.cs` repeats the view-model's load, update, delete and forward: lines
63-94, 144-190, 193-224 and 227-335. The methods above model both copies. The page's
create (lines 98-141) and its `OnAppearing` (lines 340-364) have their own members.

## Left out

- HTTP transport, JSON (de)serialisation, base-address resolution and the certificate bypass: calls into libraries. Each call's outcome is a parameter.
- SecureStorage, `FilePicker`, `File.Copy`, `File.Exists` and the app data directory: external collaborators. Their results are parameters. A `File.Copy` that throws is outside the model.
- Dialogs, action sheets, toasts, the main-thread dispatch and property-change events: user interface. A toast is modelled only as the `Notice` value `OnAppearing` returns.
- `DateTime.Now` formatting and `bool.Parse`: library behaviour. Times are parameters. A parse result is `Some(b)`, or `None` for a body `bool.Parse` rejects.
- The fire-and-forget `LoadRooms()` / `LoadMessages()` calls: `OnRefresh`, `SetUserIdAndLoadRooms` and `OnUpdateRoom` run their load to completion inside the command. The two constructors' initial loads are separate calls. Interleavings of unawaited calls are not modelled.
- `InitializeUserProfilePicture` in both view-models: it only sets a display avatar and plays no part in any cache.
- `UpdateUserRoomListAsync`: its PATCH is returned as `MembershipPatch`. Its outcome is only logged, so no reply is modelled.
- Rooms.RoomViewModel.LoadRooms: a decoded room list is taken to hold no null element. In the source a null element makes `OrderByDescending` throw inside the `foreach`, after `Rooms.Clear()` (ViewModel/RoomViewModel.cs:127-128), so the cache is left empty rather than unchanged. `seq<RoomRecord>` cannot hold a null.
- Messages.MessageViewModel.LoadMessages: a decoded message list is taken to hold no null element. In the source a null element makes `message.RoomName = …` throw after `Messages.Clear()` (ViewModel/MessageViewModel.cs:187, MessagePage.xaml.cs:80), so the cache keeps only the messages before it. `seq<MessageRecord>` cannot hold a null.
- Notifications.StoreNewMessageFlag: a request that throws is taken to leave the backend's flag unchanged. In reality such a request may or may not have reached the backend.
- Null ids are written as "". The source renders a null id as "" in URLs, but compares null and "" as different ids.
- Overview.GetChatRooms: its three `DateTime.Now` reads are taken as one instant in whole minutes. The order holds either way, because the reads are increasing and far less than a minute apart.
- Reference equality of rooms and messages is object identity in Dafny. The source's `Remove`/`IndexOf` use `Equals` of a library type that is not part of this model; reference equality is assumed.
- `ChatRoom.cs` has no behaviour and appears only as the `Overview.ChatRoom` datatype. The pages, DI set-up, login and platform files are user interface and glue.
