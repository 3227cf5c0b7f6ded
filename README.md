# Omegle-clone signalling server: matchmaking and relay table

This project models the server half of an anonymous one-to-one video chat
(`app.py`). The server keeps two tables:

- `waiting_users`, a FIFO list of user ids that want a partner;
- `active_pairs`, a dict from a user id to that user's partner and the
  room name they share.

Socket.IO handlers read and update these tables one event at a time:

- `join` matches the newcomer with the oldest waiting user, or queues the newcomer.
- `message` forwards chat text to the sender's room.
- `video_offer`, `video_answer` and `ice_candidate` forward WebRTC signalling
  to the sender's recorded partner.
- `disconnect` walks a snapshot of the pair table. For every entry it
  notifies the entry's room and deletes both sides of the pair.

The model has three modules:

- `Rooms` (`rooms.dfy`): Python's ordering of `str`, `min` and `max`, and the
  room name `min(u, p) + "-" + max(u, p)`.
- `Signaling` (`signaling.dfy`): the tables as a value (`Tables`), what each
  handler does to them and emits (`Join`, `ToRoom`, `ToPartner`, `DropAll`,
  `Disconnect`), and the lemmas about those functions.
- `App` (`app.dfy`): class `Server`. Its fields are the two tables, the
  insertion order of the dict's keys, and the log of everything sent. Each
  handler is a method that updates the fields in place, and each method is
  proved equal to its `Signaling` function. The disconnect handler is a loop
  over the snapshot, with invariants.

Transport calls become `Event` values appended to the log:
`Emit(target, payload)`, `JoinRoom(room)` and `LeaveRoom(room)`. The target of
an `emit` is one of three things: the caller (no `to=`), `User(id)`
(`to=user_id`), or `Room(name)` (`room=`). Python dicts keep insertion order,
and that order fixes the order of the disconnect snapshot and of its
notifications. So the model keeps the key order next to the map: a new key goes
last, an overwritten key keeps its place, and a deleted key is dropped.

Behaviour of the code as written, proved in the model:

- The queue never holds more than one id. A join appends only when the queue is
  empty, and otherwise pops. So no user is ever queued twice, and
  `Server.Valid()` includes `|waiting| <= 1`.
- A user who joins while alone in the queue is matched with itself, whatever
  pairs already exist (`SelfMatch`).
- A user who joins again while paired is queued if nobody is waiting, and is
  matched at once otherwise. Either way only the re-joiner's entry is
  rewritten, and the old partner's entry still names them, so pairs are not
  always mutual (`RejoinBreaksSymmetry`, after joins by a, b, a, c). Pairs stay
  mutual across any join that queues, and across a match in which neither side
  was already paired (`JoinKeepsSymmetry`).
- A disconnect empties the whole pair table, not just the pairs of the user who
  left. It leaves the waiting queue as it was.
- Every stored room is the room name of its two users, so every room is
  non-empty. The `if room:` guard therefore always passes, and the guarded
  deletes remove every entry.

## Model

| member | source | states |
|---|---|---|
| `Rooms.Less` | app.py:41 | Python's `<` on `str`, on which `min`/`max` decide: code points compared left to right, a proper prefix smaller than the longer string; its properties are `LessAsymmetric` and `LessTrichotomy` |
| `Rooms.LessAsymmetric` | app.py:41 | Python's `<` on strings is asymmetric, so no id is smaller than itself |
| `Rooms.LessTrichotomy` | app.py:41 | Python's `<` on strings is total: two different ids are ordered one way or the other |
| `Rooms.Min` | app.py:41 | `min(a, b)` returns one of its arguments, and neither argument is smaller than it |
| `Rooms.Max` | app.py:41 | `max(a, b)` returns one of its arguments, and it is smaller than neither argument |
| `Rooms.RoomName` | app.py:41 | the room is `u-p` or `p-u`, with the strictly smaller id first; its length is `|u| + |p| + 1`, so it is never empty |
| `Rooms.RoomSymmetric` | app.py:41 | the room name does not depend on argument order: `RoomName(u, p) == RoomName(p, u)` |
| `Signaling.Without` | app.py:99-101 | deleting a key from the dict order keeps every other key, drops that key, and keeps the order free of duplicates |
| `Signaling.Assign` | app.py:45-46 | a dict store sets the entry, leaves the queue alone, and keeps the key order in step with the keys |
| `Signaling.DeleteIfPresent` | app.py:98-101 | a membership-guarded `del` removes exactly that key, leaves the queue alone, and keeps the key order in step with the keys |
| `Signaling.Join` | app.py:34-54 | empty queue: the joiner is queued, gets `waiting`, and no pair changes; otherwise exactly the oldest waiting user is dequeued, both sides record each other under one room, no other entry changes, the caller joins the room, the joiner gets `chat_start` as initiator and the partner as non-initiator; the queue never grows past one; a newly paired key goes last in dict order (the joiner's before the partner's) and a key already present keeps its place, so the order stays consistent with the keys |
| `Signaling.JoinKeepsRoomsNamed` | app.py:41-46 | after a join, every entry's room is still the room name of the user and the recorded partner |
| `Signaling.JoinKeepsSymmetry` | app.py:38-46 | a join keeps pairs mutual when it only queues the joiner, or when neither the joiner nor the dequeued user was already paired |
| `Signaling.SelfMatch` | app.py:38-46 | a user who joins while alone in the queue, whatever pairs exist, empties the queue and is paired with itself in room `u-u` |
| `Signaling.RejoinBreaksSymmetry` | app.py:38-46 | after joins by a, b, a, c (a's second join only queues a, and c's join takes it), user b still names a as partner while a names c, so pairs are no longer mutual |
| `Signaling.ToRoom` | app.py:56-63 | a chat message yields exactly one event, to the sender's room, when the sender is paired, and none otherwise |
| `Signaling.ToPartner` | app.py:65-84 | an offer, answer or candidate yields exactly one event, to the sender's recorded partner with the payload unchanged, when the sender is paired, and none otherwise |
| `Signaling.Items` | app.py:88 | the snapshot lists every entry of `active_pairs` once, in dict order, with its value |
| `Signaling.Notice` | app.py:93-95 | the events of one snapshot entry: with a room, leaving it and then `partner_disconnected` to it; without one, none; proved entry by entry in `NoticesAt` |
| `Signaling.Notices` | app.py:88-95 | the events of a snapshot walk, entry by entry in snapshot order; their positions are stated in `NoticesAt` |
| `Signaling.DropEntry` | app.py:89-101 | one loop pass over an entry with a room deletes both sides and emits leave-room then `partner_disconnected`; an entry without a room changes nothing |
| `Signaling.DropAll` | app.py:88-101 | walking a snapshot only removes entries, exactly both sides of each walked entry with a room, and never touches the queue |
| `Signaling.RemovedCovers` | app.py:97-101 | every walked entry with a room has both its user and its partner among the deleted ids |
| `Signaling.NoticesAt` | app.py:93-95 | when every entry has a room, entry `i` produces events `2i` (leave room) and `2i+1` (`partner_disconnected` to that room) |
| `Signaling.NamedRoomsNonEmpty` | app.py:93 | every snapshot entry has a non-empty room, so the `if room:` guard always passes |
| `Signaling.Disconnect` | app.py:86-101 | `handle_disconnect` as the loop run over the whole snapshot `Items(t)`; what it does is proved in `DisconnectClears` and `DisconnectNotifiesEach` |
| `Signaling.DisconnectClears` | app.py:86-101 | after a disconnect `active_pairs` is empty and `waiting_users` is unchanged |
| `Signaling.DisconnectNotifiesEach` | app.py:88-95 | a disconnect emits exactly one `partner_disconnected` per snapshot entry, to that entry's room and in dict order, each preceded by leaving that room |
| `App.Server.constructor` | app.py:18-19 | the server starts with an empty queue, an empty pair table and nothing sent |
| `App.Server.Assign` | app.py:45-46 | `active_pairs[k] = v` performed in place, as `Signaling.Assign` |
| `App.Server.Delete` | app.py:98-101 | `del active_pairs[k]` performed in place, as `Signaling.DeleteIfPresent` |
| `App.Server.OnJoin` | app.py:34-54 | the new tables and the appended events are those of `Signaling.Join`; the invariant (dict order, room names, queue of at most one) is kept |
| `App.Server.HandleMessage` | app.py:56-63 | only the event log changes, by the events of `Signaling.ToRoom` |
| `App.Server.HandleVideoOffer` | app.py:65-70 | only the event log changes, by the `video_offer` events of `Signaling.ToPartner` |
| `App.Server.HandleVideoAnswer` | app.py:72-77 | only the event log changes, by the `video_answer` events of `Signaling.ToPartner` |
| `App.Server.HandleIceCandidate` | app.py:79-84 | only the event log changes, by the `ice_candidate` events of `Signaling.ToPartner` |
| `App.Server.DropEntry` | app.py:89-101 | one loop pass performed in place, as `Signaling.DropEntry` |
| `App.Server.DropEach` | app.py:88-101 | the loop over the snapshot leaves the tables and the log exactly as `Signaling.DropAll` says |
| `App.Server.HandleDisconnect` | app.py:86-101 | the tables and the log become those of `Signaling.Disconnect`; `active_pairs` and its key order end empty and `waiting_users` is unchanged |

## Left out

- `handle_connect` (app.py:29-32) only prints and emits `connected` to the caller. It is not part of this model.
- Flask routes `index` and `favicon`, the random `SECRET_KEY`, the Socket.IO configuration and `socketio.run` with the `PORT` lookup (app.py:7-15, 21-27, 103-105) are configuration and I/O.
- The browser client `static/script.js` is DOM code, media capture and `RTCPeerConnection` calls. It is not part of this model.
- Socket.IO delivery is not modelled. The model records transport calls as events but not who receives them: room membership, `include_self`, and whether any client is in the room named by `to=user_id`.
- gevent scheduling is not modelled. Each handler runs atomically, one after another.
- Missing keys in a handler's `data` are not modelled: each handler takes its fields as parameters. In the source a missing `userId` (or `message`, or, for a paired sender, `offer`/`answer`/`candidate`) raises `KeyError` before any state changes or anything is emitted.
- User ids are assumed to be `str`. Python would order ids of other types differently, or raise `TypeError` in `min`/`max`.
- Offer, answer and candidate payloads are JSON objects in the source. The model carries them as opaque strings, passed through unchanged.
