/** The matchmaking and relay tables of the signalling server (app.py) as
    values, and what each Socket.IO handler does to them and emits. The class
    in module App performs these steps in place; the functions here are its
    specification, and the properties of the handlers are proved about them. */
module Signaling {
  import opened Rooms

  /** A value of `active_pairs`: `{'partner': ..., 'room': ...}`. */
  datatype Pair = Pair(partner: string, room: string)

  /** Where an `emit` goes: the client that sent the current event (no `to=`),
      the room named after a user id (`to=user_id`), or a chat room (`room=`). */
  datatype Target = Caller | User(id: string) | Room(name: string)

  /** The event name of an `emit` together with its payload. */
  datatype Payload =
    | ChatStart(room: string, isInitiator: bool)
    | Waiting
    | Message(text: string)
    | VideoOffer(offer: string)
    | VideoAnswer(answer: string)
    | IceCandidate(candidate: string)
    | PartnerDisconnected

  /** A transport call made by a handler: an `emit`, or the caller joining or
      leaving a room. */
  datatype Event =
    | Emit(to: Target, payload: Payload)
    | JoinRoom(room: string)
    | LeaveRoom(room: string)

  /** The module-level state: `waiting_users`, `active_pairs`, and the
      insertion order of the keys of `active_pairs`, which a Python dict keeps
      and which fixes the order of the disconnect snapshot. */
  datatype Tables = Tables(waiting: seq<string>, pairs: map<string, Pair>, order: seq<string>)

  /** What a handler leaves behind: the new tables and the events it made, in order. */
  datatype Step = Step(tables: Tables, out: seq<Event>)

  const Empty := Tables([], map[], [])

  predicate NoDup(s: seq<string>)
  {
    forall i, j :: 0 <= i < j < |s| ==> s[i] != s[j]
  }

  /** `order` lists every key of `pairs` exactly once. */
  predicate Valid(t: Tables)
  {
    && NoDup(t.order)
    && (forall k :: k in t.pairs ==> k in t.order)
    && (forall k :: k in t.order ==> k in t.pairs)
  }

  /** Every entry's room is the room name of the user and the recorded partner. */
  predicate RoomsNamed(t: Tables)
  {
    forall k :: k in t.pairs ==> t.pairs[k].room == RoomName(k, t.pairs[k].partner)
  }

  /** Each user's recorded partner records that user back. */
  predicate Symmetric(t: Tables)
  {
    forall k :: k in t.pairs ==>
      t.pairs[k].partner in t.pairs && t.pairs[t.pairs[k].partner].partner == k
  }

  /** `order` with key `k` taken out. */
  function Without(s: seq<string>, k: string): (r: seq<string>)
    ensures forall x :: x in r <==> x in s && x != k
    ensures NoDup(s) ==> NoDup(r)
  {
    if s == [] then []
    else
      assert NoDup(s) ==> NoDup(s[1..]) by {
        if NoDup(s) {
          forall i, j | 0 <= i < j < |s[1..]| ensures s[1..][i] != s[1..][j] {
            assert s[1..][i] == s[i + 1] && s[1..][j] == s[j + 1];
          }
        }
      }
      var rest := Without(s[1..], k);
      if s[0] == k then rest
      else
        assert NoDup(s) ==> s[0] !in s[1..] by {
          if NoDup(s) {
            forall j | 0 <= j < |s[1..]| ensures s[1..][j] != s[0] {
              assert s[1..][j] == s[j + 1];
            }
          }
        }
        [s[0]] + rest
  }

  /** `active_pairs[k] = v`: a new key goes last in the order, an existing key keeps its place. */
  function Assign(t: Tables, k: string, v: Pair): (r: Tables)
    ensures r.waiting == t.waiting
    ensures r.pairs == t.pairs[k := v]
    ensures Valid(t) ==> Valid(r)
  {
    var order := if k in t.pairs then t.order else t.order + [k];
    Tables(t.waiting, t.pairs[k := v], order)
  }

  /** `if k in active_pairs: del active_pairs[k]`. */
  function DeleteIfPresent(t: Tables, k: string): (r: Tables)
    ensures r.waiting == t.waiting
    ensures r.pairs == t.pairs - {k}
    ensures Valid(t) ==> Valid(r)
  {
    if k in t.pairs then Tables(t.waiting, t.pairs - {k}, Without(t.order, k))
    else
      assert t.pairs - {k} == t.pairs;
      t
  }

  /** `on_join` (app.py:34-54). With someone waiting, the oldest waiting user
      is dequeued and matched with the joiner; otherwise the joiner is queued
      and told to wait. */
  function Join(t: Tables, u: string): (s: Step)
    // Queue empty: the joiner is appended, told to wait, and no pair changes.
    ensures |t.waiting| == 0 ==>
      s.tables == Tables([u], t.pairs, t.order) && s.out == [Emit(Caller, Waiting)]
    // Queue non-empty: exactly the oldest waiting user leaves the queue ...
    ensures |t.waiting| > 0 ==> s.tables.waiting == t.waiting[1..]
    // ... both sides record each other under the same room, nobody else changes ...
    ensures |t.waiting| > 0 ==>
      var p, room := t.waiting[0], RoomName(u, t.waiting[0]);
      && u in s.tables.pairs && p in s.tables.pairs
      && s.tables.pairs[u].partner == p && s.tables.pairs[p].partner == u
      && s.tables.pairs[u].room == room && s.tables.pairs[p].room == room
      && s.tables.pairs - {u, p} == t.pairs - {u, p}
    // ... and the caller joins the room, then the joiner starts as initiator and the partner not.
    ensures |t.waiting| > 0 ==>
      var p, room := t.waiting[0], RoomName(u, t.waiting[0]);
      s.out == [JoinRoom(room), Emit(User(u), ChatStart(room, true)), Emit(User(p), ChatStart(room, false))]
    // A newly paired user's key goes last in dict order, the joiner's first; keys already present keep their place.
    ensures |t.waiting| > 0 ==>
      var p := t.waiting[0];
      s.tables.order == t.order + (if u in t.pairs then [] else [u]) + (if p in t.pairs || p == u then [] else [p])
    // The queue never grows beyond one waiting user.
    ensures |t.waiting| <= 1 ==> |s.tables.waiting| <= 1
    ensures Valid(t) ==> Valid(s.tables)
  {
    if |t.waiting| > 0 then
      var p := t.waiting[0];
      var room := RoomName(u, p);
      var t1 := Assign(Tables(t.waiting[1..], t.pairs, t.order), u, Pair(p, room));
      var t2 := Assign(t1, p, Pair(u, room));
      Step(t2, [JoinRoom(room), Emit(User(u), ChatStart(room, true)), Emit(User(p), ChatStart(room, false))])
    else
      Step(Tables(t.waiting + [u], t.pairs, t.order), [Emit(Caller, Waiting)])
  }

  /** A join keeps every room named after its pair: the joiner's entry and
      the partner's entry name the same room, whichever order they are read in. */
  lemma JoinKeepsRoomsNamed(t: Tables, u: string)
    requires RoomsNamed(t)
    ensures RoomsNamed(Join(t, u).tables)
  {
    if |t.waiting| > 0 {
      RoomSymmetric(u, t.waiting[0]);
    }
  }

  /** Pairs stay mutual across a join as long as neither the joiner nor the
      dequeued partner was already paired. */
  lemma JoinKeepsSymmetry(t: Tables, u: string)
    requires Symmetric(t)
    requires |t.waiting| > 0 ==> u !in t.pairs && t.waiting[0] !in t.pairs
    ensures Symmetric(Join(t, u).tables)
  {
    if |t.waiting| > 0 {
      var p, r := t.waiting[0], Join(t, u).tables;
      forall k | k in r.pairs
        ensures r.pairs[k].partner in r.pairs && r.pairs[r.pairs[k].partner].partner == k
      {
        if k != u && k != p {
          assert k in t.pairs - {u, p};
          var q := t.pairs[k].partner;
          assert q in t.pairs - {u, p};
        }
      }
    }
  }

  /** `handle_video_offer`, `handle_video_answer`, `handle_ice_candidate`
      (app.py:65-84): one event to the sender's recorded partner when the
      sender is paired, nothing otherwise. */
  function ToPartner(t: Tables, u: string, payload: Payload): (out: seq<Event>)
    ensures |out| == (if u in t.pairs then 1 else 0)
    ensures u in t.pairs ==> forall e <- out :: e == Emit(User(t.pairs[u].partner), payload)
  {
    if u in t.pairs then [Emit(User(t.pairs[u].partner), payload)] else []
  }

  /** `handle_message` (app.py:56-63): one event to the sender's room when
      the sender is paired, nothing otherwise. */
  function ToRoom(t: Tables, u: string, payload: Payload): (out: seq<Event>)
    ensures |out| == (if u in t.pairs then 1 else 0)
    ensures u in t.pairs ==> forall e <- out :: e == Emit(Room(t.pairs[u].room), payload)
  {
    if u in t.pairs then [Emit(Room(t.pairs[u].room), payload)] else []
  }

  /** `list(active_pairs.items())`: the snapshot `handle_disconnect` walks, in dict order. */
  function Items(t: Tables): (items: seq<(string, Pair)>)
    requires Valid(t)
    ensures |items| == |t.order|
    ensures forall i :: 0 <= i < |items| ==>
      items[i].0 == t.order[i] && items[i].0 in t.pairs && items[i].1 == t.pairs[t.order[i]]
  {
    seq(|t.order|, i requires 0 <= i < |t.order| => (t.order[i], t.pairs[t.order[i]]))
  }

  /** The events of one snapshot entry: leave the room and tell it the
      partner is gone; an entry with an empty room makes none. */
  function Notice(entry: (string, Pair)): seq<Event>
  {
    var room := entry.1.room;
    if room != "" then [LeaveRoom(room), Emit(Room(room), PartnerDisconnected)] else []
  }

  /** The events of a whole snapshot walk, entry by entry. */
  function Notices(items: seq<(string, Pair)>): seq<Event>
    decreases |items|
  {
    if items == [] then []
    else Notices(items[..|items| - 1]) + Notice(items[|items| - 1])
  }

  /** When every entry has a room, entry `i` makes events `2 * i` and `2 * i + 1`. */
  lemma {:induction false} NoticesAt(items: seq<(string, Pair)>)
    requires forall i :: 0 <= i < |items| ==> items[i].1.room != ""
    ensures var out := Notices(items);
      && |out| == 2 * |items|
      && forall i :: 0 <= i < |items| ==>
           out[2 * i] == LeaveRoom(items[i].1.room)
           && out[2 * i + 1] == Emit(Room(items[i].1.room), PartnerDisconnected)
    decreases |items|
  {
    if items != [] {
      var n := |items| - 1;
      var prefix := items[..n];
      assert forall i :: 0 <= i < n ==> prefix[i] == items[i];
      NoticesAt(prefix);
      var a, b := Notices(prefix), Notice(items[n]);
      assert Notices(items) == a + b;
      forall i | 0 <= i < |items|
        ensures (a + b)[2 * i] == LeaveRoom(items[i].1.room)
        ensures (a + b)[2 * i + 1] == Emit(Room(items[i].1.room), PartnerDisconnected)
      {
        if i < n {
          assert (a + b)[2 * i] == a[2 * i] && (a + b)[2 * i + 1] == a[2 * i + 1];
        } else {
          assert (a + b)[2 * i] == b[0] && (a + b)[2 * i + 1] == b[1];
        }
      }
    }
  }

  /** One pass of the loop body of `handle_disconnect` (app.py:89-101). */
  function DropEntry(t: Tables, entry: (string, Pair)): (s: Step)
    ensures s.tables.waiting == t.waiting
    ensures s.out == Notice(entry)
    // Both sides of an entry with a room are deleted; an entry without one changes nothing.
    ensures s.tables.pairs == if entry.1.room != "" then t.pairs - {entry.0, entry.1.partner} else t.pairs
    ensures Valid(t) ==> Valid(s.tables)
  {
    var (k, v) := entry;
    if v.room != "" then
      Step(DeleteIfPresent(DeleteIfPresent(t, k), v.partner), Notice(entry))
    else Step(t, [])
  }

  /** The ids a snapshot walk deletes: both sides of every entry with a room. */
  function Removed(items: seq<(string, Pair)>): set<string>
    decreases |items|
  {
    if items == [] then {}
    else
      var (k, v) := items[|items| - 1];
      Removed(items[..|items| - 1]) + (if v.room != "" then {k, v.partner} else {})
  }

  /** Every walked entry with a room has both of its sides in `Removed`. */
  lemma {:induction false} RemovedCovers(items: seq<(string, Pair)>, i: nat)
    requires i < |items| && items[i].1.room != ""
    ensures items[i].0 in Removed(items) && items[i].1.partner in Removed(items)
    decreases |items|
  {
    var n := |items| - 1;
    if i < n {
      assert items[..n][i] == items[i];
      RemovedCovers(items[..n], i);
    }
  }

  /** The loop of `handle_disconnect` run over the first entries of a snapshot. */
  function DropAll(t: Tables, items: seq<(string, Pair)>): (s: Step)
    ensures s.tables.waiting == t.waiting
    ensures s.out == Notices(items)
    // Entries are only ever removed: exactly both sides of each walked entry with a room.
    ensures s.tables.pairs == t.pairs - Removed(items)
    ensures Valid(t) ==> Valid(s.tables)
    decreases |items|
  {
    if items == [] then
      assert t.pairs - {} == t.pairs;
      Step(t, [])
    else
      var n := |items| - 1;
      var s1 := DropAll(t, items[..n]);
      var s2 := DropEntry(s1.tables, items[n]);
      Step(s2.tables, s1.out + s2.out)
  }

  /** Walking one more entry of a snapshot is one more pass of the loop body. */
  lemma DropAllStep(t: Tables, items: seq<(string, Pair)>, i: nat)
    requires i < |items|
    ensures var before := DropAll(t, items[..i]);
      var step := DropEntry(before.tables, items[i]);
      DropAll(t, items[..i + 1]) == Step(step.tables, before.out + step.out)
  {
    assert items[..i + 1][..i] == items[..i];
  }

  /** Appending events in two steps is appending them at once. */
  lemma ConcatAssoc(a: seq<Event>, b: seq<Event>, c: seq<Event>)
    ensures (a + b) + c == a + (b + c)
  {
  }

  /** `handle_disconnect` (app.py:86-101). */
  function Disconnect(t: Tables): Step
    requires Valid(t)
  {
    DropAll(t, Items(t))
  }

  /** A named room is never empty, so the `if room:` guard of the disconnect loop always passes. */
  lemma NamedRoomsNonEmpty(t: Tables)
    requires Valid(t) && RoomsNamed(t)
    ensures forall i :: 0 <= i < |Items(t)| ==> Items(t)[i].1.room != ""
  {
  }

  /** Once every room is named, a disconnect empties `active_pairs` and
      leaves the queue alone. */
  lemma DisconnectClears(t: Tables)
    requires Valid(t) && RoomsNamed(t)
    ensures Disconnect(t).tables == Tables(t.waiting, map[], [])
  {
    var items := Items(t);
    var s := DropAll(t, items);
    NamedRoomsNonEmpty(t);
    forall k | k in t.pairs ensures k in Removed(items) {
      var i :| 0 <= i < |t.order| && t.order[i] == k;
      RemovedCovers(items, i);
    }
    assert s.tables.pairs == map[];
    EmptyOrder(s.tables);
  }

  /** Once every room is named, a disconnect notifies one room per snapshot
      entry, in dict order: the caller leaves the room, then the room hears
      `partner_disconnected`. */
  lemma DisconnectNotifiesEach(t: Tables)
    requires Valid(t) && RoomsNamed(t)
    ensures var out := Disconnect(t).out;
      && |out| == 2 * |t.order|
      && forall i :: 0 <= i < |t.order| ==>
           out[2 * i] == LeaveRoom(t.pairs[t.order[i]].room)
           && out[2 * i + 1] == Emit(Room(t.pairs[t.order[i]].room), PartnerDisconnected)
  {
    NamedRoomsNonEmpty(t);
    NoticesAt(Items(t));
  }

  /** A valid table has no entries exactly when its key order is empty. */
  lemma EmptyOrder(t: Tables)
    requires Valid(t)
    ensures t.order == [] <==> t.pairs == map[]
  {
    if t.order != [] {
      assert t.order[0] in t.pairs;
    }
  }

  /** A user who joins while alone in the queue is matched with itself
      (`pop(0)` returns the joiner's own id, app.py:40), whatever pairs exist. */
  lemma SelfMatch(t: Tables, u: string)
    requires t.waiting == [u]
    ensures Join(t, u).tables.waiting == []
    ensures Join(t, u).tables.pairs[u] == Pair(u, u + "-" + u)
  {
  }

  /** A user paired again leaves the old partner's entry behind, so pairs are
      not always mutual: after a, b, a, c join in that order (a's second join
      only queues a; c then dequeues it), b still names a as partner while a
      names c. */
  lemma RejoinBreaksSymmetry()
    ensures var t := Join(Join(Join(Join(Empty, "a").tables, "b").tables, "a").tables, "c").tables;
      && t.pairs["b"].partner == "a" && t.pairs["a"].partner == "c"
      && !Symmetric(t)
  {
  }
}
