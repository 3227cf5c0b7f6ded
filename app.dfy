/** The signalling server of app.py: the module-level `waiting_users` and
    `active_pairs` as fields of one object, and each Socket.IO handler as a
    method that updates them in place and records what it sends. */
module App {
  import opened Rooms
  import opened Signaling

  class Server {
    /** `waiting_users`: ids waiting for a partner, oldest first. */
    var waiting: seq<string>
    /** `active_pairs`: each paired user's partner and room. */
    var pairs: map<string, Pair>
    /** The insertion order of the keys of `active_pairs`. */
    var order: seq<string>
    /** Everything the handlers have sent so far, in order. */
    var events: seq<Event>

    function State(): Tables
      reads this
    {
      Tables(waiting, pairs, order)
    }

    /** The invariant every handler keeps: the key order matches the dict,
        every room is the room name of its pair, and at most one user waits. */
    ghost predicate Valid()
      reads this
    {
      Signaling.Valid(State()) && RoomsNamed(State()) && |waiting| <= 1
    }

    /** Server start-up: both tables empty (app.py:18-19). */
    constructor ()
      ensures Valid()
      ensures State() == Empty && events == []
    {
      waiting, pairs, order, events := [], map[], [], [];
    }

    /** `active_pairs[k] = v`. */
    method Assign(k: string, v: Pair)
      modifies this`pairs, this`order
      ensures State() == Signaling.Assign(old(State()), k, v)
    {
      if k !in pairs {
        order := order + [k];
      }
      pairs := pairs[k := v];
    }

    /** `del active_pairs[k]`. */
    method Delete(k: string)
      requires k in pairs
      modifies this`pairs, this`order
      ensures State() == DeleteIfPresent(old(State()), k)
    {
      pairs := pairs - {k};
      order := Without(order, k);
    }

    /** `on_join` (app.py:34-54). */
    method OnJoin(u: string)
      requires Valid()
      modifies this
      ensures Valid()
      ensures State() == Join(old(State()), u).tables
      ensures events == old(events) + Join(old(State()), u).out
    {
      ghost var t0, e0 := State(), events;
      ghost var s := Join(t0, u);
      if |waiting| > 0 {
        var p := waiting[0];
        waiting := waiting[1..];
        var room := RoomName(u, p);
        events := events + [JoinRoom(room)];
        ghost var t1 := Signaling.Assign(Tables(t0.waiting[1..], t0.pairs, t0.order), u, Pair(p, room));
        Assign(u, Pair(p, room));
        assert State() == t1;
        Assign(p, Pair(u, room));
        assert State() == Signaling.Assign(t1, p, Pair(u, room));
        var starts := [Emit(User(u), ChatStart(room, true)), Emit(User(p), ChatStart(room, false))];
        events := events + starts;
        ConcatAssoc(e0, [JoinRoom(room)], starts);
        assert [JoinRoom(room)] + starts == s.out;
      } else {
        waiting := waiting + [u];
        events := events + [Emit(Caller, Waiting)];
      }
      assert State() == s.tables;
      JoinKeepsRoomsNamed(t0, u);
    }

    /** `handle_message` (app.py:56-63): the tables are left as they are. */
    method HandleMessage(u: string, text: string)
      requires Valid()
      modifies this`events
      ensures Valid()
      ensures events == old(events) + ToRoom(State(), u, Message(text))
    {
      if u in pairs {
        var room := pairs[u].room;
        events := events + [Emit(Room(room), Message(text))];
      }
    }

    /** `handle_video_offer` (app.py:65-70): the tables are left as they are. */
    method HandleVideoOffer(u: string, offer: string)
      requires Valid()
      modifies this`events
      ensures Valid()
      ensures events == old(events) + ToPartner(State(), u, VideoOffer(offer))
    {
      if u in pairs {
        var partner := pairs[u].partner;
        events := events + [Emit(User(partner), VideoOffer(offer))];
      }
    }

    /** `handle_video_answer` (app.py:72-77): the tables are left as they are. */
    method HandleVideoAnswer(u: string, answer: string)
      requires Valid()
      modifies this`events
      ensures Valid()
      ensures events == old(events) + ToPartner(State(), u, VideoAnswer(answer))
    {
      if u in pairs {
        var partner := pairs[u].partner;
        events := events + [Emit(User(partner), VideoAnswer(answer))];
      }
    }

    /** `handle_ice_candidate` (app.py:79-84): the tables are left as they are. */
    method HandleIceCandidate(u: string, candidate: string)
      requires Valid()
      modifies this`events
      ensures Valid()
      ensures events == old(events) + ToPartner(State(), u, IceCandidate(candidate))
    {
      if u in pairs {
        var partner := pairs[u].partner;
        events := events + [Emit(User(partner), IceCandidate(candidate))];
      }
    }

    /** One pass of the loop body of `handle_disconnect` (app.py:89-101). */
    method DropEntry(entry: (string, Pair))
      modifies this
      ensures State() == Signaling.DropEntry(old(State()), entry).tables
      ensures events == old(events) + Signaling.DropEntry(old(State()), entry).out
    {
      var (k, v) := entry;
      if v.room != "" {
        events := events + [LeaveRoom(v.room), Emit(Room(v.room), PartnerDisconnected)];
        if k in pairs {
          Delete(k);
        }
        if v.partner in pairs {
          Delete(v.partner);
        }
      }
    }

    /** The `for` loop of `handle_disconnect` (app.py:88-101) over a snapshot
        of the pair table. */
    method DropEach(items: seq<(string, Pair)>)
      modifies this
      ensures State() == DropAll(old(State()), items).tables
      ensures events == old(events) + DropAll(old(State()), items).out
    {
      ghost var t0, e0 := State(), events;
      var i := 0;
      assert items[..0] == [];
      while i < |items|
        invariant 0 <= i <= |items|
        invariant State() == DropAll(t0, items[..i]).tables
        invariant events == e0 + DropAll(t0, items[..i]).out
      {
        DropAllStep(t0, items, i);
        ghost var before := DropAll(t0, items[..i]);
        ghost var step := Signaling.DropEntry(before.tables, items[i]);
        DropEntry(items[i]);
        ConcatAssoc(e0, before.out, step.out);
        i := i + 1;
      }
      assert items[..i] == items;
    }

    /** `handle_disconnect` (app.py:86-101): walks a snapshot of the pair
        table, notifying each room and deleting both sides of each pair. */
    method HandleDisconnect()
      requires Valid()
      modifies this
      ensures Valid()
      ensures State() == Disconnect(old(State())).tables
      ensures events == old(events) + Disconnect(old(State())).out
      // Every pair is gone and the queue is untouched.
      ensures pairs == map[] && order == [] && waiting == old(waiting)
    {
      DisconnectClears(State());
      var items := Items(State());
      DropEach(items);
    }
  }
}
