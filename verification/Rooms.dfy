/**
 Rooms, their registry and the peers attached to them (apps/collab/src/rooms.ts and the
 `PeerConnection` of server.ts), as the objects the handlers update in place. `State` is an object's
 value in `Collab`, whose step functions say what each method does.
 */
module Rooms {
  import opened Prelude
  import opened Spec = Collab

  /**
   One connection. `sent` is what has been handed to the socket; `declared` and `received` what the
   peer told the server.
   */
  class PeerConnection {
    const room: Room
    var sock: Sock
    var alive: bool
    var sent: seq<Message>
    ghost var declared: Option<Updates>
    ghost var received: Updates

    constructor (room: Room)
      ensures this.room == room && State() == Peer(room, Open, true, [], None, {})
    {
      this.room := room;
      sock, alive, sent, declared, received := Open, true, [], None, {};
    }

    ghost function State(): Spec.Peer<Room>
      reads this
    {
      Peer(room, sock, alive, sent, declared, received)
    }

    method Send(msg: Message)
      modifies this`sent
      ensures State() == Sent(old(State()), [msg])
    {
      if sock != Open {
        return;
      }
      sent := sent + [msg];
    }

    /** `socket.close` and `socket.terminate`: the close event comes later. */
    method Close()
      modifies this`sock
      ensures State() == ClosingPeer(old(State()))
    {
      if sock == Open {
        sock := Closing;
      }
    }

    /** Sends what the others last published. */
    method SendPresence(published: seq<(PeerConnection, Bytes)>)
      modifies this`sent
      ensures State() == Sent(old(State()), Replay(published, this))
    {
      for i := 0 to |published|
        invariant State() == Sent(old(State()), Replay(published[..i], this))
      {
        assert published[..i + 1][..i] == published[..i];
        if published[i].0 != this {
          Send(Aware(published[i].1));
        }
      }
      assert published[..|published|] == published;
    }

    /** What a peer is sent on arrival: the opening of the sync handshake, then who is there. */
    method Greet()
      modifies this`sent
      ensures State() == Sent(old(State()), [Step1(room.doc)] + Replay(room.lastAwareness, this))
    {
      Send(Step1(room.doc));
      SendPresence(room.lastAwareness);
    }
  }

  class Room {
    const key: string
    var doc: Updates
    var peers: set<PeerConnection>
    var lastAwareness: seq<(PeerConnection, Bytes)>
    var joined: bool
    var reaper: bool
    var destroyed: bool

    constructor (key: string)
      ensures State() == NewRoom(key)
    {
      this.key := key;
      doc, peers, lastAwareness, joined, reaper, destroyed := {}, {}, [], false, false, false;
    }

    ghost function State(): Spec.Room<PeerConnection>
      reads this
    {
      Spec.Room.Room(key, doc, peers, lastAwareness, joined, reaper, destroyed)
    }

    /** Sends a frame to every peer but the origin, whatever order the peers are visited in. */
    method Broadcast(msg: Message, origin: PeerConnection)
      modifies peers`sent
      ensures forall q :: q in peers && q != origin ==> q.State() == Sent(old(q.State()), [msg])
      ensures origin.State() == old(origin.State())
    {
      var todo := peers;
      while todo != {}
        invariant todo <= peers
        invariant forall q :: q in peers && q != origin && q !in todo ==> q.State() == Sent(old(q.State()), [msg])
        invariant forall q :: q in todo ==> q.State() == old(q.State())
        invariant origin.State() == old(origin.State())
        decreases |todo|
      {
        var peer :| peer in todo;
        todo := todo - {peer};
        if peer != origin {
          peer.Send(msg);
        }
      }
    }

    method Destroy()
      modifies this
      ensures State() == DestroyedRoom(old(State()))
    {
      reaper, peers, lastAwareness, destroyed := false, {}, [], true;
    }
  }

  class RoomRegistry {
    var rooms: map<string, Room>
    var reportedSize: int

    constructor ()
      ensures rooms == map[] && reportedSize == 0
    {
      rooms, reportedSize := map[], 0;
    }

    method Acquire(key: string) returns (room: Room)
      modifies this, if key in rooms then {rooms[key]} else {}
      ensures rooms == old(rooms)[key := room]
      ensures if key in old(rooms) then
                && room == old(rooms[key]) && room.State() == old(rooms[key].State()).(reaper := false)
                && reportedSize == old(reportedSize)
              else
                fresh(room) && room.State() == NewRoom(key) && reportedSize == |old(rooms)| + 1
    {
      if key in rooms {
        room := rooms[key];
        room.reaper := false;
        return;
      }
      room := new Room(key);
      SizeAfterSet(rooms, key, room);
      rooms := rooms[key := room];
      reportedSize := |rooms|;
    }

    method Attach(room: Room, peer: PeerConnection) returns (rejoin: bool)
      modifies room
      ensures rejoin == old(room.joined)
      ensures room.State() == Entered(old(room.State()), peer)
    {
      rejoin := room.joined;
      room.reaper, room.peers, room.joined := false, room.peers + {peer}, true;
    }

    method Detach(room: Room, peer: PeerConnection)
      modifies room
      ensures room.State() == Departed(old(room.State()), peer)
    {
      room.peers, room.lastAwareness := room.peers - {peer}, Retracted(room.lastAwareness, peer);
      if room.peers == {} {
        room.reaper := true;
      }
    }

    method Release(key: string)
      modifies this, if key in rooms then {rooms[key]} else {}
      ensures rooms == old(rooms) - {key}
      ensures key in old(rooms) ==> old(rooms[key]).State() == DestroyedRoom(old(rooms[key].State()))
      ensures reportedSize == if key in old(rooms) then |rooms| else old(reportedSize)
    {
      if key !in rooms {
        return;
      }
      var room := rooms[key];
      rooms := rooms - {key};
      room.Destroy();
      reportedSize := |rooms|;
    }
  }
}
