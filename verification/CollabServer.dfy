/**
 The collaboration server's event handlers (apps/collab/src/server.ts:431-562, 597-620) over live
 rooms and peers. Each handler takes the server exactly one step of the `Collab` machine, so that
 the states the object passes through are always a run of it, and what is proved of runs holds of the object.
 */
module CollabServer {
  import opened Prelude
  import Codec
  import opened Wire
  import Spec = Collab
  import opened Rooms

  type State = Spec.Server<Room, PeerConnection>
  type Event = Spec.Step<Room, PeerConnection>

  ghost function RoomStates(rooms: set<Room>): map<Room, Spec.Room<PeerConnection>>
    reads rooms
  {
    map r | r in rooms :: r.State()
  }

  ghost function PeerStates(peers: set<PeerConnection>): map<PeerConnection, Spec.Peer<Room>>
    reads peers
  {
    map p | p in peers :: p.State()
  }

  /** Only one room has changed, or been added. */
  twostate lemma OneRoomChanged(rooms: set<Room>, new room: Room)
    requires forall r :: r in rooms && r != room ==> unchanged(r)
    ensures RoomStates(rooms + {room}) == old(RoomStates(rooms))[room := room.State()]
  {
  }

  twostate lemma OnePeerChanged(peers: set<PeerConnection>, new peer: PeerConnection)
    requires forall p :: p in peers && p != peer ==> unchanged(p)
    ensures PeerStates(peers + {peer}) == old(PeerStates(peers))[peer := peer.State()]
  {
  }

  class Server {
    const yjs: Yjs
    const registry: RoomRegistry
    var connections: set<PeerConnection>
    var draining: bool

    /** Every room and peer there has been. */
    ghost var allRooms: set<Room>
    ghost var allPeers: set<PeerConnection>

    /** The events so far, and the states they led through. */
    ghost var steps: seq<Event>
    ghost var run: seq<State>

    ghost function Now(): State
      reads this`connections, this`draining, this`allRooms, this`allPeers, registry, allRooms, allPeers
    {
      Spec.Server(
        registry.rooms, RoomStates(allRooms), PeerStates(allPeers), connections, draining, registry.reportedSize)
    }

    ghost predicate Valid()
      reads this, registry, allRooms, allPeers
    {
      Spec.IsRun(run, steps) && run[|steps|] == Now()
    }

    constructor (yjs: Yjs)
      ensures Valid() && steps == [] && this.yjs == yjs && fresh(registry)
    {
      this.yjs := yjs;
      registry := new RoomRegistry();
      connections, draining, allRooms, allPeers := {}, false, {}, {};
      steps, run := [], [Spec.Idle()];
      new;
      assert Now() == Spec.Idle();
    }

    lemma IsWired()
      requires Valid()
      ensures Spec.Wired(Now())
    {
      Spec.RunIsOk(run, steps, |steps|);
    }

    /** Notes that an event has led to the present state. */
    ghost method Record(step: Event)
      requires Spec.IsRun(run, steps) && Spec.StepsTo(run[|steps|], step, Now())
      modifies this`run, this`steps
      ensures Valid() && steps == old(steps) + [step] && run == old(run) + [Now()]
    {
      Spec.ExtendRun(run, steps, step, Now());
      run, steps := run + [Now()], steps + [step];
    }

    /** Acquire, attach, greet. */
    method Join(sessionId: string) returns (peer: PeerConnection, rejoined: bool)
      modifies registry, if sessionId in registry.rooms then {registry.rooms[sessionId]} else {}
      ensures fresh(peer) && registry.rooms == old(registry.rooms)[sessionId := peer.room]
      ensures if sessionId in old(registry.rooms) then
                && peer.room == old(registry.rooms[sessionId]) && registry.reportedSize == old(registry.reportedSize)
                && rejoined == old(registry.rooms[sessionId].joined)
                && peer.room.State() == Spec.Entered(old(registry.rooms[sessionId].State()), peer)
              else
                && fresh(peer.room) && registry.reportedSize == |old(registry.rooms)| + 1
                && !rejoined && peer.room.State() == Spec.Entered(Spec.NewRoom(sessionId), peer)
      ensures peer.State() == Spec.NewPeer(peer.room, peer.room.State(), peer)
    {
      var room := registry.Acquire(sessionId);
      peer := new PeerConnection(room);
      rejoined := registry.Attach(room, peer);
      peer.Greet();
    }

    method Admit(sessionId: string) returns (peer: PeerConnection, rejoined: bool)
      requires Spec.Wired(Now())
      modifies this`connections, this`allRooms, this`allPeers, registry, allRooms
      ensures fresh(peer) && allRooms == old(allRooms) + {peer.room} && allPeers == old(allPeers) + {peer}
      ensures sessionId in old(registry.rooms) || fresh(peer.room)
      ensures Now() == Spec.Accepted(old(Now()), sessionId, peer.room, peer)
      ensures rejoined == (sessionId in old(registry.rooms) && old(registry.rooms[sessionId].joined))
    {
      ghost var before := Now();
      assert sessionId in registry.rooms ==> registry.rooms[sessionId] in before.room;
      peer, rejoined := Join(sessionId);
      assert peer.room.State() == Spec.JoinedRoom(before, sessionId, peer);
      Enrol(peer);
      OneRoomChanged(old(allRooms), peer.room);
      OnePeerChanged(old(allPeers), peer);
    }

    method Enrol(peer: PeerConnection)
      modifies this`connections, this`allRooms, this`allPeers
      ensures connections == old(connections) + {peer}
      ensures allRooms == old(allRooms) + {peer.room} && allPeers == old(allPeers) + {peer}
    {
      connections, allRooms, allPeers := connections + {peer}, allRooms + {peer.room}, allPeers + {peer};
    }

    method Accept(sessionId: string) returns (peer: PeerConnection, rejoined: bool)
      requires Valid() && !draining
      modifies this, registry, allRooms
      ensures Valid() && fresh(peer) && allRooms == old(allRooms) + {peer.room} && allPeers == old(allPeers) + {peer}
      ensures sessionId in old(registry.rooms) || fresh(peer.room)
      ensures steps == old(steps) + [Spec.Accept(sessionId, peer.room, peer)] && run == old(run) + [Now()]
      ensures rejoined == (sessionId in old(registry.rooms) && old(registry.rooms[sessionId].joined))
    {
      IsWired();
      peer, rejoined := Admit(sessionId);
      Record(Spec.Accept(sessionId, peer.room, peer));
    }

    // ---- Frames --------------------------------------------------------------------------------

    method Reply(peer: PeerConnection, sv: Spec.Updates)
      requires peer in allPeers
      modifies peer`sent, peer`declared
      ensures PeerStates(allPeers) ==
              old(PeerStates(allPeers))
                [peer := Spec.Sent(old(peer.State()), [Spec.Step2(peer.room.doc - sv)]).(declared := Some(sv))]
    {
      peer.Send(Spec.Step2(peer.room.doc - sv));
      peer.declared := Some(sv);
    }

    method AnswerSync(peer: PeerConnection, sv: Spec.Updates)
      requires Spec.Wired(Now()) && peer in allPeers
      modifies peer`sent, peer`declared
      ensures Now() == Spec.Handled(old(Now()), peer, Spec.AskSync(sv))
    {
      assert Now().peer[peer].room in Now().room;
      Reply(peer, sv);
    }

    method AnswerPresence(peer: PeerConnection)
      requires Spec.Wired(Now()) && peer in allPeers
      modifies peer
      ensures Now() == Spec.Handled(old(Now()), peer, Spec.QueryPresence)
    {
      assert peer in Now().peer;
      peer.SendPresence(peer.room.lastAwareness);
      OnePeerChanged(allPeers, peer);
      assert allPeers + {peer} == allPeers;
    }

    /** A text frame, or one that cannot be decoded: the socket is closed. */
    method Refuse(peer: PeerConnection)
      requires Spec.Wired(Now()) && peer in allPeers
      modifies peer
      ensures Now() == Spec.Handled(old(Now()), peer, Spec.Undecodable)
    {
      peer.Close();
      OnePeerChanged(allPeers, peer);
      assert allPeers + {peer} == allPeers;
    }

    method Relay(peer: PeerConnection, msg: Spec.Message)
      modifies peer.room.peers`sent
      ensures PeerStates(allPeers) == Spec.Relayed(old(PeerStates(allPeers)), peer.room.peers, msg, peer)
    {
      peer.room.Broadcast(msg, peer);
    }

    method Merge(room: Room, u: Spec.Updates)
      requires room in allRooms
      modifies room`doc
      ensures RoomStates(allRooms) == old(RoomStates(allRooms))[room := old(room.State()).(doc := old(room.doc) + u)]
    {
      room.doc := room.doc + u;
    }

    method Remember(room: Room, peer: PeerConnection, payload: Codec.Bytes)
      requires room in allRooms
      modifies room`lastAwareness
      ensures RoomStates(allRooms) ==
              old(RoomStates(allRooms))
                [room := Spec.Noted(old(room.State()), peer, payload)]
    {
      room.lastAwareness := Spec.Published(room.lastAwareness, peer, payload);
    }

    ghost method NoteReceived(peer: PeerConnection, u: Spec.Updates)
      requires peer in allPeers
      modifies peer`received
      ensures PeerStates(allPeers) ==
              old(PeerStates(allPeers))[peer := old(peer.State()).(received := old(peer.received) + u)]
    {
      peer.received := peer.received + u;
    }

    method RelayData(peer: PeerConnection, u: Spec.Updates)
      requires peer in allPeers
      modifies peer.room.peers`sent, peer`received
      ensures PeerStates(allPeers) ==
              Spec.Relayed(old(PeerStates(allPeers)), peer.room.peers, Spec.Update(u), peer)
                [peer := old(peer.State()).(received := old(peer.received) + u)]
    {
      Relay(peer, Spec.Update(u));
      NoteReceived(peer, u);
    }

    method MergeAndRelay(peer: PeerConnection, u: Spec.Updates)
      requires peer in allPeers && peer.room in allRooms
      modifies peer.room`doc, peer.room.peers`sent, peer`received
      ensures RoomStates(allRooms) ==
              old(RoomStates(allRooms))[peer.room := old(peer.room.State()).(doc := old(peer.room.doc) + u)]
      ensures PeerStates(allPeers) ==
              Spec.Relayed(old(PeerStates(allPeers)), old(peer.room.peers), Spec.Update(u), peer)
                [peer := old(peer.State()).(received := old(peer.received) + u)]
    {
      Merge(peer.room, u);
      RelayData(peer, u);
    }

    method ApplyData(peer: PeerConnection, u: Spec.Updates)
      requires Spec.Wired(Now()) && peer in allPeers
      modifies peer.room`doc, peer.room.peers`sent, peer`received
      ensures Now() == Spec.Handled(old(Now()), peer, Spec.SyncData(u))
    {
      assert Now().peer[peer].room in Now().room;
      MergeAndRelay(peer, u);
    }

    method RememberAndRelay(peer: PeerConnection, payload: Codec.Bytes)
      requires peer.room in allRooms
      modifies peer.room`lastAwareness, peer.room.peers`sent
      ensures RoomStates(allRooms) ==
              old(RoomStates(allRooms))
                [peer.room := Spec.Noted(old(peer.room.State()), peer, payload)]
      ensures PeerStates(allPeers) ==
              Spec.Relayed(old(PeerStates(allPeers)), old(peer.room.peers), Spec.Aware(payload), peer)
    {
      Remember(peer.room, peer, payload);
      Relay(peer, Spec.Aware(payload));
    }

    method Publish(peer: PeerConnection, payload: Codec.Bytes)
      requires Spec.Wired(Now()) && peer in allPeers
      modifies peer.room`lastAwareness, peer.room.peers`sent
      ensures Now() == Spec.Handled(old(Now()), peer, Spec.Presence(payload))
    {
      assert Now().peer[peer].room in Now().room;
      RememberAndRelay(peer, payload);
    }

    method Act(peer: PeerConnection, frame: Codec.Frame)
      requires Spec.Wired(Now()) && peer in allPeers
      modifies peer, peer.room, peer.room.peers
      ensures Now() == Spec.Handled(old(Now()), peer, Meaning(yjs, frame))
    {
      match frame {
        case SyncStep1(bytes) =>
          var sv := yjs.readVector(bytes);
          if sv.Some? {
            AnswerSync(peer, sv.value);
          } else {
            Refuse(peer);
          }
        case Awareness(payload) => Publish(peer, payload);
        case QueryAwareness => AnswerPresence(peer);
        case Ignored(_) =>
        case _ =>
          var update := yjs.readUpdate(frame.update);
          if update.Some? {
            ApplyData(peer, update.value);
          } else {
            Refuse(peer);
          }
      }
    }

    /** Reads a frame, as the `message` handler does, and acts on it. */
    method Dispatch(peer: PeerConnection, data: Codec.Bytes, isBinary: bool)
      requires Spec.Wired(Now()) && peer in allPeers
      modifies peer, peer.room, peer.room.peers
      ensures Now() == Spec.Handled(old(Now()), peer, Interpreted(yjs, data, isBinary))
    {
      if !isBinary {
        Refuse(peer);
        return;
      }
      var frame := Codec.DecodeFrame(data);
      if frame.Ok? {
        Act(peer, frame.value);
      } else {
        Refuse(peer);
      }
    }

    method HandleFrame(peer: PeerConnection, data: Codec.Bytes, isBinary: bool)
      requires Valid() && peer in allPeers && peer.sock != Spec.Closed
      modifies this`run, this`steps, peer, peer.room, peer.room.peers
      ensures Valid()
      ensures steps == old(steps) + [Spec.Frame(peer, Interpreted(yjs, data, isBinary))] && run == old(run) + [Now()]
    {
      IsWired();
      Dispatch(peer, data, isBinary);
      Record(Spec.Frame(peer, Interpreted(yjs, data, isBinary)));
    }

    // ---- The connection's other events -----------------------------------------------------------

    method Leave(peer: PeerConnection)
      requires peer.room in allRooms
      modifies peer.room
      ensures RoomStates(allRooms) ==
              old(RoomStates(allRooms))[peer.room := Spec.Departed(old(peer.room.State()), peer)]
    {
      registry.Detach(peer.room, peer);
      OneRoomChanged(allRooms, peer.room);
      assert allRooms + {peer.room} == allRooms;
    }

    method MarkClosed(peer: PeerConnection)
      requires peer in allPeers
      modifies peer`sock
      ensures PeerStates(allPeers) == old(PeerStates(allPeers))[peer := old(peer.State()).(sock := Spec.Closed)]
    {
      peer.sock := Spec.Closed;
    }

    method Depart(peer: PeerConnection)
      requires peer in allPeers && peer.room in allRooms
      modifies this`connections, peer`sock, peer.room
      ensures connections == old(connections) - {peer}
      ensures PeerStates(allPeers) == old(PeerStates(allPeers))[peer := old(peer.State()).(sock := Spec.Closed)]
      ensures RoomStates(allRooms) ==
              old(RoomStates(allRooms))[peer.room := Spec.Departed(old(peer.room.State()), peer)]
    {
      Strike(peer);
      MarkClosed(peer);
      Leave(peer);
    }

    method Strike(peer: PeerConnection)
      modifies this`connections
      ensures connections == old(connections) - {peer}
    {
      connections := connections - {peer};
    }

    method Forget(peer: PeerConnection)
      requires Spec.Wired(Now()) && peer in allPeers
      modifies this`connections, peer`sock, peer.room
      ensures Now() == Spec.Disconnected(old(Now()), peer)
    {
      assert Now().peer[peer].room in Now().room;
      Depart(peer);
    }

    method OnClose(peer: PeerConnection)
      requires Valid() && peer in allPeers && peer.sock != Spec.Closed
      modifies this`run, this`steps, this`connections, peer`sock, peer.room
      ensures Valid() && steps == old(steps) + [Spec.CloseEvent(peer)] && run == old(run) + [Now()]
    {
      IsWired();
      Forget(peer);
      Record(Spec.CloseEvent(peer));
    }

    /** The socket starts closing on its own, or at the other end. */
    method OnSocketClosing(peer: PeerConnection)
      requires Valid() && peer in allPeers
      modifies this`run, this`steps, peer
      ensures Valid() && steps == old(steps) + [Spec.PeerClosing(peer)] && run == old(run) + [Now()]
    {
      IsWired();
      Refuse(peer);
      Record(Spec.PeerClosing(peer));
    }

    method Revive(peer: PeerConnection)
      requires peer in allPeers
      modifies peer`alive
      ensures Now() == old(Now()).(peer := old(Now()).peer[peer := old(peer.State()).(alive := true)])
    {
      peer.alive := true;
      OnePeerChanged(allPeers, peer);
      assert allPeers + {peer} == allPeers;
    }

    method OnPong(peer: PeerConnection)
      requires Valid() && peer in allPeers
      modifies this`run, this`steps, peer`alive
      ensures Valid() && steps == old(steps) + [Spec.Pong(peer)] && run == old(run) + [Now()]
    {
      IsWired();
      Revive(peer);
      Record(Spec.Pong(peer));
    }

    method Drop(key: string)
      requires key in registry.rooms && registry.rooms[key] in allRooms
      modifies registry, registry.rooms[key]
      ensures registry.rooms == old(registry.rooms) - {key} && registry.reportedSize == |old(registry.rooms) - {key}|
      ensures RoomStates(allRooms) ==
              old(RoomStates(allRooms))
                [old(registry.rooms[key]) := Spec.DestroyedRoom(old(registry.rooms[key].State()))]
    {
      ghost var room := registry.rooms[key];
      registry.Release(key);
      OneRoomChanged(allRooms, room);
      assert allRooms + {room} == allRooms;
    }

    method Release(key: string)
      requires key in registry.rooms && registry.rooms[key] in allRooms
      modifies registry, registry.rooms[key]
      ensures Now() == Spec.Released(old(Now()), key)
    {
      Drop(key);
    }

    method Collect(room: Room)
      requires Spec.Wired(Now()) && room in allRooms
      modifies registry, if room.key in registry.rooms then {registry.rooms[room.key]} else {}
      ensures Now() == Spec.Reaped(old(Now()), room)
    {
      if room.peers == {} && room.key in registry.rooms {
        assert Now().rooms[room.key] in Now().room;
        Release(room.key);
      }
    }

    /** The reaper's timer. */
    method OnReaper(room: Room)
      requires Valid() && room in allRooms && room.reaper
      modifies this`run, this`steps, registry, if room.key in registry.rooms then {registry.rooms[room.key]} else {}
      ensures Valid() && steps == old(steps) + [Spec.Reap(room)] && run == old(run) + [Now()]
    {
      IsWired();
      Collect(room);
      Record(Spec.Reap(room));
    }

    // ---- Heartbeat and drain ---------------------------------------------------------------------

    method Beat()
      modifies connections`sock, connections`alive
      ensures PeerStates(allPeers) == Spec.Beaten(old(Now())).peer
    {
      var todo := connections;
      while todo != {}
        invariant todo <= connections
        invariant forall p :: p in connections ==>
                  p.State() == if p in todo then old(p.State()) else Spec.BeatenPeer(old(p.State()))
        decreases |todo|
      {
        var peer :| peer in todo;
        todo := todo - {peer};
        if !peer.alive {
          peer.Close();
        } else {
          peer.alive := false;
        }
      }
    }

    method BeatOnce()
      modifies connections`sock, connections`alive
      ensures Now() == Spec.Beaten(old(Now()))
    {
      Beat();
    }

    method OnHeartbeat()
      requires Valid() && !draining
      modifies this`run, this`steps, connections`sock, connections`alive
      ensures Valid() && steps == old(steps) + [Spec.Heartbeat] && run == old(run) + [Now()]
    {
      IsWired();
      BeatOnce();
      Record(Spec.Heartbeat);
    }

    method AskAllToClose()
      modifies connections`sock
      ensures PeerStates(allPeers) == Spec.Draining(old(Now())).peer
    {
      var todo := connections;
      while todo != {}
        invariant todo <= connections
        invariant forall p :: p in connections ==>
                  p.State() == if p in todo then old(p.State()) else Spec.ClosingPeer(old(p.State()))
        decreases |todo|
      {
        var peer :| peer in todo;
        todo := todo - {peer};
        peer.Close();
      }
    }

    method BeginDrain()
      modifies connections`sock, this`draining
      ensures Now() == Spec.Draining(old(Now()))
    {
      StopUpgrades();
      AskAllToClose();
    }

    method StopUpgrades()
      modifies this`draining
      ensures draining
    {
      draining := true;
    }

    /** The first half of `close`: the drain. A second call does nothing. */
    method Close()
      requires Valid()
      modifies this`run, this`steps, connections`sock, this`draining
      ensures Valid() && draining
      ensures if old(draining) then Now() == old(Now()) && steps == old(steps) && run == old(run)
              else steps == old(steps) + [Spec.Drain] && run == old(run) + [Now()]
    {
      if draining {
        return;
      }
      IsWired();
      BeginDrain();
      Record(Spec.Drain);
    }
  }
}
