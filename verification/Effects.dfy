/**
 What each event does, and to whom (apps/collab/src/server.ts:431-620): for every step of every run,
 the frames each peer is sent, the sockets that close, and what stays as it was.
 */
module Effects {
  import opened Prelude
  import opened Collab
  import opened Presence

  /** `q` is another connected peer of the session, with an open socket. */
  ghost predicate Hears<R, P>(s: Server<R, P>, p: P, q: P) {
    && p in s.peer && q in s.peer && q != p
    && q in s.connections && s.peer[q].room == s.peer[p].room && s.peer[q].sock == Open
  }

  /** A peer's record but for what it has been sent and what it has told the server. */
  ghost predicate SameConnection<R>(a: Peer<R>, b: Peer<R>) {
    b.room == a.room && b.sock == a.sock && b.alive == a.alive
  }

  /** Everything but the peers' records and the rooms. */
  ghost predicate SameRegistry<R, P>(s: Server<R, P>, t: Server<R, P>) {
    && t.rooms == s.rooms && t.connections == s.connections
    && t.draining == s.draining && t.reportedSize == s.reportedSize
  }

  lemma AttachedIffConnected<R, P>(s: Server<R, P>, p: P, q: P)
    requires RoomsOk(s) && p in s.peer && s.peer[p].sock != Closed && q in s.peer
    ensures s.peer[p].room in s.room
    ensures q in s.room[s.peer[p].room].peers <==> q in s.connections && s.peer[q].room == s.peer[p].room
  {
    assert PeerOk(s, p) && PeerOk(s, q) && RoomOk(s, s.peer[p].room);
  }

  // ---- Frames that are relayed --------------------------------------------------------------------

  lemma DataReaches<R, P>(s: Server<R, P>, p: P, u: Updates, t: Server<R, P>, q: P)
    requires RoomsOk(s) && p in s.peer && s.peer[p].sock != Closed && t == Handled(s, p, SyncData(u)) && q in s.peer
    ensures q in t.peer && SameConnection(s.peer[q], t.peer[q])
    ensures t.peer[q].sent == s.peer[q].sent + if Hears(s, p, q) then [Update(u)] else []
  {
    AttachedIffConnected(s, p, q);
  }

  lemma PresenceReaches<R, P>(s: Server<R, P>, p: P, payload: Bytes, t: Server<R, P>, q: P)
    requires RoomsOk(s) && p in s.peer && s.peer[p].sock != Closed && q in s.peer
    requires t == Handled(s, p, Inbound.Presence(payload))
    ensures q in t.peer && SameConnection(s.peer[q], t.peer[q])
    ensures t.peer[q].sent == s.peer[q].sent + if Hears(s, p, q) then [Aware(payload)] else []
  {
    AttachedIffConnected(s, p, q);
  }

  /** Sync data joins the sender's document, and reaches every other open peer of the session, once, and nobody else. */
  lemma SyncDataIsRelayed<R, P>(run: seq<Server<R, P>>, steps: seq<Step<R, P>>, i: nat, p: P, u: Updates)
    requires IsRun(run, steps) && i < |steps| && steps[i] == Frame(p, SyncData(u))
    ensures
      var s, t := run[i], run[i + 1];
      && SameRegistry(s, t) && p in s.peer && s.peer[p].room in s.room && t.peer.Keys == s.peer.Keys
      && t.room == s.room[s.peer[p].room := s.room[s.peer[p].room].(doc := s.room[s.peer[p].room].doc + u)]
      && forall q :: q in s.peer ==>
           && SameConnection(s.peer[q], t.peer[q])
           && t.peer[q].sent == s.peer[q].sent + if Hears(s, p, q) then [Update(u)] else []
  {
    RunIsOk(run, steps, i);
    assert StepsAt(run, steps, i);
    FrameKeepsPeersMap(run[i], p, SyncData(u), run[i + 1]);
    forall q | q in run[i].peer {
      DataReaches(run[i], p, u, run[i + 1], q);
    }
  }

  /** Presence is kept for the room, and reaches every other open peer of the session, once, and nobody else. */
  lemma PresenceIsRelayed<R, P>(run: seq<Server<R, P>>, steps: seq<Step<R, P>>, i: nat, p: P, payload: Bytes)
    requires IsRun(run, steps) && i < |steps| && steps[i] == Frame(p, Inbound.Presence(payload))
    ensures
      var s, t := run[i], run[i + 1];
      && SameRegistry(s, t) && p in s.peer && s.peer[p].room in s.room && t.peer.Keys == s.peer.Keys
      && s.peer[p].room in t.room && (p, payload) in t.room[s.peer[p].room].lastAwareness
      && t.room ==
           s.room[s.peer[p].room := s.room[s.peer[p].room].(lastAwareness := t.room[s.peer[p].room].lastAwareness)]
      && forall q :: q in s.peer ==>
           && SameConnection(s.peer[q], t.peer[q])
           && t.peer[q].sent == s.peer[q].sent + if Hears(s, p, q) then [Aware(payload)] else []
  {
    RunIsOk(run, steps, i);
    RunIsCurrent(run, steps, i);
    assert StepsAt(run, steps, i);
    FrameKeepsPeersMap(run[i], p, Inbound.Presence(payload), run[i + 1]);
    PublishedIs(run[i].room[run[i].peer[p].room].lastAwareness, p, payload);
    forall q | q in run[i].peer {
      PresenceReaches(run[i], p, payload, run[i + 1], q);
    }
  }

  // ---- Frames that are answered, dropped or refused ------------------------------------------------

  /** Only the sender's record changes. */
  ghost predicate OnlyPeerChanged<R, P>(s: Server<R, P>, t: Server<R, P>, p: P) {
    && SameRegistry(s, t) && t.room == s.room && p in s.peer && t.peer.Keys == s.peer.Keys
    && forall q :: q in s.peer && q != p ==> t.peer[q] == s.peer[q]
  }

  /** A step 1 is answered, to its sender alone, with what the sender lacks of the document. */
  lemma SyncIsAnswered<R, P>(run: seq<Server<R, P>>, steps: seq<Step<R, P>>, i: nat, p: P, sv: Updates)
    requires IsRun(run, steps) && i < |steps| && steps[i] == Frame(p, AskSync(sv))
    ensures
      var s, t := run[i], run[i + 1];
      && OnlyPeerChanged(s, t, p) && s.peer[p].room in s.room
      && SameConnection(s.peer[p], t.peer[p]) && t.peer[p].declared == Some(sv)
      && t.peer[p].sent ==
           s.peer[p].sent + if s.peer[p].sock == Open then [Step2(s.room[s.peer[p].room].doc - sv)] else []
  {
    RunIsOk(run, steps, i);
    assert StepsAt(run, steps, i);
  }

  lemma {:induction false} ReplayIs<P>(l: seq<(P, Bytes)>, p: P)
    ensures Replay(l, p) == Frames(Retracted(l, p))
  {
    if l != [] {
      var n := |l| - 1;
      ReplayIs(l[..n], p);
      RetractedLast(l, p);
      var last := if l[n].0 == p then [] else [l[n]];
      assert Frames(Retracted(l[..n], p) + last) == Frames(Retracted(l[..n], p)) + Frames(last);
    }
  }

  lemma {:induction false} RetractedLast<P>(l: seq<(P, Bytes)>, p: P)
    requires l != []
    ensures Retracted(l, p) == Retracted(l[..|l| - 1], p) + if l[|l| - 1].0 == p then [] else [l[|l| - 1]]
  {
    if |l| > 1 {
      RetractedLast(l[1..], p);
      assert l[1..][..|l| - 2] == l[..|l| - 1][1..];
    }
  }

  /** A presence query is answered, to its sender alone, with the latest payload of each other publisher in the room. */
  lemma QueryIsAnswered<R, P>(run: seq<Server<R, P>>, steps: seq<Step<R, P>>, i: nat, p: P)
      returns (others: seq<(P, Bytes)>)
    requires IsRun(run, steps) && i < |steps| && steps[i] == Frame(p, QueryPresence)
    ensures
      var s, t := run[i], run[i + 1];
      && OnlyPeerChanged(s, t, p) && s.peer[p].room in s.room && SameConnection(s.peer[p], t.peer[p])
      && t.peer[p].sent == s.peer[p].sent + (if s.peer[p].sock == Open then Frames(others) else [])
      && OneEach(others)
      && forall q, x ::
           (q, x) in others <==> q in s.room[s.peer[p].room].peers && q != p && LastPublished(steps[..i], q) == Some(x)
  {
    RunIsOk(run, steps, i);
    RunIsCurrent(run, steps, i);
    assert StepsAt(run, steps, i);
    var room := run[i].room[run[i].peer[p].room];
    others := Retracted(room.lastAwareness, p);
    QueryReplays(run[i], p, run[i + 1]);
    OthersInRoom(room, steps[..i], p);
  }

  lemma QueryReplays<R, P>(s: Server<R, P>, p: P, t: Server<R, P>)
    requires Wired(s) && p in s.peer && t == Handled(s, p, QueryPresence)
    ensures OnlyPeerChanged(s, t, p) && SameConnection(s.peer[p], t.peer[p])
    ensures
      var others := Retracted(s.room[s.peer[p].room].lastAwareness, p);
      t.peer[p].sent == s.peer[p].sent + if s.peer[p].sock == Open then Frames(others) else []
  {
    ReplayIs(s.room[s.peer[p].room].lastAwareness, p);
  }

  lemma OthersInRoom<R, P>(room: Room<P>, steps: seq<Step<R, P>>, p: P)
    requires Current(room, steps)
    ensures OneEach(Retracted(room.lastAwareness, p))
    ensures forall q, x :: (q, x) in Retracted(room.lastAwareness, p)
                           <==> q in room.peers && q != p && LastPublished(steps, q) == Some(x)
  {
    RetractedIs(room.lastAwareness, p);
  }

  /**
   A frame with an unknown tag changes nothing; a text frame or one that cannot be decoded only closes
   its sender's socket.
   */
  lemma StrangeFramesAreHarmless<R, P>(run: seq<Server<R, P>>, steps: seq<Step<R, P>>, i: nat, p: P, frame: Inbound)
    requires IsRun(run, steps) && i < |steps| && steps[i] == Frame(p, frame)
    requires frame.Unknown? || frame.Undecodable? || frame.NotBinary?
    ensures
      var s, t := run[i], run[i + 1];
      && (frame.Unknown? ==> t == s)
      && (!frame.Unknown? ==>
            && OnlyPeerChanged(s, t, p) && t.peer[p].sock != Open
            && t.peer[p] == s.peer[p].(sock := t.peer[p].sock))
  {
    assert StepsAt(run, steps, i);
  }

  // ---- Connections that come and go ----------------------------------------------------------------

  /** A new peer is connected, open and alive, in the room now held under its key, which counts as joined. */
  lemma AcceptConnects<R, P>(run: seq<Server<R, P>>, steps: seq<Step<R, P>>, i: nat)
    requires IsRun(run, steps) && i < |steps| && steps[i].Accept?
    ensures
      var s, t, p, key := run[i], run[i + 1], steps[i].newPeer, steps[i].key;
      && t.connections == s.connections + {p} && t.peer.Keys == s.peer.Keys + {p} && t.draining == s.draining
      && (forall q :: q in s.peer ==> t.peer[q] == s.peer[q])
      && t.peer[p].sock == Open && t.peer[p].alive && t.peer[p].declared.None? && t.peer[p].received == {}
      && key in t.rooms && t.rooms[key] == t.peer[p].room && t.rooms == s.rooms[key := t.rooms[key]]
      && (key in s.rooms ==> t.rooms[key] == s.rooms[key])
      && t.rooms[key] in t.room && p in t.room[t.rooms[key]].peers && t.room[t.rooms[key]].joined
      && (key !in s.rooms ==> t.room[t.rooms[key]].doc == {} && t.room[t.rooms[key]].peers == {p})
  {
    RunIsOk(run, steps, i);
    assert StepsAt(run, steps, i);
  }

  /** The close event drops the connection and its presence; the others, and the document, stay. */
  lemma CloseDisconnects<R, P>(run: seq<Server<R, P>>, steps: seq<Step<R, P>>, i: nat, p: P)
    requires IsRun(run, steps) && i < |steps| && steps[i] == CloseEvent(p)
    ensures
      var s, t := run[i], run[i + 1];
      && p in s.peer && s.peer[p].room in s.room && t.rooms == s.rooms && t.draining == s.draining
      && t.connections == s.connections - {p}
      && t.peer == s.peer[p := s.peer[p].(sock := Closed)]
      && var a, r := s.room[s.peer[p].room], s.peer[p].room;
         && t.room.Keys == s.room.Keys && (forall x :: x in s.room && x != r ==> t.room[x] == s.room[x])
         && t.room[r].peers == a.peers - {p} && t.room[r].doc == a.doc && t.room[r].joined == a.joined
         && (t.room[r].reaper <==> a.peers - {p} == {})
  {
    RunIsOk(run, steps, i);
    RunIsOk(run, steps, i + 1);
    assert StepsAt(run, steps, i);
    assert PeerOk(run[i], p);
    assert RoomOk(run[i], run[i].peer[p].room);
  }

  /** A reaper that fires destroys its room and frees the key; no peer and no other room is touched. */
  lemma ReapDestroys<R, P>(run: seq<Server<R, P>>, steps: seq<Step<R, P>>, i: nat, r: R)
    requires IsRun(run, steps) && i < |steps| && steps[i] == Reap(r)
    ensures
      var s, t := run[i], run[i + 1];
      && r in s.room && r in t.room && t.room[r].destroyed && t.room.Keys == s.room.Keys
      && s.room[r].key in s.rooms && t.rooms == s.rooms - {s.room[r].key}
      && t.peer == s.peer && t.connections == s.connections && t.draining == s.draining
      && forall x :: x in s.room && x != r ==> t.room[x] == s.room[x]
  {
    RunIsOk(run, steps, i);
    assert StepsAt(run, steps, i);
    assert RoomOk(run[i], r);
  }

  // ---- Heartbeat, pong and drain --------------------------------------------------------------------

  /** A heartbeat cuts exactly the connections that left the last one unanswered, and marks the others. */
  lemma HeartbeatCutsTheSilent<R, P>(run: seq<Server<R, P>>, steps: seq<Step<R, P>>, i: nat, p: P)
    requires IsRun(run, steps) && i < |steps| && steps[i].Heartbeat? && p in run[i].peer
    ensures
      var s, t := run[i], run[i + 1];
      && t.room == s.room && SameRegistry(s, t) && p in t.peer
      && var a, b := s.peer[p], t.peer[p];
         && b == a.(sock := b.sock, alive := b.alive)
         && (p !in s.connections ==> b == a)
         && (p in s.connections ==> !b.alive)
         && (p in s.connections && a.sock == Open ==> (b.sock != Open <==> !a.alive))
         && (a.sock != Open ==> b.sock == a.sock)
  {
    assert StepsAt(run, steps, i);
  }

  lemma PongRevives<R, P>(run: seq<Server<R, P>>, steps: seq<Step<R, P>>, i: nat, p: P)
    requires IsRun(run, steps) && i < |steps| && steps[i] == Pong(p)
    ensures
      var s, t := run[i], run[i + 1];
      OnlyPeerChanged(s, t, p) && t.peer[p] == s.peer[p].(alive := true)
  {
    assert StepsAt(run, steps, i);
  }

  /** The drain closes every open connection and sends nothing; from then on nobody is accepted. */
  lemma DrainClosesAll<R, P>(run: seq<Server<R, P>>, steps: seq<Step<R, P>>, i: nat, j: nat)
    requires IsRun(run, steps) && i < j <= |steps| && steps[i].Drain?
    ensures
      var s, t := run[i], run[i + 1];
      && t.draining && t.room == s.room && t.rooms == s.rooms
      && t.connections == s.connections && t.peer.Keys == s.peer.Keys
      && forall p :: p in s.peer ==>
           && t.peer[p] == s.peer[p].(sock := t.peer[p].sock)
           && (p in s.connections ==> t.peer[p].sock != Open) && (p !in s.connections ==> t.peer[p] == s.peer[p])
    ensures run[j].draining && run[j].peer.Keys == run[i].peer.Keys
    decreases j
  {
    assert StepsAt(run, steps, i);
    if i + 1 < j {
      DrainClosesAll(run, steps, i, j - 1);
      assert StepsAt(run, steps, j - 1);
      DrainedStays(run[j - 1], steps[j - 1], run[j - 1 + 1]);
    }
  }

  lemma DrainedStays<R, P>(s: Server<R, P>, step: Step<R, P>, t: Server<R, P>)
    requires StepsTo(s, step, t) && s.draining
    ensures t.draining && t.peer.Keys == s.peer.Keys
  {
    if step.Frame? {
      FrameKeepsPeersMap(s, step.p, step.frame, t);
    }
  }

  // ---- Rejoining --------------------------------------------------------------------------------------

  lemma RoomStaysJoined<R, P>(s: Server<R, P>, step: Step<R, P>, t: Server<R, P>, r: R)
    requires RoomsOk(s) && StepsTo(s, step, t) && r in t.room && (r in s.room ==> s.room[r].joined)
    ensures t.room[r].joined
  {
    if r in s.room {
      StepKeepsDocument(s, step, t, r);
    } else if !step.Accept? {
      RoomsAreKept(s, step, t);
    }
  }

  ghost predicate AllJoined<R, P>(s: Server<R, P>) {
    forall r :: r in s.room ==> s.room[r].joined
  }

  lemma StepKeepsJoined<R, P>(s: Server<R, P>, step: Step<R, P>, t: Server<R, P>)
    requires RoomsOk(s) && StepsTo(s, step, t) && AllJoined(s)
    ensures AllJoined(t)
  {
    forall r | r in t.room
      ensures t.room[r].joined
    {
      RoomStaysJoined(s, step, t, r);
    }
  }

  /** Every room there has been was joined, so an arrival is a rejoin exactly when its key is held. */
  lemma {:induction false} EveryRoomWasJoined<R, P>(run: seq<Server<R, P>>, steps: seq<Step<R, P>>, i: nat)
    requires IsRun(run, steps) && i < |run|
    ensures AllJoined(run[i])
  {
    if i > 0 {
      EveryRoomWasJoined(run, steps, i - 1);
      RunIsOk(run, steps, i - 1);
      assert StepsAt(run, steps, i - 1);
      StepKeepsJoined(run[i - 1], steps[i - 1], run[i - 1 + 1]);
    }
  }
}
