/**
 Presence (apps/collab/src/rooms.ts:45-46, server.ts:454-458 and 509-520): a room remembers what each
 attached peer last published, and greets whoever joins with exactly that.
 */
module Presence {
  import opened Prelude
  import opened Collab

  /** What a peer last published, by the steps of a run. */
  ghost function LastPublished<R, P>(steps: seq<Step<R, P>>, p: P): Option<Bytes> {
    if steps == [] then None
    else
      var last := steps[|steps| - 1];
      if last.Frame? && last.p == p && last.frame.Presence? then Some(last.frame.payload)
      else LastPublished(steps[..|steps| - 1], p)
  }

  ghost predicate OneEach<P>(l: seq<(P, Bytes)>) {
    forall i, j :: 0 <= i < j < |l| ==> l[i].0 != l[j].0
  }

  /** The room's record is one entry for each attached peer that has published: its latest payload. */
  ghost predicate Current<R, P>(room: Room<P>, steps: seq<Step<R, P>>) {
    && OneEach(room.lastAwareness)
    && (forall e :: e in room.lastAwareness ==> e.0 in room.peers && LastPublished(steps, e.0) == Some(e.1))
    && (forall q :: q in room.peers && LastPublished(steps, q).Some? ==>
         (q, LastPublished(steps, q).value) in room.lastAwareness)
  }

  // ---- The map's operations ------------------------------------------------------------------------

  lemma {:induction false} PublishedIs<P>(l: seq<(P, Bytes)>, p: P, payload: Bytes)
    requires OneEach(l)
    ensures OneEach(Published(l, p, payload))
    ensures forall e :: e in Published(l, p, payload) <==> if e.0 == p then e.1 == payload else e in l
  {
    if l != [] {
      var out := Published(l, p, payload);
      assert forall e :: e in l <==> e == l[0] || e in l[1..];
      if l[0].0 == p {
        assert forall e :: e in out <==> e == (p, payload) || e in l[1..];
      } else {
        PublishedIs(l[1..], p, payload);
        assert forall e :: e in out <==> e == l[0] || e in Published(l[1..], p, payload);
        forall j | 1 <= j < |out|
          ensures out[j].0 != l[0].0
        {
          assert out[j] in Published(l[1..], p, payload);
        }
      }
    }
  }

  /**
   Publishing again keeps one's place, and publishing first takes the last: the order is that of first
   publication.
   */
  lemma {:induction false} PublishedInPlace<P>(l: seq<(P, Bytes)>, p: P, payload: Bytes)
    ensures |l| <= |Published(l, p, payload)| <= |l| + 1
    ensures forall i :: 0 <= i < |l| ==> Published(l, p, payload)[i].0 == l[i].0
    ensures |Published(l, p, payload)| == |l| + 1 ==> Published(l, p, payload)[|l|] == (p, payload)
  {
    if l != [] && l[0].0 != p {
      PublishedInPlace(l[1..], p, payload);
      var out := Published(l, p, payload);
      assert forall i :: 1 <= i < |out| ==> out[i] == Published(l[1..], p, payload)[i - 1];
      assert forall i :: 1 <= i < |l| ==> l[i] == l[1..][i - 1];
    }
  }

  lemma {:induction false} RetractedIs<P>(l: seq<(P, Bytes)>, p: P)
    requires OneEach(l)
    ensures OneEach(Retracted(l, p))
    ensures forall i :: 0 <= i < |Retracted(l, p)| ==> Retracted(l, p)[i].0 != p && Retracted(l, p)[i] in l
    ensures forall e :: e in l && e.0 != p ==> e in Retracted(l, p)
  {
    if l != [] {
      var out, rest := Retracted(l, p), Retracted(l[1..], p);
      RetractedIs(l[1..], p);
      assert forall e :: e in l <==> e == l[0] || e in l[1..];
      assert forall e :: e in out <==> (l[0].0 != p && e == l[0]) || e in rest;
      if l[0].0 != p {
        forall j | 1 <= j < |out|
          ensures out[j].0 != l[0].0
        {
          assert out[j] in rest;
        }
      }
    }
  }

  // ---- The invariant -------------------------------------------------------------------------------

  ghost predicate PresenceOk<R, P>(s: Server<R, P>, steps: seq<Step<R, P>>) {
    && (forall r :: r in s.room ==> Current(s.room[r], steps))
    && (forall i :: 0 <= i < |steps| && steps[i].Frame? ==> steps[i].p in s.peer)
  }

  lemma {:induction false} StrangerHasNotPublished<R, P>(steps: seq<Step<R, P>>, p: P)
    requires forall i :: 0 <= i < |steps| ==> !(steps[i].Frame? && steps[i].p == p)
    ensures LastPublished(steps, p).None?
  {
    if steps != [] {
      StrangerHasNotPublished(steps[..|steps| - 1], p);
    }
  }

  lemma LastAfter<R, P>(steps: seq<Step<R, P>>, step: Step<R, P>)
    ensures forall p :: LastPublished(steps + [step], p) ==
              if step.Frame? && step.p == p && step.frame.Presence? then Some(step.frame.payload)
              else LastPublished(steps, p)
  {
    assert (steps + [step])[..|steps|] == steps;
  }

  /** A step that publishes nothing, at a room whose peers and record it leaves alone. */
  lemma Untouched<R, P>(a: Room<P>, b: Room<P>, steps: seq<Step<R, P>>, step: Step<R, P>)
    requires Current(a, steps) && b.peers == a.peers && b.lastAwareness == a.lastAwareness
    requires step.Frame? && step.frame.Presence? ==> step.p !in a.peers
    ensures Current(b, steps + [step])
  {
    LastAfter(steps, step);
  }

  lemma PublishingIsCurrent<R, P>(a: Room<P>, b: Room<P>, steps: seq<Step<R, P>>, p: P, payload: Bytes)
    requires Current(a, steps) && p in a.peers
    requires b.peers == a.peers && b.lastAwareness == Published(a.lastAwareness, p, payload)
    ensures Current(b, steps + [Step<R, P>.Frame(p, Inbound.Presence(payload))])
  {
    LastAfter(steps, Step<R, P>.Frame(p, Inbound.Presence(payload)));
    PublishedIs(a.lastAwareness, p, payload);
  }

  lemma LeavingIsCurrent<R, P>(a: Room<P>, steps: seq<Step<R, P>>, p: P)
    requires Current(a, steps)
    ensures Current(Departed(a, p), steps + [Step<R, P>.CloseEvent(p)])
  {
    LastAfter(steps, Step<R, P>.CloseEvent(p));
    RetractedIs(a.lastAwareness, p);
  }

  lemma EnteringIsCurrent<R, P>(a: Room<P>, steps: seq<Step<R, P>>, step: Step<R, P>, p: P)
    requires Current(a, steps) && !step.Frame? && LastPublished(steps, p).None?
    ensures Current(Entered(a, p), steps + [step])
  {
    LastAfter(steps, step);
  }

  lemma EmptyIsCurrent<R, P>(a: Room<P>, steps: seq<Step<R, P>>)
    requires a.peers == {} && a.lastAwareness == []
    ensures Current(a, steps)
  {
  }

  lemma FrameIsCurrent<R, P>(s: Server<R, P>, steps: seq<Step<R, P>>, p: P, frame: Inbound, t: Server<R, P>, r: R)
    requires RoomsOk(s) && p in s.peer && s.peer[p].sock != Closed && t == Handled(s, p, frame) && r in s.room
             && Current(s.room[r], steps)
    ensures r in t.room && Current(t.room[r], steps + [Step<R, P>.Frame(p, frame)])
  {
    assert PeerOk(s, p) && RoomOk(s, r);
    if frame.Presence? && r == s.peer[p].room {
      PublishingIsCurrent(s.room[r], t.room[r], steps, p, frame.payload);
    } else {
      Untouched(s.room[r], t.room[r], steps, Step<R, P>.Frame(p, frame));
    }
  }

  lemma AcceptIsCurrent<R, P>(s: Server<R, P>, steps: seq<Step<R, P>>, step: Step<R, P>, t: Server<R, P>, r: R)
    requires PresenceOk(s, steps) && StepsTo(s, step, t) && step.Accept? && r in t.room
    ensures Current(t.room[r], steps + [step])
  {
    var target := RoomFor(s, step.key, step.newRoom);
    StrangerHasNotPublished(steps, step.newPeer);
    if r != target {
      Untouched(s.room[r], t.room[r], steps, step);
    } else if step.key in s.rooms {
      EnteringIsCurrent(s.room[r], steps, step, step.newPeer);
    } else {
      EmptyIsCurrent<R, P>(NewRoom(step.key), steps);
      EnteringIsCurrent(NewRoom(step.key), steps, step, step.newPeer);
    }
  }

  lemma OtherIsCurrent<R, P>(s: Server<R, P>, steps: seq<Step<R, P>>, step: Step<R, P>, t: Server<R, P>, r: R)
    requires StepsTo(s, step, t) && !step.Accept? && !step.Frame? && r in t.room && r in s.room
             && Current(s.room[r], steps)
    ensures Current(t.room[r], steps + [step])
  {
    if step.CloseEvent? && r == s.peer[step.p].room {
      LeavingIsCurrent(s.room[r], steps, step.p);
    } else if step.Reap? && t.room[r] != s.room[r] {
      EmptyIsCurrent(t.room[r], steps + [step]);
    } else {
      Untouched(s.room[r], t.room[r], steps, step);
    }
  }

  lemma RoomIsCurrent<R, P>(s: Server<R, P>, steps: seq<Step<R, P>>, step: Step<R, P>, t: Server<R, P>, r: R)
    requires RoomsOk(s) && PresenceOk(s, steps) && StepsTo(s, step, t) && r in t.room
    ensures Current(t.room[r], steps + [step])
  {
    if step.Accept? {
      AcceptIsCurrent(s, steps, step, t, r);
    } else {
      RoomsAreKept(s, step, t);
      if step.Frame? {
        FrameIsCurrent(s, steps, step.p, step.frame, t, r);
      } else {
        OtherIsCurrent(s, steps, step, t, r);
      }
    }
  }

  lemma RoomsAreKept<R, P>(s: Server<R, P>, step: Step<R, P>, t: Server<R, P>)
    requires StepsTo(s, step, t) && !step.Accept?
    ensures t.room.Keys == s.room.Keys
  {
    if step.Frame? {
      FrameKeepsRoomsMap(s, step.p, step.frame, t);
    }
  }

  lemma PeersAreKept<R, P>(s: Server<R, P>, step: Step<R, P>, t: Server<R, P>)
    requires StepsTo(s, step, t)
    ensures s.peer.Keys <= t.peer.Keys
  {
    if step.Frame? {
      FrameKeepsPeersMap(s, step.p, step.frame, t);
    }
  }

  lemma StepKeepsPresence<R, P>(s: Server<R, P>, steps: seq<Step<R, P>>, step: Step<R, P>, t: Server<R, P>)
    requires RoomsOk(s) && PresenceOk(s, steps) && StepsTo(s, step, t)
    ensures PresenceOk(t, steps + [step])
  {
    forall r | r in t.room
      ensures Current(t.room[r], steps + [step])
    {
      RoomIsCurrent(s, steps, step, t, r);
    }
    PeersAreKept(s, step, t);
  }

  lemma {:induction false} RunIsCurrent<R, P>(run: seq<Server<R, P>>, steps: seq<Step<R, P>>, i: nat)
    requires IsRun(run, steps) && i < |run|
    ensures PresenceOk(run[i], steps[..i])
  {
    if i > 0 {
      RunIsCurrent(run, steps, i - 1);
      NextIsCurrent(run, steps, i - 1);
    }
  }

  lemma NextIsCurrent<R, P>(run: seq<Server<R, P>>, steps: seq<Step<R, P>>, i: nat)
    requires IsRun(run, steps) && i < |steps| && PresenceOk(run[i], steps[..i])
    ensures PresenceOk(run[i + 1], steps[..i + 1])
  {
    RunIsOk(run, steps, i);
    assert StepsAt(run, steps, i);
    StepKeepsPresence(run[i], steps[..i], steps[i], run[i + 1]);
    assert steps[..i + 1] == steps[..i] + [steps[i]];
  }

  // ---- What every run guarantees -------------------------------------------------------------------

  /** In every run a room holds one payload for each attached peer that has published, its latest, and no other. */
  lemma RoomRemembersLatest<R, P>(run: seq<Server<R, P>>, steps: seq<Step<R, P>>, i: nat, r: R)
    requires IsRun(run, steps) && i < |run| && r in run[i].room
    ensures OneEach(run[i].room[r].lastAwareness)
    ensures forall q, x :: (q, x) in run[i].room[r].lastAwareness
              <==> q in run[i].room[r].peers && LastPublished(steps[..i], q) == Some(x)
  {
    RunIsCurrent(run, steps, i);
  }

  /** The frames that carry a record, one for each entry. */
  ghost function Frames<P>(l: seq<(P, Bytes)>): (m: seq<Message>)
    ensures |m| == |l|
  {
    seq(|l|, i requires 0 <= i < |l| => Aware(l[i].1))
  }

  lemma {:induction false} ReplayOfOthers<P>(l: seq<(P, Bytes)>, p: P)
    requires forall x :: (p, x) !in l
    ensures Replay(l, p) == Frames(l)
  {
    if l != [] {
      var n := |l| - 1;
      assert (l[n].0, l[n].1) in l;
      ReplayOfOthers(l[..n], p);
      assert Frames(l) == Frames(l[..n]) + [Aware(l[n].1)];
    }
  }

  /**
   A newcomer is sent step 1 and then exactly the latest payload of each peer it finds in the room
   that has published, once each; `others` lists them in the order of their frames.
   */
  lemma NewcomerLearnsWhoIsThere<R, P>(run: seq<Server<R, P>>, steps: seq<Step<R, P>>, i: nat)
      returns (others: seq<(P, Bytes)>)
    requires IsRun(run, steps) && i < |steps| && steps[i].Accept?
    ensures
      var s, t, p := run[i], run[i + 1], steps[i].newPeer;
      && p in t.peer && t.peer[p].room in t.room
      && t.peer[p].sent == [Step1(t.room[t.peer[p].room].doc)] + Frames(others)
      && OneEach(others)
      && forall q, x ::
           (q, x) in others <==> q in t.room[t.peer[p].room].peers && q != p && LastPublished(steps[..i], q) == Some(x)
  {
    var s, t, p := run[i], run[i + 1], steps[i].newPeer;
    assert StepsAt(run, steps, i);
    RunIsCurrent(run, steps, i);
    others := GreetedWith(s, steps[..i], steps[i], t);
  }

  lemma JoiningIsCurrent<R, P>(s: Server<R, P>, steps: seq<Step<R, P>>, key: string, p: P)
    requires Wired(s) && PresenceOk(s, steps) && p !in s.peer
    ensures Current(Joining(s, key), steps) && LastPublished(steps, p).None?
  {
    StrangerHasNotPublished(steps, p);
    if key !in s.rooms {
      EmptyIsCurrent<R, P>(NewRoom(key), steps);
    }
  }

  lemma GreetingIs<R, P>(s: Server<R, P>, step: Step<R, P>, t: Server<R, P>)
    requires StepsTo(s, step, t) && step.Accept?
    ensures step.newPeer in t.peer && t.peer[step.newPeer].room in t.room
    ensures t.room[t.peer[step.newPeer].room] == Entered(Joining(s, step.key), step.newPeer)
    ensures
      var room := Joining(s, step.key);
      t.peer[step.newPeer].sent == [Step1(room.doc)] + Replay(room.lastAwareness, step.newPeer)
  {
  }

  /** For a peer that has not published, the record lists the others in the room that have. */
  lemma OthersAre<R, P>(room: Room<P>, steps: seq<Step<R, P>>, p: P)
    requires Current(room, steps) && LastPublished(steps, p).None?
    ensures Replay(room.lastAwareness, p) == Frames(room.lastAwareness)
    ensures forall q, x :: (q, x) in room.lastAwareness
              <==> q in Entered(room, p).peers && q != p && LastPublished(steps, q) == Some(x)
  {
    ReplayOfOthers(room.lastAwareness, p);
  }

  lemma GreetedWith<R, P>(s: Server<R, P>, steps: seq<Step<R, P>>, step: Step<R, P>, t: Server<R, P>)
      returns (others: seq<(P, Bytes)>)
    requires PresenceOk(s, steps) && StepsTo(s, step, t) && step.Accept?
    ensures
      var p := step.newPeer;
      && p in t.peer && t.peer[p].room in t.room
      && t.peer[p].sent == [Step1(t.room[t.peer[p].room].doc)] + Frames(others)
      && OneEach(others)
      && forall q, x ::
           (q, x) in others <==> q in t.room[t.peer[p].room].peers && q != p && LastPublished(steps, q) == Some(x)
  {
    others := Joining(s, step.key).lastAwareness;
    GreetingIs(s, step, t);
    JoiningIsCurrent(s, steps, step.key, step.newPeer);
    OthersAre(Joining(s, step.key), steps, step.newPeer);
  }
}
