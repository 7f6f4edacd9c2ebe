/** The live notification registry behind the server-sent-events endpoint:
    a process-local map from user id to the stream opened for that user,
    with register, cancel, a push to one user and a push to everyone. A
    stream is identified by a number; which streams have been closed by
    their clients is a parameter of every push, since pushing to a closed
    stream throws. Every event written is kept, in order, in `delivered`. */
module Notifications {
  import opened Wrappers
  import opened Text

  /** A client's open event stream (`ReadableStreamDefaultController`). */
  datatype Stream = Stream(streamId: nat)

  /** The record pushed to clients, as `createNotification` builds it. */
  datatype Notification = Notification(
    id: string,
    userId: string,
    teamId: Option<string>,
    kind: string,
    title: string,
    message: string,
    isRead: bool,
    createdAt: string,
    updatedAt: string)

  const ConnectedMessage: string := "SSE connection established"

  /** The three event objects the endpoint writes; `timestamp` is the ISO
      text of the current time. */
  datatype Event =
    | Connected(message: string, timestamp: string)
    | Pushed(data: Notification, timestamp: string)
    | Broadcast(data: Notification, timestamp: string)

  /** The `type` field of each event. */
  function EventType(e: Event): string
  {
    match e
    case Connected(_, _) => "connected"
    case Pushed(_, _) => "notification"
    case Broadcast(_, _) => "broadcast"
  }

  /** The wire form of an event whose JSON text is `json`. */
  function FrameText(json: string): (frame: string)
    ensures StartsWith(frame, "data: ")
    ensures |frame| == |json| + 8 && frame[|frame| - 2..] == "\n\n"
  {
    "data: " + json + "\n\n"
  }

  /** What a client reads back out of one frame. */
  function FramePayload(frame: string): Option<string>
  {
    if |frame| >= 8 && StartsWith(frame, "data: ") && frame[|frame| - 2..] == "\n\n"
    then Some(frame[6..|frame| - 2]) else None
  }

  /** The client gets the JSON text back unchanged. */
  lemma FrameRoundTrip(json: string)
    ensures FramePayload(FrameText(json)) == Some(json)
  {
    assert FrameText(json)[6..|FrameText(json)| - 2] == json;
  }

  /** JSON text has no raw line break, so the blank line that ends a frame
      is the first one in it: a frame is read as exactly one event. */
  lemma FrameEndsOnce(json: string)
    requires '\n' !in json
    ensures forall k :: 0 <= k < |FrameText(json)| - 1 && MatchAt(FrameText(json), "\n\n", k) ==>
      k == |FrameText(json)| - 2
  {
    var f := FrameText(json);
    assert f[..6] == "data: ";
    assert forall i :: 0 <= i < 6 ==> f[i] != '\n';
    assert forall i :: 6 <= i < |f| - 2 ==> f[i] == json[i - 6] && json[i - 6] in json;
    forall k | 0 <= k < |f| - 1 && MatchAt(f, "\n\n", k)
      ensures k == |f| - 2
    {
      assert f[k..k + 2][0] == '\n' && f[k] == '\n';
    }
  }

  /** The users whose registered stream is still open. */
  ghost function OpenUsers(connections: map<string, Stream>, closed: set<Stream>): set<string>
  {
    set u | u in connections && connections[u] !in closed
  }

  class ConnectionRegistry {
    /** `connections`: the stream registered for each user. */
    var connections: map<string, Stream>
    /** Every event written so far, with the stream it was written to. */
    var delivered: seq<(Stream, Event)>

    constructor ()
      ensures connections == map[] && delivered == []
    {
      connections := map[];
      delivered := [];
    }

    /** `GET /api/notifications/stream?userId=...`: without a user id the
        answer is 400 and nothing changes; otherwise the new stream replaces
        any earlier one for that user and its first event is `connected`. */
    method Open(userId: Option<string>, stream: Stream, timestamp: string) returns (status: nat)
      modifies this
      ensures !Given(userId) ==> status == 400 && connections == old(connections) && delivered == old(delivered)
      ensures Given(userId) ==>
        status == 200 &&
        connections == old(connections)[userId.value := stream] &&
        delivered == old(delivered) + [(stream, Connected(ConnectedMessage, timestamp))]
    {
      if !Given(userId) {
        return 400;
      }
      connections := connections[userId.value := stream];
      delivered := delivered + [(stream, Connected(ConnectedMessage, timestamp))];
      status := 200;
    }

    /** The stream's `cancel`: forgets the user, whichever stream is
        registered for it now. */
    method Cancel(userId: string)
      modifies this
      ensures connections == old(connections) - {userId}
      ensures delivered == old(delivered)
    {
      connections := connections - {userId};
    }

    /** The intended `cancel`: forgets the user only while this stream is
        still the one registered. */
    method CancelOwn(userId: string, stream: Stream)
      modifies this
      ensures userId in old(connections) && old(connections)[userId] == stream ==>
        connections == old(connections) - {userId}
      ensures !(userId in old(connections) && old(connections)[userId] == stream) ==>
        connections == old(connections)
      ensures delivered == old(delivered)
    {
      if userId in connections && connections[userId] == stream {
        connections := connections - {userId};
      }
    }

    /** `broadcastNotification`: an unregistered user gets nothing and
        nothing changes; a closed stream is forgotten; an open one receives
        the notification and the registry stays as it was. */
    method Publish(userId: string, n: Notification, timestamp: string, closed: set<Stream>) returns (sent: bool)
      modifies this
      ensures sent <==> userId in old(connections) && old(connections)[userId] !in closed
      ensures userId !in old(connections) ==> connections == old(connections) && delivered == old(delivered)
      ensures userId in old(connections) && old(connections)[userId] in closed ==>
        connections == old(connections) - {userId} && delivered == old(delivered)
      ensures sent ==>
        connections == old(connections) &&
        delivered == old(delivered) + [(old(connections)[userId], Pushed(n, timestamp))]
    {
      if userId !in connections {
        return false;
      }
      var stream := connections[userId];
      if stream in closed {
        connections := connections - {userId};
        return false;
      }
      delivered := delivered + [(stream, Pushed(n, timestamp))];
      sent := true;
    }

    /** `broadcastToAll`: every user with an open stream receives the
        notification exactly once and is counted; every user whose stream is
        closed is forgotten. `order` is the order in which the users were
        visited. The source walks a `Map`, which visits users in the order
        they were first registered; the model leaves that order open and
        states only that each open user is visited once. */
    method BroadcastToAll(n: Notification, timestamp: string, closed: set<Stream>)
      returns (count: nat, ghost order: seq<string>)
      modifies this
      ensures count == |OpenUsers(old(connections), closed)|
      ensures count <= |old(connections)|
      ensures connections == map u | u in OpenUsers(old(connections), closed) :: old(connections)[u]
      ensures |delivered| == |old(delivered)| + count && delivered[..|old(delivered)|] == old(delivered)
      ensures forall i :: |old(delivered)| <= i < |delivered| ==>
        delivered[i].1 == Broadcast(n, timestamp) && delivered[i].0 !in closed &&
        delivered[i].0 in old(connections).Values
      ensures |order| == count && forall i, j :: 0 <= i < j < |order| ==> order[i] != order[j]
      ensures forall u :: u in OpenUsers(old(connections), closed) <==> u in order
      ensures forall i :: 0 <= i < |order| ==>
        order[i] in old(connections) &&
        delivered[|old(delivered)| + i] == (old(connections)[order[i]], Broadcast(n, timestamp))
    {
      ghost var start := connections;
      ghost var log := delivered;
      var remaining := connections.Keys;
      count := 0;
      order := [];
      while remaining != {}
        invariant remaining <= start.Keys
        invariant connections == Kept(start, closed, remaining)
        invariant |order| == count && Visited(start, closed, remaining, order)
        invariant Logged(start, log, delivered, order, Broadcast(n, timestamp))
        decreases remaining
      {
        var u :| u in remaining;
        VisitStep(start, closed, remaining, order, u);
        KeptStep(start, closed, remaining, u);
        remaining := remaining - {u};
        var stream := connections[u];
        if stream in closed {
          connections := connections - {u};
        } else {
          LoggedStep(start, log, delivered, order, Broadcast(n, timestamp), u);
          delivered := delivered + [(stream, Broadcast(n, timestamp))];
          count := count + 1;
          order := order + [u];
        }
      }
      DistinctCard(order, OpenUsers(start, closed));
      OpenUsersBound(start, closed);
      BroadcastLog(start, closed, log, delivered, order, Broadcast(n, timestamp));
    }
  }

  /** `order` lists, once each, the users already visited whose stream is
      open. */
  ghost predicate Visited(start: map<string, Stream>, closed: set<Stream>, remaining: set<string>, order: seq<string>)
  {
    (forall i, j :: 0 <= i < j < |order| ==> order[i] != order[j]) &&
    (forall u :: u in start && u !in remaining && start[u] !in closed <==> u in order)
  }

  /** The registry while the broadcast runs: the users not yet visited and
      those visited with an open stream. */
  ghost function Kept(start: map<string, Stream>, closed: set<Stream>, remaining: set<string>): map<string, Stream>
  {
    map u | u in start && (u in remaining || start[u] !in closed) :: start[u]
  }

  lemma KeptStep(start: map<string, Stream>, closed: set<Stream>, remaining: set<string>, u: string)
    requires u in remaining && remaining <= start.Keys
    ensures u in Kept(start, closed, remaining) && Kept(start, closed, remaining)[u] == start[u]
    ensures start[u] in closed ==> Kept(start, closed, remaining - {u}) == Kept(start, closed, remaining) - {u}
    ensures start[u] !in closed ==> Kept(start, closed, remaining - {u}) == Kept(start, closed, remaining)
  {
  }

  /** The events after `log` are one broadcast `e` to each user of `order`,
      in turn. */
  ghost predicate Logged(start: map<string, Stream>, log: seq<(Stream, Event)>, delivered: seq<(Stream, Event)>,
                         order: seq<string>, e: Event)
  {
    |delivered| == |log| + |order| && delivered[..|log|] == log &&
    forall i :: 0 <= i < |order| ==> order[i] in start && delivered[|log| + i] == (start[order[i]], e)
  }

  lemma LoggedStep(start: map<string, Stream>, log: seq<(Stream, Event)>, delivered: seq<(Stream, Event)>,
                   order: seq<string>, e: Event, u: string)
    requires Logged(start, log, delivered, order, e) && u in start
    ensures Logged(start, log, delivered + [(start[u], e)], order + [u], e)
  {
    var d := delivered + [(start[u], e)];
    assert d[..|log|] == delivered[..|log|];
  }

  /** Visiting one more user keeps `Visited`. */
  lemma VisitStep(start: map<string, Stream>, closed: set<Stream>, remaining: set<string>, order: seq<string>, u: string)
    requires Visited(start, closed, remaining, order) && u in remaining && remaining <= start.Keys
    ensures Visited(start, closed, remaining - {u}, if start[u] in closed then order else order + [u])
  {
    assert u !in order;
  }

  /** Each event appended by the broadcast went to an open stream of a
      registered user. */
  lemma BroadcastLog(start: map<string, Stream>, closed: set<Stream>, log: seq<(Stream, Event)>,
                     delivered: seq<(Stream, Event)>, order: seq<string>, e: Event)
    requires |delivered| == |log| + |order|
    requires forall u :: u in OpenUsers(start, closed) <==> u in order
    requires forall i :: 0 <= i < |order| ==> order[i] in start && delivered[|log| + i] == (start[order[i]], e)
    ensures forall i :: |log| <= i < |delivered| ==>
      delivered[i].1 == e && delivered[i].0 !in closed && delivered[i].0 in start.Values
  {
    forall i | |log| <= i < |delivered|
      ensures delivered[i].1 == e && delivered[i].0 !in closed && delivered[i].0 in start.Values
    {
      var k := i - |log|;
      assert order[k] in order && delivered[|log| + k] == delivered[i];
    }
  }

  /** A list without repeats has as many elements as the set it lists. */
  lemma {:induction false} DistinctCard<T>(s: seq<T>, elements: set<T>)
    requires forall i, j :: 0 <= i < j < |s| ==> s[i] != s[j]
    requires forall x :: x in elements <==> x in s
    ensures |elements| == |s|
  {
    if s != [] {
      var last := s[|s| - 1];
      var init := s[..|s| - 1];
      forall x
        ensures x in elements - {last} <==> x in init
      {
        if x in s && x != last {
          var k :| 0 <= k < |s| && s[k] == x;
          assert k < |s| - 1 && init[k] == x;
        }
      }
      DistinctCard(init, elements - {last});
    }
  }

  lemma OpenUsersBound(connections: map<string, Stream>, closed: set<Stream>)
    ensures |OpenUsers(connections, closed)| <= |connections|
  {
    assert OpenUsers(connections, closed) <= connections.Keys;
    SubsetCard(OpenUsers(connections, closed), connections.Keys);
  }

  lemma {:induction false} SubsetCard<T>(a: set<T>, b: set<T>)
    requires a <= b
    ensures |a| <= |b|
    decreases b
  {
    if a != {} {
      var x :| x in a;
      SubsetCard(a - {x}, b - {x});
    }
  }

  /** Registering again for the same user replaces the stream: a push then
      goes to the newer stream only. */
  method ReopenReplaces(userId: string, first: Stream, second: Stream, n: Notification, timestamp: string)
    returns (sent: bool, target: Stream)
    requires userId != "" && first != second
    ensures sent && target == second
  {
    var registry := new ConnectionRegistry();
    var s1 := registry.Open(Some(userId), first, timestamp);
    var s2 := registry.Open(Some(userId), second, timestamp);
    sent := registry.Publish(userId, n, timestamp, {first});
    target := registry.delivered[|registry.delivered| - 1].0;
  }

  /** The stale cancel: after a user reconnects, the first stream's cancel
      forgets the user although the second stream is still open, so pushes
      stop reaching the user. */
  method StaleCancelDropsLiveStream(userId: string, first: Stream, second: Stream, n: Notification, timestamp: string)
    returns (sent: bool)
    requires userId != "" && first != second
    ensures !sent
  {
    var registry := new ConnectionRegistry();
    var s1 := registry.Open(Some(userId), first, timestamp);
    var s2 := registry.Open(Some(userId), second, timestamp);
    registry.Cancel(userId);
    sent := registry.Publish(userId, n, timestamp, {first});
  }

  /** With the intended cancel the second stream keeps receiving. */
  method OwnCancelKeepsLiveStream(userId: string, first: Stream, second: Stream, n: Notification, timestamp: string)
    returns (sent: bool)
    requires userId != "" && first != second
    ensures sent
  {
    var registry := new ConnectionRegistry();
    var s1 := registry.Open(Some(userId), first, timestamp);
    var s2 := registry.Open(Some(userId), second, timestamp);
    registry.CancelOwn(userId, first);
    sent := registry.Publish(userId, n, timestamp, {first});
  }
}
