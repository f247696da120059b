/** The stream hub: a map from user to the set of listeners of that user's open streams, changed in
    place as streams open and are cancelled, and fanned out to when an event arrives. */
module NotificationHub {

  datatype Event = Event(userId: nat, notification: string)

  /** A pub/sub message either parses to an event or is dropped. */
  datatype Message = Malformed | Parsed(event: Event)

  /** One stream: its user, whether it is still open, and what it was sent, in order. */
  datatype Stream = Stream(userId: nat, open: bool, received: seq<string>)

  datatype Operation = Open(userId: nat) | Cancel(stream: nat) | Dispatch(message: Message)

  /** What the hub is for, without any map of listeners. */
  function Next(streams: seq<Stream>, op: Operation): seq<Stream> {
    match op
    case Open(userId) => streams + [Stream(userId, true, [])]
    case Cancel(k) => if k < |streams| then streams[k := streams[k].(open := false)] else streams
    case Dispatch(Malformed) => streams
    case Dispatch(Parsed(event)) => seq(|streams|, i requires 0 <= i < |streams| => Deliver(streams[i], event))
  }

  function Deliver(stream: Stream, event: Event): Stream {
    if stream.open && stream.userId == event.userId
    then stream.(received := stream.received + [event.notification])
    else stream
  }

  function Run(ops: seq<Operation>): seq<Stream> {
    if |ops| == 0 then [] else Next(Run(ops[..|ops| - 1]), ops[|ops| - 1])
  }

  // An independent account of what one stream should have been sent.

  function OpenCount(ops: seq<Operation>): nat {
    if |ops| == 0 then 0 else OpenCount(ops[..|ops| - 1]) + (if ops[|ops| - 1].Open? then 1 else 0)
  }

  /** The operation that opened stream `k`. */
  predicate Opens(ops: seq<Operation>, at: nat, k: nat) {
    at < |ops| && ops[at].Open? && OpenCount(ops[..at]) == k
  }

  /** The well-formed notifications for `userId` dispatched from `start` on, up to the first cancel of `k`. */
  function Due(ops: seq<Operation>, start: nat, k: nat, userId: nat): seq<string>
    requires start <= |ops|
  {
    if start == |ops| then []
    else
      var n := |ops| - 1;
      var rest := Due(ops[..n], start, k, userId);
      if !(Cancel(k) in ops[start..n]) && ops[n].Dispatch? && ops[n].message.Parsed?
         && ops[n].message.event.userId == userId
      then rest + [ops[n].message.event.notification]
      else rest
  }

  lemma {:induction false} RunLength(ops: seq<Operation>)
    ensures |Run(ops)| == OpenCount(ops)
  {
    if |ops| > 0 {
      RunLength(ops[..|ops| - 1]);
    }
  }

  /** Cancelling a stream before it exists has no effect on the stream opened later. */
  lemma {:induction false} StreamsGetWhatIsDue(ops: seq<Operation>, at: nat, k: nat)
    requires Opens(ops, at, k)
    ensures k < |Run(ops)|
    ensures Run(ops)[k] == Stream(ops[at].userId, Cancel(k) !in ops[at + 1..], Due(ops, at + 1, k, ops[at].userId))
  {
    var n := |ops| - 1;
    RunLength(ops[..n]);
    if at == n {
      assert ops[at + 1..] == [];
    } else {
      assert ops[..n][..at] == ops[..at];
      StreamsGetWhatIsDue(ops[..n], at, k);
      assert ops[at + 1..] == ops[..n][at + 1..] + [ops[n]];
      assert ops[at + 1..n] == ops[..n][at + 1..];
    }
  }

  /** The set stored for a user, or the empty set when there is none. */
  function Listeners(listenersByUserId: map<nat, set<nat>>, userId: nat): set<nat> {
    if userId in listenersByUserId then listenersByUserId[userId] else {}
  }

  function OpenStreams(streams: seq<Stream>, userId: nat): set<nat> {
    set k: nat | k < |streams| && streams[k].open && streams[k].userId == userId
  }

  class StreamHub {
    var listenersByUserId: map<nat, set<nat>>
    var streams: seq<Stream>

    /** The map groups exactly the open streams by user, and keeps no empty set. */
    ghost predicate Valid()
      reads this
    {
      && (forall u | u in listenersByUserId :: listenersByUserId[u] != {})
      && (forall u: nat :: Listeners(listenersByUserId, u) == OpenStreams(streams, u))
    }

    constructor ()
      ensures Valid() && streams == []
    {
      listenersByUserId := map[];
      streams := [];
    }

    /** A stream's `start`: register its listener under the user, creating the set when absent. */
    method Start(userId: nat) returns (k: nat)
      requires Valid()
      modifies this
      ensures Valid() && streams == Next(old(streams), Open(userId))
      ensures k == old(|streams|)
    {
      k := |streams|;
      streams := streams + [Stream(userId, true, [])];
      var listeners := Listeners(listenersByUserId, userId);
      listenersByUserId := listenersByUserId[userId := listeners + {k}];
      forall u: nat ensures Listeners(listenersByUserId, u) == OpenStreams(streams, u) {
        assert old(Listeners(listenersByUserId, u)) == OpenStreams(old(streams), u);
        assert OpenStreams(streams, u) == OpenStreams(old(streams), u) + (if u == userId then {k} else {});
      }
    }

    /** A stream's `cancel`: drop the listener, and the user's set when it became empty. */
    method CancelStream(k: nat)
      requires Valid()
      modifies this
      ensures Valid() && streams == Next(old(streams), Cancel(k))
    {
      if k < |streams| {
        var userId := streams[k].userId;
        streams := streams[k := streams[k].(open := false)];
        if userId in listenersByUserId {
          var listeners := listenersByUserId[userId] - {k};
          if listeners == {} {
            listenersByUserId := map u | u in listenersByUserId && u != userId :: listenersByUserId[u];
          } else {
            listenersByUserId := listenersByUserId[userId := listeners];
          }
        }
        forall u: nat ensures Listeners(listenersByUserId, u) == OpenStreams(streams, u) {
          assert old(Listeners(listenersByUserId, u)) == OpenStreams(old(streams), u);
          assert OpenStreams(streams, u) == OpenStreams(old(streams), u) - (if u == userId then {k} else {});
        }
      }
    }

    /** Call each listener of the event's user once. */
    method DispatchMessage(message: Message)
      requires Valid()
      modifies this`streams
      ensures Valid() && streams == Next(old(streams), Dispatch(message))
    {
      if message.Malformed? {
        return;
      }
      var event := message.event;
      var pending := Listeners(listenersByUserId, event.userId);
      ghost var due := pending;
      while pending != {}
        invariant pending <= due
        invariant |streams| == |old(streams)|
        invariant forall i | 0 <= i < |streams| ::
                    streams[i] == if i in due - pending then Deliver(old(streams)[i], event) else old(streams)[i]
        decreases pending
      {
        var k :| k in pending;
        assert k in OpenStreams(old(streams), event.userId);
        streams := streams[k := streams[k].(received := streams[k].received + [event.notification])];
        pending := pending - {k};
      }
      forall i | 0 <= i < |streams| ensures streams[i] == Deliver(old(streams)[i], event) {
        assert i in due <==> i in OpenStreams(old(streams), event.userId);
      }
    }
  }
}
