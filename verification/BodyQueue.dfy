/** The per-connection queue of items waiting for a retry: one FIFO per stream, and a walk over the streams. */
module BodyQueue {
  import opened Basics

  predicate Distinct(streams: seq<nat>) {
    forall i, j | 0 <= i < j < |streams| :: streams[i] != streams[j]
  }

  /** The queue of a stream; a stream without one has nothing waiting. */
  function Waiting<T>(queue: map<nat, seq<T>>, stream: nat): seq<T> {
    if stream in queue then queue[stream] else []
  }

  class BodyReqQueue<T> {
    var streams: seq<nat>
    var currentStreamIndex: nat
    var queue: map<nat, seq<T>>

    /** Streams are listed once, and every stream that has a queue is listed. */
    ghost predicate Valid()
      reads this
    {
      Distinct(streams) && forall s | s in queue :: s in streams
    }

    constructor ()
      ensures Valid() && streams == [] && currentStreamIndex == 0 && queue == map[]
    {
      streams, currentStreamIndex, queue := [], 0, map[];
    }

    method List(stream: nat)
      requires Valid()
      modifies this`streams
      ensures Valid() && streams == if stream in old(streams) then old(streams) else old(streams) + [stream]
    {
      if stream !in streams {
        streams := streams + [stream];
      }
    }

    method PushItem(stream: nat, item: T)
      requires Valid()
      modifies this
      ensures Valid() && queue == old(queue)[stream := Waiting(old(queue), stream) + [item]]
      ensures streams == if stream in old(streams) then old(streams) else old(streams) + [stream]
      ensures currentStreamIndex == old(currentStreamIndex)
    {
      List(stream);
      queue := queue[stream := (if stream in queue then queue[stream] else []) + [item]];
    }

    method PushItemOnFront(stream: nat, item: T)
      requires Valid()
      modifies this
      ensures Valid() && queue == old(queue)[stream := [item] + Waiting(old(queue), stream)]
      ensures streams == if stream in old(streams) then old(streams) else old(streams) + [stream]
      ensures currentStreamIndex == old(currentStreamIndex)
    {
      List(stream);
      queue := queue[stream := [item] + if stream in queue then queue[stream] else []];
    }

    /** The front item leaves its stream only if it is wanted; anything else keeps its place. */
    method PopFrontIf(stream: nat, wanted: T -> bool) returns (item: Option<T>)
      requires Valid()
      modifies this`queue
      ensures Valid()
      ensures var waiting := Waiting(old(queue), stream);
        if waiting != [] && wanted(waiting[0]) then
          item == Some(waiting[0]) && queue == old(queue)[stream := waiting[1..]]
        else item == None && queue == old(queue)
    {
      if stream in queue && queue[stream] != [] && wanted(queue[stream][0]) {
        item := Some(queue[stream][0]);
        queue := queue[stream := queue[stream][1..]];
      } else {
        item := None;
      }
    }

    method RemoveStreamQueue(stream: nat)
      requires Valid()
      modifies this`queue
      ensures Valid() && queue == old(queue) - {stream}
    {
      queue := queue - {stream};
    }

    method Remove(stream: nat)
      requires Valid()
      modifies this
      ensures Valid() && queue == old(queue) - {stream} && stream !in streams
      ensures stream !in old(streams) ==> streams == old(streams) && currentStreamIndex == old(currentStreamIndex)
      ensures stream in old(streams) ==>
        currentStreamIndex == 0 && exists i :: 0 <= i < |old(streams)| && old(streams)[i] == stream
                                               && streams == old(streams)[..i] + old(streams)[i + 1..]
    {
      var i := 0;
      while i < |streams| && streams[i] != stream
        invariant 0 <= i <= |streams| && forall j | 0 <= j < i :: streams[j] != stream
      {
        i := i + 1;
      }
      if i < |streams| {
        streams := streams[..i] + streams[i + 1..];
        currentStreamIndex := 0;
      }
      queue := queue - {stream};
    }

    method IsStreamQueueEmpty(stream: nat) returns (empty: bool)
      ensures empty <==> Waiting(queue, stream) == []
    {
      empty := !(stream in queue && queue[stream] != []);
    }

    /** The longest queue, if there is any. */
    method MaxPendingQueue() returns (longest: Option<(nat, nat)>)
      ensures longest.None? <==> queue == map[]
      ensures longest.Some? ==>
        && longest.value.0 in queue && |queue[longest.value.0]| == longest.value.1
        && forall s | s in queue :: |queue[s]| <= longest.value.1
    {
      longest := None;
      var todo := queue.Keys;
      while todo != {}
        invariant todo <= queue.Keys
        invariant longest.None? <==> todo == queue.Keys
        invariant longest.Some? ==>
          && longest.value.0 in queue && |queue[longest.value.0]| == longest.value.1
          && forall s | s in queue && s !in todo :: |queue[s]| <= longest.value.1
        decreases |todo|
      {
        var s :| s in todo;
        todo := todo - {s};
        if longest.None? || longest.value.1 <= |queue[s]| {
          longest := Some((s, |queue[s]|));
        }
      }
    }

    /** The walk: the next listed stream, or nothing at the end, which also starts the walk over. */
    method NextStream() returns (next: Option<nat>)
      modifies this`currentStreamIndex
      ensures next == if old(currentStreamIndex) < |streams| then Some(streams[old(currentStreamIndex)]) else None
      ensures currentStreamIndex ==
        if streams == [] then old(currentStreamIndex)
        else if old(currentStreamIndex) < |streams| then old(currentStreamIndex) + 1 else 0
    {
      if streams == [] {
        return None;
      }
      if currentStreamIndex < |streams| {
        next := Some(streams[currentStreamIndex]);
        currentStreamIndex := currentStreamIndex + 1;
      } else {
        currentStreamIndex := 0;
        next := None;
      }
    }

    /** A walk from the start visits every listed stream exactly once, in order, and can be repeated. */
    method Walk() returns (visited: seq<nat>)
      requires Valid() && currentStreamIndex == 0
      modifies this`currentStreamIndex
      ensures visited == streams && currentStreamIndex == 0
      ensures forall s | s in queue :: s in visited
    {
      visited := [];
      var next := NextStream();
      while next.Some?
        invariant |visited| + (if next.Some? then 1 else 0) <= |streams|
        invariant visited == streams[..|visited|]
        invariant if next.Some? then next.value == streams[|visited|] && currentStreamIndex == |visited| + 1
                  else |visited| == |streams| && currentStreamIndex == 0
        decreases |streams| - |visited| + if next.Some? then 1 else 0
      {
        visited := visited + [next.value];
        next := NextStream();
      }
      assert streams[..|streams|] == streams;
    }
  }

  /** An item put back in front after being taken leaves its stream's FIFO as it was. */
  lemma PutBackRestoresOrder<T>(queue: map<nat, seq<T>>, stream: nat)
    requires Waiting(queue, stream) != []
    ensures var popped := queue[stream := Waiting(queue, stream)[1..]];
      popped[stream := [Waiting(queue, stream)[0]] + Waiting(popped, stream)] == queue
  {
    var q := Waiting(queue, stream);
    assert [q[0]] + q[1..] == q;
  }
}
