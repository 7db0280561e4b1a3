/** Merges of several streams that keep each stream in its own order. */
module Interleaving {

  /** The elements of `merged` that carry the tag `i`, in order. */
  function Project<T>(merged: seq<T>, tags: seq<nat>, i: nat): seq<T>
    requires |tags| == |merged|
  {
    if merged == [] then []
    else
      var k := |merged| - 1;
      var front := Project(merged[..k], tags[..k], i);
      if tags[k] == i then front + [merged[k]] else front
  }

  /** `merged` is an interleaving of `streams`: each element can be assigned to a stream
      so that every stream is read back complete and in order. */
  ghost predicate Interleaves<T(!new)>(merged: seq<T>, streams: seq<seq<T>>) {
    exists tags: seq<nat> ::
      && |tags| == |merged|
      && (forall k | 0 <= k < |tags| :: tags[k] < |streams|)
      && (forall i | 0 <= i < |streams| :: Project(merged, tags, i) == streams[i])
  }

  lemma ProjectAppend<T>(merged: seq<T>, tags: seq<nat>, x: T, tag: nat, i: nat)
    requires |tags| == |merged|
    ensures |tags + [tag]| == |merged + [x]|
    ensures Project(merged + [x], tags + [tag], i)
         == if i == tag then Project(merged, tags, i) + [x] else Project(merged, tags, i)
  {
    assert (merged + [x])[..|merged|] == merged;
    assert (tags + [tag])[..|tags|] == tags;
  }

  function TotalLength<T>(streams: seq<seq<T>>): nat {
    if streams == [] then 0 else |streams[0]| + TotalLength(streams[1..])
  }

  lemma {:induction false} TotalLengthUpdate<T>(streams: seq<seq<T>>, i: nat, stream: seq<T>)
    requires i < |streams|
    ensures TotalLength(streams[i := stream]) + |streams[i]| == TotalLength(streams) + |stream|
  {
    if i == 0 {
      assert streams[0 := stream][1..] == streams[1..];
    } else {
      assert streams[i := stream][1..] == streams[1..][i - 1 := stream];
      TotalLengthUpdate(streams[1..], i - 1, stream);
    }
  }

  lemma {:induction false} TotalLengthZero<T>(streams: seq<seq<T>>)
    requires forall i | 0 <= i < |streams| :: streams[i] == []
    ensures TotalLength(streams) == 0
  {
    if streams == [] {
    } else {
      TotalLengthZero(streams[1..]);
    }
  }

  lemma {:induction false} TaggedLength<T>(merged: seq<T>, tags: seq<nat>, streams: seq<seq<T>>)
    requires |tags| == |merged|
    requires forall k | 0 <= k < |tags| :: tags[k] < |streams|
    requires forall i | 0 <= i < |streams| :: Project(merged, tags, i) == streams[i]
    ensures |merged| == TotalLength(streams)
    decreases |merged|
  {
    if merged == [] {
      TotalLengthZero(streams);
    } else {
      var k := |merged| - 1;
      var tag := tags[k];
      var shorter := Project(merged[..k], tags[..k], tag);
      assert streams[tag] == shorter + [merged[k]];
      TaggedLength(merged[..k], tags[..k], streams[tag := shorter]);
      TotalLengthUpdate(streams, tag, shorter);
    }
  }

  /** An interleaving adds and drops nothing: it is as long as its streams together. */
  lemma InterleavingLength<T(!new)>(merged: seq<T>, streams: seq<seq<T>>)
    requires Interleaves(merged, streams)
    ensures |merged| == TotalLength(streams)
  {
    var tags: seq<nat> :|
      && |tags| == |merged|
      && (forall k | 0 <= k < |tags| :: tags[k] < |streams|)
      && (forall i | 0 <= i < |streams| :: Project(merged, tags, i) == streams[i]);
    TaggedLength(merged, tags, streams);
  }
}
