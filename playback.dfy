// Playback of the model's audio: the scheduling cursor, the set of live
// sources, and the schedule that successive chunks receive.
module Playback {
  import opened Types

  /** A non-negative span or point of audio-context time, in seconds. */
  type Seconds = r: real | 0.0 <= r

  /** A started buffer source: its identity, start time and buffer duration. */
  datatype AudioSource = AudioSource(id: nat, start: real, duration: Seconds)

  /** The effects on the output audio graph: `source.start(t)` and `source.stop()`. */
  datatype AudioEvent = Started(source: AudioSource) | Stopped(source: AudioSource)

  /** `Math.max(cursor, now)`: the earliest time the next chunk may start. */
  function StartAt(cursor: real, now: real): (t: real)
    ensures t >= cursor && t >= now
    ensures t == cursor || t == now
  {
    if cursor >= now then cursor else now
  }

  /** Every live source has finished playing by time `t`. */
  predicate EndsBy(live: seq<AudioSource>, t: real)
  {
    forall i :: 0 <= i < |live| ==> live[i].start + live[i].duration <= t
  }

  predicate DistinctIds(live: seq<AudioSource>)
  {
    forall i, j :: 0 <= i < j < |live| ==> live[i].id != live[j].id
  }

  predicate IdsBelow(live: seq<AudioSource>, bound: nat)
  {
    forall i :: 0 <= i < |live| ==> live[i].id < bound
  }

  /** One `stop()` per live source, in insertion order. */
  function StopAll(live: seq<AudioSource>): seq<AudioEvent>
  {
    seq(|live|, i requires 0 <= i < |live| => Stopped(live[i]))
  }

  /** `sources.delete(source)`: the live set without the source of the given id. */
  function WithoutSource(live: seq<AudioSource>, id: nat): (r: seq<AudioSource>)
    ensures |r| <= |live|
  {
    if live == [] then []
    else (if live[0].id == id then [] else [live[0]]) + WithoutSource(live[1..], id)
  }

  /** After the delete, the live set holds exactly the sources with another id. */
  lemma {:induction false} WithoutSourceMembers(live: seq<AudioSource>, id: nat)
    ensures forall s :: s in WithoutSource(live, id) <==> s in live && s.id != id
  {
    if live != [] {
      WithoutSourceMembers(live[1..], id);
      assert live == [live[0]] + live[1..];
    }
  }

  /** Removing an id that is not live leaves the live set as it was. */
  lemma {:induction false} WithoutAbsentSource(live: seq<AudioSource>, id: nat)
    requires forall i :: 0 <= i < |live| ==> live[i].id != id
    ensures WithoutSource(live, id) == live
  {
    if live != [] {
      WithoutAbsentSource(live[1..], id);
    }
  }

  /** Removing a live source deletes exactly that entry and keeps the order of the rest. */
  lemma {:induction false} WithoutSourceAt(live: seq<AudioSource>, k: nat)
    requires k < |live| && DistinctIds(live)
    ensures WithoutSource(live, live[k].id) == live[..k] + live[k + 1..]
  {
    var id := live[k].id;
    var tail := live[1..];
    assert live == [live[0]] + tail;
    if k == 0 {
      forall i | 0 <= i < |tail| ensures tail[i].id != id {
        assert tail[i] == live[i + 1];
      }
      WithoutAbsentSource(tail, id);
    } else {
      forall i, j | 0 <= i < j < |tail| ensures tail[i].id != tail[j].id {
        assert tail[i] == live[i + 1] && tail[j] == live[j + 1];
      }
      assert live[0].id != id;
      WithoutSourceAt(tail, k - 1);
      assert [live[0]] + tail[..k - 1] == live[..k];
      assert tail[k..] == live[k + 1..];
    }
  }

  /** Removing a source keeps the invariants of the live set. */
  lemma WithoutSourceKeeps(live: seq<AudioSource>, id: nat, t: real, bound: nat)
    requires EndsBy(live, t) && DistinctIds(live) && IdsBelow(live, bound)
    ensures var r := WithoutSource(live, id); EndsBy(r, t) && DistinctIds(r) && IdsBelow(r, bound)
  {
    if exists k :: 0 <= k < |live| && live[k].id == id {
      var k :| 0 <= k < |live| && live[k].id == id;
      WithoutSourceAt(live, k);
    } else {
      WithoutAbsentSource(live, id);
    }
  }

  /**
   * The playback queue: the cursor at which the next chunk may start, the
   * live sources in insertion order, the id the next source receives, and
   * every start and stop issued so far.
   */
  datatype PlayQueue = PlayQueue(cursor: real, live: seq<AudioSource>, nextId: nat, log: seq<AudioEvent>)

  /** Every live source ends by the cursor, and ids are distinct and below the next id. */
  predicate QueueValid(q: PlayQueue)
  {
    EndsBy(q.live, q.cursor) && DistinctIds(q.live) && IdsBelow(q.live, q.nextId)
  }

  /**
   * One audio chunk arrives at context time `now`: the cursor is raised to
   * `now` first; a chunk that decodes then starts at the cursor, moves the
   * cursor past its end and joins the live set. One that does not decode
   * leaves only the raised cursor behind.
   */
  function Enqueue(q: PlayQueue, now: real, decoded: Option<Seconds>): (r: PlayQueue)
    ensures r.cursor >= now && r.cursor >= q.cursor
    ensures q.log <= r.log && q.live <= r.live && |r.live| <= |q.live| + 1
  {
    var t := StartAt(q.cursor, now);
    if decoded.None? then q.(cursor := t)
    else
      var src := AudioSource(q.nextId, t, decoded.value);
      PlayQueue(t + decoded.value, q.live + [src], q.nextId + 1, q.log + [Started(src)])
  }

  /** An interruption: every live source is stopped, the set emptied and the cursor reset. */
  function StopPlayback(q: PlayQueue): (r: PlayQueue)
    ensures QueueValid(r) && r.live == [] && r.cursor == 0.0 && r.nextId == q.nextId
    ensures q.log <= r.log && |r.log| == |q.log| + |q.live|
  {
    PlayQueue(0.0, [], q.nextId, q.log + StopAll(q.live))
  }

  /** The loop that calls `stop()` on every live source, in insertion order. */
  method StopEach(live: seq<AudioSource>) returns (events: seq<AudioEvent>)
    ensures events == StopAll(live)
  {
    events := [];
    var i := 0;
    while i < |live|
      invariant 0 <= i <= |live|
      invariant events == StopAll(live[..i])
    {
      assert StopAll(live[..i + 1]) == StopAll(live[..i]) + [Stopped(live[i])];
      events := events + [Stopped(live[i])];
      i := i + 1;
    }
    assert live[..i] == live;
  }

  /** Enqueuing keeps the queue invariant. */
  lemma EnqueueKeepsValid(q: PlayQueue, now: real, decoded: Option<Seconds>)
    requires QueueValid(q)
    ensures QueueValid(Enqueue(q, now, decoded))
  {
    var t := StartAt(q.cursor, now);
    if decoded.Some? {
      var r := Enqueue(q, now, decoded);
      assert r.live == q.live + [AudioSource(q.nextId, t, decoded.value)];
      forall i | 0 <= i < |r.live| ensures r.live[i].start + r.live[i].duration <= r.cursor {
        if i < |q.live| {
          assert r.live[i] == q.live[i];
        }
      }
    }
  }

  /**
   * A decoded chunk starts no earlier than it arrives and no earlier than
   * the cursor, so after every source already playing: playback has no
   * overlap. It is the only source added and the only event logged.
   */
  lemma EnqueueNoOverlap(q: PlayQueue, now: real, d: Seconds)
    requires QueueValid(q)
    ensures var r := Enqueue(q, now, Some(d)); var src := r.live[|r.live| - 1];
      && r.live == q.live + [src] && r.log == q.log + [Started(src)]
      && src.id == q.nextId && src.duration == d
      && src.start >= now && src.start >= q.cursor && EndsBy(q.live, src.start)
      && r.cursor == src.start + d
  {
  }

  /** A chunk that does not decode adds nothing but still raises the cursor. */
  lemma EnqueueUndecoded(q: PlayQueue, now: real)
    ensures var r := Enqueue(q, now, None);
      r.live == q.live && r.log == q.log && r.nextId == q.nextId && r.cursor == StartAt(q.cursor, now)
  {
  }

  /** After an interruption nothing is live, and each formerly live source got exactly one stop, in order. */
  lemma StopPlaybackStopsAll(q: PlayQueue)
    ensures var r := StopPlayback(q);
      && QueueValid(r) && r.live == [] && r.cursor == 0.0
      && |r.log| == |q.log| + |q.live|
      && r.log[..|q.log|] == q.log
      && forall k :: 0 <= k < |q.live| ==> r.log[|q.log| + k] == Stopped(q.live[k])
  {
  }

  /** A decoded chunk: when it arrived (context time) and how long it plays. */
  datatype Chunk = Chunk(arrival: Seconds, duration: Seconds)

  /** The start times successive chunks receive from the cursor, with no interruption between them. */
  function Schedule(cursor: real, chunks: seq<Chunk>): (starts: seq<real>)
    ensures |starts| == |chunks|
    decreases |chunks|
  {
    if chunks == [] then []
    else
      var t := StartAt(cursor, chunks[0].arrival);
      [t] + Schedule(t + chunks[0].duration, chunks[1..])
  }

  /**
   * Scheduled chunks never start before they arrive or before the cursor,
   * and each one finishes before any later one starts: no overlap.
   */
  lemma {:induction false} ScheduleOrdered(cursor: real, chunks: seq<Chunk>)
    ensures var st := Schedule(cursor, chunks);
      && (forall k :: 0 <= k < |chunks| ==> st[k] >= chunks[k].arrival && st[k] >= cursor)
      && (forall j, k :: 0 <= j < k < |chunks| ==> st[j] + chunks[j].duration <= st[k])
    decreases |chunks|
  {
    if chunks != [] {
      var t := StartAt(cursor, chunks[0].arrival);
      var rest := Schedule(t + chunks[0].duration, chunks[1..]);
      ScheduleOrdered(t + chunks[0].duration, chunks[1..]);
      var st := Schedule(cursor, chunks);
      assert st == [t] + rest;
      forall k | 1 <= k < |chunks| ensures st[k] >= chunks[k].arrival && st[k] >= t + chunks[0].duration {
        assert st[k] == rest[k - 1] && chunks[k] == chunks[1..][k - 1];
      }
      forall j, k | 0 <= j < k < |chunks| ensures st[j] + chunks[j].duration <= st[k] {
        if j > 0 {
          assert st[j] == rest[j - 1] && st[k] == rest[k - 1] && chunks[j] == chunks[1..][j - 1];
        }
      }
    }
  }

  /** The queue after each chunk in turn arrives and decodes, with no interruption between them. */
  function EnqueueAll(q: PlayQueue, chunks: seq<Chunk>): PlayQueue
    decreases |chunks|
  {
    if chunks == [] then q
    else EnqueueAll(Enqueue(q, chunks[0].arrival, Some(chunks[0].duration)), chunks[1..])
  }

  /**
   * Successive chunks enqueued one by one start exactly at the times
   * `Schedule` gives them, with consecutive ids, in arrival order; so the
   * facts proved of `Schedule` hold of the sources the queue starts.
   */
  lemma {:induction false} EnqueueAllFollowsSchedule(q: PlayQueue, chunks: seq<Chunk>)
    ensures var r := EnqueueAll(q, chunks); var st := Schedule(q.cursor, chunks);
      && r.nextId == q.nextId + |chunks|
      && |r.log| == |q.log| + |chunks| && r.log[..|q.log|] == q.log
      && forall k :: 0 <= k < |chunks| ==>
           r.log[|q.log| + k] == Started(AudioSource(q.nextId + k, st[k], chunks[k].duration))
    decreases |chunks|
  {
    if chunks != [] {
      var c := chunks[0];
      var q1 := Enqueue(q, c.arrival, Some(c.duration));
      var t := StartAt(q.cursor, c.arrival);
      var tail := chunks[1..];
      EnqueueAllFollowsSchedule(q1, tail);
      var r := EnqueueAll(q, chunks);
      var st := Schedule(q.cursor, chunks);
      assert r == EnqueueAll(q1, tail);
      assert q1.log == q.log + [Started(AudioSource(q.nextId, t, c.duration))];
      assert q1.cursor == t + c.duration && q1.nextId == q.nextId + 1;
      assert st == [t] + Schedule(q1.cursor, tail);
      assert r.log[..|q.log|] == r.log[..|q1.log|][..|q.log|];
      forall k | 0 <= k < |chunks|
        ensures r.log[|q.log| + k] == Started(AudioSource(q.nextId + k, st[k], chunks[k].duration))
      {
        if k == 0 {
          assert r.log[|q.log|] == r.log[..|q1.log|][|q.log|];
        } else {
          assert chunks[k] == tail[k - 1];
        }
      }
    }
  }

  /** The total play time of the chunks. */
  function Sum(chunks: seq<Chunk>): real
  {
    if chunks == [] then 0.0 else chunks[0].duration + Sum(chunks[1..])
  }

  /** Every chunk arrives before the audio queued ahead of it has run out. */
  predicate ArrivesInTime(cursor: real, chunks: seq<Chunk>)
  {
    forall k :: 0 <= k < |chunks| ==> chunks[k].arrival <= cursor + Sum(chunks[..k])
  }

  /**
   * When every chunk arrives in time, the chunks play back to back: chunk
   * k starts at the cursor plus the durations of the chunks before it.
   */
  lemma {:induction false} ScheduleBackToBack(cursor: real, chunks: seq<Chunk>)
    requires ArrivesInTime(cursor, chunks)
    ensures var st := Schedule(cursor, chunks);
      forall k :: 0 <= k < |chunks| ==> st[k] == cursor + Sum(chunks[..k])
    decreases |chunks|
  {
    if chunks != [] {
      var d := chunks[0].duration;
      assert chunks[..0] == [];
      var tail := chunks[1..];
      forall k | 0 <= k < |tail| ensures tail[k].arrival <= cursor + d + Sum(tail[..k]) {
        assert chunks[..k + 1][1..] == tail[..k];
        assert tail[k] == chunks[k + 1];
      }
      ScheduleBackToBack(cursor + d, tail);
      var st := Schedule(cursor, chunks);
      assert st == [cursor] + Schedule(cursor + d, tail);
      forall k | 1 <= k < |chunks| ensures st[k] == cursor + Sum(chunks[..k]) {
        assert chunks[..k][1..] == tail[..k - 1];
      }
    }
  }

  /** Played back to back, the run ends exactly the total duration after the cursor. */
  lemma ScheduleSpan(cursor: real, chunks: seq<Chunk>)
    requires ArrivesInTime(cursor, chunks) && chunks != []
    ensures Schedule(cursor, chunks)[|chunks| - 1] + chunks[|chunks| - 1].duration == cursor + Sum(chunks)
  {
    var n := |chunks|;
    ScheduleBackToBack(cursor, chunks);
    SumSnoc(chunks[..n - 1], chunks[n - 1]);
    assert chunks[..n - 1] + [chunks[n - 1]] == chunks;
  }

  lemma {:induction false} SumSnoc(chunks: seq<Chunk>, c: Chunk)
    ensures Sum(chunks + [c]) == Sum(chunks) + c.duration
  {
    if chunks != [] {
      assert (chunks + [c])[1..] == chunks[1..] + [c];
      SumSnoc(chunks[1..], c);
    }
  }
}
