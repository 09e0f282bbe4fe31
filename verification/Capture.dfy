/** The capture ring: a bounded buffer read by any number of independent
    trackers, and the batcher that cuts and ships windows from it. */
module Capture {
  import opened Prelude

  const MIDI_CAPTURE_VERSION: nat := 1

  datatype Captured = Captured(epoch: nat, bytes: seq<int>)

  datatype Batch = Batch(version: nat, start: nat, end: nat, events: seq<Captured>, lost: nat)

  /** A read cursor: the sequence number of the next unconsumed event and the
      start of the next window. */
  datatype Cursor = Cursor(at: nat, windowStart: nat)

  // ---------------------------------------------- cuts from the full log

  /** The first sequence number a ring of this capacity still has. */
  function Oldest(log: seq<Captured>, capacity: nat): nat {
    SatSub(|log|, capacity)
  }

  /** The first event from `at` on that is stamped at or after `until`. */
  function StopAt(log: seq<Captured>, at: nat, until: nat): (stop: nat)
    requires at <= |log|
    ensures at <= stop <= |log|
    decreases |log| - at
  {
    if at == |log| || log[at].epoch >= until then at else StopAt(log, at + 1, until)
  }

  function FirstKept(log: seq<Captured>, capacity: nat, c: Cursor): nat {
    Max(c.at, Oldest(log, capacity))
  }

  /** The batch a tracker gets, told in terms of the log of all pushes. */
  function CutBatch(log: seq<Captured>, capacity: nat, c: Cursor, until: nat): Batch
    requires c.at <= |log|
  {
    var from := FirstKept(log, capacity, c);
    Batch(MIDI_CAPTURE_VERSION, c.windowStart, until, log[from..StopAt(log, from, until)],
        SatSub(Oldest(log, capacity), c.at))
  }

  function CutCursor(log: seq<Captured>, capacity: nat, c: Cursor, until: nat): Cursor
    requires c.at <= |log|
  {
    Cursor(StopAt(log, FirstKept(log, capacity, c), until), until)
  }

  lemma {:induction false} StopsThere(log: seq<Captured>, at: nat, until: nat)
    requires at <= |log|
    ensures forall k :: at <= k < StopAt(log, at, until) ==> log[k].epoch < until
    ensures StopAt(log, at, until) < |log| ==> log[StopAt(log, at, until)].epoch >= until
    decreases |log| - at
  {
    if at < |log| && log[at].epoch < until {
      StopsThere(log, at + 1, until);
    }
  }

  /** What a cut is for: all of the unconsumed events before the first one
      stamped late, each before the window's end; what is skipped is exactly
      what the ring has overwritten. */
  lemma {:induction false} CutMeaning(log: seq<Captured>, capacity: nat, c: Cursor, until: nat)
    requires c.at <= |log|
    ensures var b, c' := CutBatch(log, capacity, c, until), CutCursor(log, capacity, c, until);
            && c.at + b.lost + |b.events| == c'.at <= |log|
            && b.events == log[c.at + b.lost..c'.at]
            && (forall i :: 0 <= i < |b.events| ==> b.events[i].epoch < until)
            && (c'.at < |log| ==> log[c'.at].epoch >= until)
            && b.lost == SatSub(|log| - c.at, capacity) && (b.lost == 0 <==> |log| - c.at <= capacity)
            && b.version == 1 && b.start == c.windowStart && b.end == until == c'.windowStart
  {
    var from := FirstKept(log, capacity, c);
    StopsThere(log, from, until);
  }

  lemma {:induction false} SliceSnoc(log: seq<Captured>, from: nat, at: nat)
    requires from <= at < |log|
    ensures log[from..at] + [log[at]] == log[from..at + 1]
  {
  }

  // ------------------------------------------------------------- the ring

  class Tracker {
    var cursor: nat
    var windowStart: nat

    ghost function Get(): Cursor
      reads this
    {
      Cursor(cursor, windowStart)
    }

    constructor (c: nat, now: nat)
      ensures Get() == Cursor(c, now)
    {
      cursor, windowStart := c, now;
    }
  }

  class CaptureRing {
    const capacity: nat
    var buf: seq<Captured>
    var pushed: nat
    ghost var log: seq<Captured>

    /** The buffer is the newest part of the log, as much as fits. */
    ghost predicate Valid()
      reads this
    {
      capacity > 0 && pushed == |log| && buf == log[Oldest(log, capacity)..]
    }

    constructor (capacity: nat)
      requires capacity > 0
      ensures Valid() && this.capacity == capacity && log == []
    {
      this.capacity, buf, pushed, log := capacity, [], 0, [];
    }

    method Push(ev: Captured)
      requires Valid()
      modifies this
      ensures Valid() && log == old(log) + [ev]
    {
      if |buf| == capacity {
        buf := buf[1..];
      }
      buf := buf + [ev];
      pushed := pushed + 1;
      log := log + [ev];
    }

    method TrackerAt(now: nat) returns (t: Tracker)
      requires Valid()
      ensures fresh(t) && t.Get() == Cursor(|log|, now)
    {
      t := new Tracker(pushed, now);
    }

    /** The bounded ring cuts what the full log would give. */
    method Cut(t: Tracker, until: nat) returns (batch: Batch)
      requires Valid() && t.cursor <= |log|
      modifies t
      ensures batch == CutBatch(log, capacity, old(t.Get()), until)
      ensures t.Get() == CutCursor(log, capacity, old(t.Get()), until)
    {
      ghost var all := log;
      var oldest := pushed - |buf|;
      var lost := SatSub(oldest, t.cursor);
      var at := Max(t.cursor, oldest);
      ghost var from := at;
      var events := [];
      while at - oldest < |buf| && buf[at - oldest].epoch < until
        invariant oldest == Oldest(all, capacity) <= from <= at <= |all|
        invariant events == all[from..at] && t.Get() == old(t.Get())
        invariant StopAt(all, at, until) == StopAt(all, from, until)
        decreases |all| - at
      {
        assert buf[at - oldest] == all[at];
        SliceSnoc(all, from, at);
        events := events + [buf[at - oldest]];
        at := at + 1;
      }
      assert at < |all| ==> buf[at - oldest] == all[at];
      assert StopAt(all, at, until) == at;
      assert events == CutBatch(all, capacity, old(t.Get()), until).events;
      t.cursor := at;
      batch := Batch(MIDI_CAPTURE_VERSION, t.windowStart, until, events, lost);
      t.windowStart := until;
    }
  }

  // ------------------------------------------------ any number of trackers

  type TrackerId = nat

  /** A tracker and the batches it has been given since it was opened. */
  datatype Reader = Reader(cursor: Cursor, born: Cursor, batches: seq<Batch>)

  datatype System = System(capacity: nat, log: seq<Captured>, readers: map<TrackerId, Reader>)

  datatype Step = PushEvent(ev: Captured) | Open(id: TrackerId, now: nat) | CutFor(id: TrackerId, until: nat)

  function OpenReader(log: seq<Captured>, now: nat): Reader {
    Reader(Cursor(|log|, now), Cursor(|log|, now), [])
  }

  function CutReader(log: seq<Captured>, capacity: nat, r: Reader, until: nat): Reader
    requires r.cursor.at <= |log|
  {
    r.(cursor := CutCursor(log, capacity, r.cursor, until),
        batches := r.batches + [CutBatch(log, capacity, r.cursor, until)])
  }

  function Apply(s: System, a: Step): System {
    match a
    case PushEvent(ev) => s.(log := s.log + [ev])
    case Open(id, now) => if id in s.readers then s else s.(readers := s.readers[id := OpenReader(s.log, now)])
    case CutFor(id, until) =>
      if id in s.readers && s.readers[id].cursor.at <= |s.log|
      then s.(readers := s.readers[id := CutReader(s.log, s.capacity, s.readers[id], until)]) else s
  }

  function Run(s: System, steps: seq<Step>): System
    decreases |steps|
  {
    if steps == [] then s else Run(Apply(s, steps[0]), steps[1..])
  }

  function Start(capacity: nat): System {
    System(capacity, [], map[])
  }

  /** The batches, read from `at` on, are successive slices of the log with the
      losses between them, and end at `to`. */
  ghost predicate Tiles(log: seq<Captured>, at: nat, bs: seq<Batch>, to: nat)
    decreases |bs|
  {
    if bs == [] then at == to <= |log|
    else
      var from := at + bs[0].lost;
      && from + |bs[0].events| <= |log| && bs[0].events == log[from..from + |bs[0].events|]
      && Tiles(log, from + |bs[0].events|, bs[1..], to)
  }

  /** Windows chain from `start` to `end`. */
  predicate Chained(start: nat, bs: seq<Batch>, end: nat)
    decreases |bs|
  {
    if bs == [] then start == end else bs[0].start == start && Chained(bs[0].end, bs[1..], end)
  }

  function Delivered(bs: seq<Batch>): nat {
    if bs == [] then 0 else |bs[0].events| + Delivered(bs[1..])
  }

  function Lost(bs: seq<Batch>): nat {
    if bs == [] then 0 else bs[0].lost + Lost(bs[1..])
  }

  lemma {:induction false} TilesGrow(log: seq<Captured>, ev: Captured, at: nat, bs: seq<Batch>, to: nat)
    requires Tiles(log, at, bs, to)
    ensures Tiles(log + [ev], at, bs, to)
    decreases |bs|
  {
    if bs != [] {
      var from := at + bs[0].lost;
      assert (log + [ev])[from..from + |bs[0].events|] == log[from..from + |bs[0].events|];
      TilesGrow(log, ev, from + |bs[0].events|, bs[1..], to);
    }
  }

  lemma {:induction false} TilesSnoc(log: seq<Captured>, at: nat, bs: seq<Batch>, to: nat, b: Batch)
    requires Tiles(log, at, bs, to) && to + b.lost + |b.events| <= |log|
    requires b.events == log[to + b.lost..to + b.lost + |b.events|]
    ensures Tiles(log, at, bs + [b], to + b.lost + |b.events|)
    decreases |bs|
  {
    if bs == [] {
      assert bs + [b] == [b] && [b][1..] == [];
    } else {
      assert (bs + [b])[1..] == bs[1..] + [b];
      TilesSnoc(log, at + bs[0].lost + |bs[0].events|, bs[1..], to, b);
    }
  }

  lemma {:induction false} ChainedSnoc(start: nat, bs: seq<Batch>, end: nat, b: Batch)
    requires Chained(start, bs, end) && b.start == end
    ensures Chained(start, bs + [b], b.end)
    decreases |bs|
  {
    if bs == [] {
      assert bs + [b] == [b] && [b][1..] == [];
    } else {
      assert (bs + [b])[1..] == bs[1..] + [b];
      ChainedSnoc(bs[0].end, bs[1..], end, b);
    }
  }

  lemma {:induction false} TilesConserve(log: seq<Captured>, at: nat, bs: seq<Batch>, to: nat)
    requires Tiles(log, at, bs, to)
    ensures at + Delivered(bs) + Lost(bs) == to
    decreases |bs|
  {
    if bs != [] {
      TilesConserve(log, at + bs[0].lost + |bs[0].events|, bs[1..], to);
    }
  }

  ghost predicate ReaderOk(log: seq<Captured>, r: Reader) {
    && Tiles(log, r.born.at, r.batches, r.cursor.at)
    && Chained(r.born.windowStart, r.batches, r.cursor.windowStart) && AllCurrent(r.batches)
  }

  ghost predicate Inv(s: System) {
    forall id :: id in s.readers ==> ReaderOk(s.log, s.readers[id])
  }

  lemma {:induction false} TilesEnd(log: seq<Captured>, at: nat, bs: seq<Batch>, to: nat)
    requires Tiles(log, at, bs, to)
    ensures to <= |log|
    decreases |bs|
  {
    if bs != [] {
      TilesEnd(log, at + bs[0].lost + |bs[0].events|, bs[1..], to);
    }
  }

  lemma {:induction false} CutReaderOk(log: seq<Captured>, capacity: nat, r: Reader, until: nat)
    requires ReaderOk(log, r) && r.cursor.at <= |log|
    ensures ReaderOk(log, CutReader(log, capacity, r, until))
  {
    var b := CutBatch(log, capacity, r.cursor, until);
    CutMeaning(log, capacity, r.cursor, until);
    TilesSnoc(log, r.born.at, r.batches, r.cursor.at, b);
    ChainedSnoc(r.born.windowStart, r.batches, r.cursor.windowStart, b);
  }

  lemma {:induction false} StepKeeps(s: System, a: Step)
    requires Inv(s)
    ensures Inv(Apply(s, a))
  {
    var s' := Apply(s, a);
    forall id | id in s'.readers
      ensures ReaderOk(s'.log, s'.readers[id])
    {
      match a
      case PushEvent(ev) =>
        var r := s.readers[id];
        TilesGrow(s.log, ev, r.born.at, r.batches, r.cursor.at);
      case Open(_, _) =>
      case CutFor(id', until) =>
        if id == id' {
          var r := s.readers[id];
          TilesEnd(s.log, r.born.at, r.batches, r.cursor.at);
          CutReaderOk(s.log, s.capacity, r, until);
        }
    }
  }

  lemma {:induction false} RunKeeps(s: System, steps: seq<Step>)
    requires Inv(s)
    ensures Inv(Run(s, steps))
    decreases |steps|
  {
    if steps != [] {
      StepKeeps(s, steps[0]);
      RunKeeps(Apply(s, steps[0]), steps[1..]);
    }
  }

  /** Over any interleaving: each tracker's batches are in-order, disjoint
      slices of the log of all pushes, delivered plus lost is its cursor's
      advance, and its windows chain. */
  lemma {:induction false} RingRefinesLog(capacity: nat, steps: seq<Step>, id: TrackerId)
    requires id in Run(Start(capacity), steps).readers
    ensures var s := Run(Start(capacity), steps);
            var r := s.readers[id];
            && Tiles(s.log, r.born.at, r.batches, r.cursor.at)
            && r.born.at + Delivered(r.batches) + Lost(r.batches) == r.cursor.at <= |s.log|
            && Chained(r.born.windowStart, r.batches, r.cursor.windowStart) && AllCurrent(r.batches)
  {
    RunKeeps(Start(capacity), steps);
    var s := Run(Start(capacity), steps);
    var r := s.readers[id];
    assert ReaderOk(s.log, r);
    TilesConserve(s.log, r.born.at, r.batches, r.cursor.at);
    TilesEnd(s.log, r.born.at, r.batches, r.cursor.at);
  }

  // --------------------------------------------------------- independence

  /** The run as one tracker alone would have had it: its own steps and the pushes. */
  function Only(id: TrackerId, steps: seq<Step>): seq<Step>
    decreases |steps|
  {
    if steps == [] then []
    else if steps[0].PushEvent? || steps[0].id == id then [steps[0]] + Only(id, steps[1..])
    else Only(id, steps[1..])
  }

  function View(s: System, id: TrackerId): Option<Reader> {
    if id in s.readers then Some(s.readers[id]) else None
  }

  /** No tracker's cuts ever affect another's: a tracker sees the same run with
      all the others left out. */
  lemma {:induction false} TrackersAreIndependent(s: System, alone: System, steps: seq<Step>, id: TrackerId)
    requires s.capacity == alone.capacity && s.log == alone.log && View(s, id) == View(alone, id)
    ensures Run(s, steps).log == Run(alone, Only(id, steps)).log
    ensures View(Run(s, steps), id) == View(Run(alone, Only(id, steps)), id)
    decreases |steps|
  {
    if steps != [] {
      var a := steps[0];
      if a.PushEvent? || a.id == id {
        assert ([a] + Only(id, steps[1..]))[1..] == Only(id, steps[1..]);
        TrackersAreIndependent(Apply(s, a), Apply(alone, a), steps[1..], id);
      } else {
        TrackersAreIndependent(Apply(s, a), alone, steps[1..], id);
      }
    }
  }

  // -------------------------------------------------------------- windows

  datatype ParseError = UnknownVersion(v: nat) | InvertedWindow(start: nat, end: nat)

  datatype Parsed = Accepted(batch: Batch) | Refused(error: ParseError)

  /** The receiver's check of a batch. */
  function CheckBatch(b: Batch): Parsed {
    if b.version != MIDI_CAPTURE_VERSION then Refused(UnknownVersion(b.version))
    else if b.start > b.end then Refused(InvertedWindow(b.start, b.end))
    else Accepted(b)
  }

  /** Cut times of one tracker, in order. */
  function Ends(bs: seq<Batch>): seq<nat> {
    if bs == [] then [] else [bs[0].end] + Ends(bs[1..])
  }

  predicate NonDecreasing(from: nat, ts: seq<nat>)
    decreases |ts|
  {
    ts == [] || (from <= ts[0] && NonDecreasing(ts[0], ts[1..]))
  }

  predicate AllAccepted(bs: seq<Batch>) {
    forall i :: 0 <= i < |bs| ==> CheckBatch(bs[i]).Accepted?
  }

  predicate AllCurrent(bs: seq<Batch>) {
    forall i :: 0 <= i < |bs| ==> bs[i].version == MIDI_CAPTURE_VERSION
  }

  /** The receiver accepts every window exactly when cut times never decrease. */
  lemma {:induction false} WindowsAcceptedWhenTimeAdvances(start: nat, bs: seq<Batch>, end: nat)
    requires Chained(start, bs, end) && AllCurrent(bs)
    ensures AllAccepted(bs) <==> NonDecreasing(start, Ends(bs))
    decreases |bs|
  {
    if bs != [] {
      WindowsAcceptedWhenTimeAdvances(bs[0].end, bs[1..], end);
      assert AllAccepted(bs) <==> CheckBatch(bs[0]).Accepted? && AllAccepted(bs[1..]) by {
        if CheckBatch(bs[0]).Accepted? && AllAccepted(bs[1..]) {
          assert forall i :: 0 < i < |bs| ==> bs[i] == bs[1..][i - 1];
        }
        if AllAccepted(bs) {
          assert forall i :: 0 <= i < |bs| - 1 ==> bs[1..][i] == bs[i + 1];
        }
      }
    }
  }

  // ---------------------------------------------------------- the batcher

  const CUT_INTERVAL: real := 4.0
  const RING_CAPACITY: nat := 16384

  /** What `cut_and_ship` did. */
  datatype Shipment = NotYet | NoTarget | NothingToShip(lost: nat) | Ship(context: nat, batch: Batch)

  /** The ring and its first tracker, born together. */
  class CaptureState {
    const ring: CaptureRing
    const tracker: Tracker
    var lastCut: real
    var waitingLogged: bool

    ghost predicate Valid()
      reads this, ring, tracker
    {
      ring.Valid() && tracker.cursor <= |ring.log|
    }

    constructor (epochNow: nat, now: real)
      ensures Valid() && fresh(ring) && fresh(tracker) && ring.capacity == RING_CAPACITY
      ensures tracker.Get() == Cursor(0, epochNow) && ring.log == [] && lastCut == now
    {
      var r := new CaptureRing(RING_CAPACITY);
      var t := r.TrackerAt(epochNow);
      ring, tracker := r, t;
      lastCut, waitingLogged := now, false;
    }

    /** All captures waiting in the channel go into the ring, in order. */
    method DrainEar(waiting: seq<Captured>)
      requires Valid()
      modifies ring
      ensures Valid() && ring.log == old(ring.log) + waiting && tracker.Get() == old(tracker.Get())
    {
      for i := 0 to |waiting|
        invariant Valid() && ring.log == old(ring.log) + waiting[..i] && tracker.Get() == old(tracker.Get())
      {
        ring.Push(waiting[i]);
        assert old(ring.log) + waiting[..i] + [waiting[i]] == old(ring.log) + waiting[..i + 1];
      }
      assert waiting[..|waiting|] == waiting;
    }

    /** Cut and ship, at most once per interval, and only when there is a target:
        without one nothing is consumed. */
    method CutAndShip(target: Option<nat>, now: real, epochNow: nat) returns (r: Shipment)
      requires Valid()
      modifies this, tracker
      ensures Valid()
      ensures now - old(lastCut) < CUT_INTERVAL <==> r == NotYet
      ensures r.NotYet? || target.None? ==> tracker.Get() == old(tracker.Get())
      ensures !r.NotYet? ==> lastCut == now && (target.None? <==> r == NoTarget)
      ensures !r.NotYet? && target.Some? ==>
                && tracker.Get() == CutCursor(ring.log, ring.capacity, old(tracker.Get()), epochNow)
                && var b := CutBatch(ring.log, ring.capacity, old(tracker.Get()), epochNow);
                   r == if b.events == [] then NothingToShip(b.lost) else Ship(target.value, b)
    {
      if now - lastCut < CUT_INTERVAL {
        return NotYet;
      }
      lastCut := now;
      if target.None? {
        waitingLogged := true;
        return NoTarget;
      }
      waitingLogged := false;
      ghost var c := tracker.Get();
      CutMeaning(ring.log, ring.capacity, c, epochNow);
      var batch := ring.Cut(tracker, epochNow);
      if batch.events == [] {
        return NothingToShip(batch.lost);
      }
      r := Ship(target.value, batch);
    }
  }

  /** A loss goes unreported exactly when something was overwritten and the
      oldest event left is stamped at or after the cut: the empty batch is not
      shipped, and its count with it. */
  lemma {:induction false} UnreportedLoss(log: seq<Captured>, capacity: nat, c: Cursor, until: nat)
    requires c.at <= |log| && capacity > 0
    ensures var b := CutBatch(log, capacity, c, until);
            b.events == [] && b.lost > 0 <==> |log| - c.at > capacity && log[|log| - capacity].epoch >= until
  {
    CutMeaning(log, capacity, c, until);
    StopsThere(log, FirstKept(log, capacity, c), until);
  }

  /** As with a ring of one event, two pushes, and a cut before the second stamp. */
  lemma {:induction false} LossGoesUnreported(a: Captured, b: Captured)
    requires a.epoch < 5 <= b.epoch
    ensures CutBatch([a, b], 1, Cursor(0, 0), 5) == Batch(MIDI_CAPTURE_VERSION, 0, 5, [], 1)
  {
    UnreportedLoss([a, b], 1, Cursor(0, 0), 5);
  }
}
