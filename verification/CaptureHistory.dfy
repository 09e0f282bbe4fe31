/** The capture ring and its trackers told from the steps of a run alone. */
module CaptureHistory {
  import opened Prelude
  import opened Capture

  type Steps = seq<Step>

  /** Every event pushed, in order. */
  function Pushes(steps: Steps): seq<Captured>
    decreases |steps|
  {
    if steps == [] then []
    else
      var h, a := steps[..|steps| - 1], steps[|steps| - 1];
      if a.PushEvent? then Pushes(h) + [a.ev] else Pushes(h)
  }

  /** Where a tracker was opened first: at the head of what had been pushed. */
  function Opened(steps: Steps, id: TrackerId): Option<Cursor>
    decreases |steps|
  {
    if steps == [] then None
    else
      var h, a := steps[..|steps| - 1], steps[|steps| - 1];
      if Opened(h, id).Some? then Opened(h, id)
      else if a.Open? && a.id == id then Some(Cursor(|Pushes(h)|, a.now))
      else None
  }

  /** The batches its cuts have given: at each, the events from the one after the
      last given or lost, as far as the ring still has them, up to the first
      stamped late. */
  function Given(capacity: nat, steps: Steps, id: TrackerId): seq<Batch>
    decreases |steps|, 0
  {
    if steps == [] then []
    else
      var h, a := steps[..|steps| - 1], steps[|steps| - 1];
      if a.CutFor? && a.id == id && Opened(h, id).Some? then Given(capacity, h, id) + [Batch1(capacity, h, id, a.until)]
      else Given(capacity, h, id)
  }

  /** How far a tracker has come: what it was born past, given, and has lost. */
  function Position(capacity: nat, steps: Steps, id: TrackerId): nat
    decreases |steps|, 1
  {
    (if Opened(steps, id).Some? then Opened(steps, id).value.at else 0)
    + Delivered(Given(capacity, steps, id)) + Lost(Given(capacity, steps, id))
  }

  /** The start of its next window: the end of the last one. */
  function WindowStart(capacity: nat, steps: Steps, id: TrackerId): nat
    decreases |steps|, 1
  {
    var bs := Given(capacity, steps, id);
    if bs != [] then bs[|bs| - 1].end else if Opened(steps, id).Some? then Opened(steps, id).value.windowStart else 0
  }

  /** The events before the first one stamped late. */
  function Early(evs: seq<Captured>, until: nat): seq<Captured> {
    if evs == [] || evs[0].epoch >= until then [] else [evs[0]] + Early(evs[1..], until)
  }

  function Batch1(capacity: nat, h: Steps, id: TrackerId, until: nat): Batch
    decreases |h|, 2
  {
    var log, at := Pushes(h), Position(capacity, h, id);
    var lost := SatSub(|log| - Min(at, |log|), capacity);
    Batch(1, WindowStart(capacity, h, id), until, Early(log[Min(at + lost, |log|)..], until), lost)
  }

  // -------------------------------------------------- the system does

  lemma {:induction false} EarlyIsSlice(log: seq<Captured>, at: nat, until: nat)
    requires at <= |log|
    ensures log[at..StopAt(log, at, until)] == Early(log[at..], until)
    decreases |log| - at
  {
    if at < |log| && log[at].epoch < until {
      EarlyIsSlice(log, at + 1, until);
      assert log[at..][1..] == log[at + 1..] && log[at..][0] == log[at];
      var stop := StopAt(log, at + 1, until);
      assert log[at..stop] == [log[at]] + log[at + 1..stop];
    }
  }

  ghost predicate Tells(capacity: nat, h: Steps, s: System) {
    && s.capacity == capacity && s.log == Pushes(h)
    && (forall id :: id in s.readers <==> Opened(h, id).Some?)
    && forall id :: id in s.readers ==> ReaderTells(capacity, h, id, s.readers[id])
  }

  ghost predicate ReaderTells(capacity: nat, h: Steps, id: TrackerId, r: Reader) {
    && Opened(h, id) == Some(r.born) && r.batches == Given(capacity, h, id)
    && r.cursor == Cursor(Position(capacity, h, id), WindowStart(capacity, h, id)) && r.cursor.at <= |Pushes(h)|
  }

  lemma {:induction false} SumsSnoc(bs: seq<Batch>, b: Batch)
    ensures Delivered(bs + [b]) == Delivered(bs) + |b.events| && Lost(bs + [b]) == Lost(bs) + b.lost
  {
    if bs == [] {
      assert bs + [b] == [b] && [b][1..] == [];
    } else {
      assert (bs + [b])[1..] == bs[1..] + [b];
      SumsSnoc(bs[1..], b);
    }
  }

  /** The batch a cut gives. */
  lemma {:induction false} CutIs(capacity: nat, h: Steps, id: TrackerId, r: Reader, until: nat)
    requires ReaderTells(capacity, h, id, r)
    ensures CutBatch(Pushes(h), capacity, r.cursor, until) == Batch1(capacity, h, id, until)
  {
    var log := Pushes(h);
    CutMeaning(log, capacity, r.cursor, until);
    EarlyIsSlice(log, FirstKept(log, capacity, r.cursor), until);
  }

  lemma {:induction false} OneMore(capacity: nat, h: Steps, a: Step, id: TrackerId)
    ensures Pushes(h + [a]) == if a.PushEvent? then Pushes(h) + [a.ev] else Pushes(h)
    ensures Opened(h + [a], id) ==
            if Opened(h, id).Some? then Opened(h, id)
            else if a.Open? && a.id == id then Some(Cursor(|Pushes(h)|, a.now)) else None
    ensures Given(capacity, h + [a], id) ==
            if a.CutFor? && a.id == id && Opened(h, id).Some? then
                Given(capacity, h, id) + [Batch1(capacity, h, id, a.until)]
            else Given(capacity, h, id)
  {
    assert (h + [a])[..|h|] == h;
  }

  /** Nothing is given before a tracker is opened. */
  lemma {:induction false} NothingGiven(capacity: nat, h: Steps, id: TrackerId)
    requires Opened(h, id).None?
    ensures Given(capacity, h, id) == []
    decreases |h|
  {
    if h != [] {
      NothingGiven(capacity, h[..|h| - 1], id);
    }
  }

  lemma {:induction false} ReaderStep(capacity: nat, h: Steps, s: System, a: Step, id: TrackerId)
    requires Tells(capacity, h, s) && id in Apply(s, a).readers
    ensures ReaderTells(capacity, h + [a], id, Apply(s, a).readers[id])
  {
    OneMore(capacity, h, a, id);
    if id !in s.readers {
      NothingGiven(capacity, h, id);
    } else if a.CutFor? && a.id == id {
      CutTells(capacity, h, id, s.readers[id], a);
    }
  }

  lemma {:induction false} CutTells(capacity: nat, h: Steps, id: TrackerId, r: Reader, a: Step)
    requires ReaderTells(capacity, h, id, r) && a.CutFor? && a.id == id
    ensures ReaderTells(capacity, h + [a], id, CutReader(Pushes(h), capacity, r, a.until))
  {
    OneMore(capacity, h, a, id);
    CutIs(capacity, h, id, r, a.until);
    SumsSnoc(Given(capacity, h, id), Batch1(capacity, h, id, a.until));
    CutMeaning(Pushes(h), capacity, r.cursor, a.until);
  }

  lemma {:induction false} StepTells(capacity: nat, h: Steps, s: System, a: Step)
    requires Tells(capacity, h, s)
    ensures Tells(capacity, h + [a], Apply(s, a))
  {
    var s' := Apply(s, a);
    OneMore(capacity, h, a, 0);
    forall id
      ensures id in s'.readers <==> Opened(h + [a], id).Some?
    {
      OneMore(capacity, h, a, id);
    }
    forall id | id in s'.readers
      ensures ReaderTells(capacity, h + [a], id, s'.readers[id])
    {
      ReaderStep(capacity, h, s, a, id);
    }
  }

  lemma {:induction false} RunTells(capacity: nat, h: Steps, s: System, steps: Steps)
    requires Tells(capacity, h, s)
    ensures Tells(capacity, h + steps, Run(s, steps))
    decreases |steps|
  {
    if steps == [] {
      assert h + steps == h;
    } else {
      StepTells(capacity, h, s, steps[0]);
      RunTells(capacity, h + [steps[0]], Apply(s, steps[0]), steps[1..]);
      assert h + [steps[0]] + steps[1..] == h + steps;
    }
  }

  /** In every run the log is every event pushed, and each tracker opened has
      been given one batch for each of its cuts, with exactly these events and
      losses. */
  lemma {:induction false} EveryCutIsTold(capacity: nat, steps: Steps, id: TrackerId)
    ensures var s := Run(Start(capacity), steps);
            && s.log == Pushes(steps) && (id in s.readers <==> Opened(steps, id).Some?)
            && (id in s.readers ==> s.readers[id].batches == Given(capacity, steps, id))
  {
    RunTells(capacity, [], Start(capacity), steps);
    assert [] + steps == steps;
  }
}
