/** Whole tunes: the single-track and the multi-track compiler, and the MIDI
    file `generate` makes of a tune. */
module Compile {
  import opened Prelude
  import opened AbcAst
  import opened VoiceRender
  import opened GraceGrid
  import opened Repeats
  import opened MidiTrack
  import opened SingleLoop
  import opened MultiLoop
  import opened Smf
  import NoteBalance
  import NoteSafety

  datatype MidiParams = MidiParams(velocity: nat, ticksPerBeat: nat, channel: nat, program: Option<nat>)

  /** A compilation: a tune, its parameters, and the parsers of inline fields. */
  datatype Job = Job(
    tune: Tune, params: MidiParams,
    keyOf: string -> Accidentals, unitOf: string -> Option<Ratio>, meterOf: string -> Meter)

  // ------------------------------------------------------- key signatures

  const SHARPS := [F, C, G, D, A, E, B]
  const FLATS := [B, E, A, D, G, C, F]

  function Signs(n: nat, names: seq<NoteName>, acc: Accidental): Accidentals
    requires n <= |names|
  {
    if n == 0 then map[] else Signs(n - 1, names, acc)[names[n - 1] := acc]
  }

  function Overridden(signs: Accidentals, explicits: seq<(Accidental, NoteName)>): Accidentals
    decreases |explicits|
  {
    if explicits == [] then signs
    else Overridden(signs, explicits[..|explicits| - 1])[explicits[|explicits| - 1].1 := explicits[|explicits| - 1].0]
  }

  function KeyAccidentals(key: Key): Accidentals {
    var f := key.Fifths();
    Overridden(if f >= 0 then Signs(Min(f, 7), SHARPS, Sharp) else Signs(Min(-f, 7), FLATS, Flat), key.explicits)
  }

  method ComputeKeyAccidentals(key: Key) returns (m: Accidentals)
    ensures m == KeyAccidentals(key)
  {
    m := map[];
    var f := key.Fifths();
    var count: nat := if f >= 0 then f else -f;
    var names := if f >= 0 then SHARPS else FLATS;
    var acc := if f >= 0 then Sharp else Flat;
    for i := 0 to count
      invariant m == Signs(Min(i, 7), names, acc)
    {
      if i < |names| {
        m := m[names[i] := acc];
      }
    }
    ghost var signs := m;
    for i := 0 to |key.explicits|
      invariant m == Overridden(signs, key.explicits[..i])
    {
      var (a, name) := key.explicits[i];
      assert key.explicits[..i + 1][..i] == key.explicits[..i];
      m := m[name := a];
    }
    assert key.explicits[..|key.explicits|] == key.explicits;
  }

  // --------------------------------------------------------------- voices

  function FindDef(defs: seq<VoiceDef>, id: string): Option<VoiceDef> {
    if defs == [] then None else if defs[0].id == id then Some(defs[0]) else FindDef(defs[1..], id)
  }

  function VoiceOffset(v: Voice, defs: seq<VoiceDef>): int {
    var def := if v.id.Some? then FindDef(defs, v.id.value) else None;
    if def.None? then 0
    else (if def.value.transpose.Some? then def.value.transpose.value else 0)
         + (if def.value.octave.Some? then def.value.octave.value * 12 else 0)
  }

  function PitchOffset(tune: Tune, v: Voice): int {
    VoiceOffset(v, tune.header.voiceDefs) + tune.header.key.transpose + tune.header.key.octave * 12
    + (if tune.header.midiTranspose.Some? then tune.header.midiTranspose.value else 0)
  }

  function ConfigOf(j: Job, v: Voice): Config {
    Config(PitchOffset(j.tune, v), j.params.ticksPerBeat, j.keyOf, j.unitOf, j.meterOf)
  }

  function UnitOf(j: Job): nat {
    UnitTicks(if j.tune.header.unitLength.Some? then j.tune.header.unitLength.value
        else Ratio(1, 8), j.params.ticksPerBeat)
  }

  /** The state every voice starts in. */
  function StartState(j: Job): VoiceState {
    Fresh(KeyAccidentals(j.tune.header.key), UnitOf(j), j.tune.header.meter)
  }

  /** The elements of a voice as they are played: slurs gone, repeats written out. */
  function Unfolded(v: Voice): seq<Element> {
    ExpandRepeats(FlattenSlurs(v.elements))
  }

  /** A voice ready to be written: whether it has elements, and its writer calls. */
  datatype Part = Part(hasElements: bool, calls: seq<Op>)

  /** The order in which a hash map may give the notes a voice leaves held. */
  ghost predicate FlushOrder(j: Job, v: Voice, order: seq<int>) {
    Lists(order, PerformAll(ConfigOf(j, v), StartState(j), Unfolded(v)).0.held)
  }

  /** The voice's calls, with the tied notes flushed in the given order. */
  function PartOf(j: Job, v: Voice, order: seq<int>): Part {
    Part(v.elements != [], PerformAll(ConfigOf(j, v), StartState(j), Unfolded(v)).1 + Flush(order))
  }

  /** `parts` are the parts of the voices, each under some flush order. */
  ghost predicate PartsOf(j: Job, vs: seq<Voice>, parts: seq<Part>) {
    |parts| == |vs| && forall i :: 0 <= i < |vs| ==> IsPart(j, vs[i], parts[i])
  }

  ghost predicate IsPart(j: Job, v: Voice, part: Part) {
    exists order :: FlushOrder(j, v, order) && part == PartOf(j, v, order)
  }

  // ----------------------------------------------------- the two layouts

  function TempoOf(h: Header): AbcAst.Tempo {
    if h.tempo.Some? then h.tempo.value else AbcAst.Tempo(1, 4, 120)
  }

  function TempoEvents(j: Job): seq<Event> {
    [Event(0, SetTempo(MicrosPerQuarter(TempoOf(j.tune.header))))]
  }

  function ProgramAt(j: Job, ch: nat, tick: nat): seq<Event> {
    var p := if j.tune.header.midiProgram.Some? then j.tune.header.midiProgram else j.params.program;
    if p.Some? then [Event(tick, ProgramChange(ch, p.value % 128))] else []
  }

  function ProgramEvents(j: Job, ch: nat): seq<Event> {
    ProgramAt(j, ch, 0)
  }

  /** Parts end to end on one channel, the clock never rewound. */
  function EndToEnd(ch: nat, vel: nat, parts: seq<Part>, tick: nat): seq<Event>
    decreases |parts|
  {
    if parts == [] then []
    else Played(ch, vel, tick, parts[0].calls) + EndToEnd(ch, vel, parts[1..], tick + Dur(parts[0].calls))
  }

  function TotalDur(parts: seq<Part>): nat
    decreases |parts|
  {
    if parts == [] then 0 else Dur(parts[0].calls) + TotalDur(parts[1..])
  }

  lemma {:induction false} TotalDurSnoc(parts: seq<Part>, p: Part)
    ensures TotalDur(parts + [p]) == TotalDur(parts) + Dur(p.calls)
    decreases |parts|
  {
    if parts == [] {
      assert parts + [p] == [p] && [p][1..] == [];
    } else {
      assert (parts + [p])[1..] == parts[1..] + [p];
      TotalDurSnoc(parts[1..], p);
    }
  }

  lemma {:induction false} EndToEndSnoc(ch: nat, vel: nat, parts: seq<Part>, p: Part, tick: nat)
    ensures EndToEnd(ch, vel, parts + [p], tick)
            == EndToEnd(ch, vel, parts, tick) + Played(ch, vel, tick + TotalDur(parts), p.calls)
    decreases |parts|
  {
    if parts == [] {
      assert parts + [p] == [p] && [p][1..] == [];
      assert EndToEnd(ch, vel, [p], tick) == Played(ch, vel, tick, p.calls) + [];
    } else {
      assert (parts + [p])[1..] == parts[1..] + [p];
      var next := tick + Dur(parts[0].calls);
      var first, last := Played(ch, vel, tick, parts[0].calls), Played(ch, vel, next + TotalDur(parts[1..]), p.calls);
      EndToEndSnoc(ch, vel, parts[1..], p, next);
      Associate(first, EndToEnd(ch, vel, parts[1..], next), last);
      assert EndToEnd(ch, vel, parts + [p], tick) == first + EndToEnd(ch, vel, parts[1..] + [p], next);
    }
  }

  lemma {:induction false} Associate(a: seq<Event>, b: seq<Event>, c: seq<Event>)
    ensures a + (b + c) == (a + b) + c
  {
  }

  function SingleTrack(j: Job, parts: seq<Part>): seq<Event> {
    var ch := j.params.channel % 16;
    TempoEvents(j) + ProgramEvents(j, ch) + EndToEnd(ch, j.params.velocity, parts, 0)
  }

  /** The single-track writer after some of the parts. */
  function SingleSoFar(j: Job, parts: seq<Part>): Track {
    Track(SingleTrack(j, parts), TotalDur(parts))
  }

  lemma {:induction false} SingleSnoc(j: Job, parts: seq<Part>, p: Part)
    ensures SingleSoFar(j, parts + [p])
            == Exec(j.params.channel % 16, j.params.velocity, SingleSoFar(j, parts), p.calls)
  {
    var ch, vel := j.params.channel % 16, j.params.velocity;
    ExecAppends(ch, vel, SingleSoFar(j, parts), p.calls);
    EndToEndSnoc(ch, vel, parts, p, 0);
    TotalDurSnoc(parts, p);
    Associate(TempoEvents(j) + ProgramEvents(j, ch), EndToEnd(ch, vel, parts, 0),
        Played(ch, vel, TotalDur(parts), p.calls));
  }

  /** Voice k's channel: percussion channel 9 is left free, up to the 24th voice. */
  function ChannelOf(k: nat): (ch: nat)
    ensures ch < 16
    ensures ch == 9 <==> k >= 24 && k % 16 == 8
  {
    (if k >= 9 then k + 1 else k) % 16
  }

  /** Voices take the channels in turn, from 0; the first time round they step
      over channel 9, so that the first fifteen voices each have their own. */
  lemma {:induction false} ChannelsInTurn(k: nat)
    ensures ChannelOf(0) == 0 && (ChannelOf(k + 1) - ChannelOf(k)) % 16 == (if k == 8 then 2 else 1)
    ensures forall i :: 0 <= i < k < 15 ==> ChannelOf(i) != ChannelOf(k)
  {
  }

  /** The notes of voice k on a track of its own. */
  function OwnNotes(vel: nat, k: nat, part: Part): seq<Event> {
    Played(ChannelOf(k), vel, 0, part.calls)
  }

  function OwnTrack(j: Job, k: nat, part: Part): seq<Event> {
    ProgramEvents(j, ChannelOf(k)) + OwnNotes(j.params.velocity, k, part)
  }

  /** One track per voice that has elements, voices numbered from k. */
  function OwnTracks(j: Job, k: nat, parts: seq<Part>): seq<seq<Event>>
    decreases |parts|
  {
    if parts == [] then []
    else (if parts[0].hasElements then [OwnTrack(j, k, parts[0])] else []) + OwnTracks(j, k + 1, parts[1..])
  }

  // ----------------------------------------------- the two compilers agree

  /** A voice without elements makes no call, so leaving its track out loses nothing. */
  lemma {:induction false} EmptyVoiceIsSilent(j: Job, v: Voice, part: Part)
    requires IsPart(j, v, part) && v.elements == []
    ensures part == Part(false, [])
  {
    var order :| FlushOrder(j, v, order) && part == PartOf(j, v, order);
    assert FlattenSlurs([]) == [];
    assert FindCuts([]).None?;
    assert Unfolded(v) == [];
    assert forall i :: 0 <= i < |order| ==> order[i] !in StartState(j).held;
  }

  /** The same calls up to a point, and from there the same note-offs in some order. */
  ghost predicate SameUpToFlush(xs: seq<Op>, ys: seq<Op>) {
    exists k :: 0 <= k <= |xs| && k <= |ys| && xs[..k] == ys[..k]
      && multiset(xs[k..]) == multiset(ys[k..]) && OnlyOffs(xs[k..])
  }

  predicate OnlyOffs(ops: seq<Op>) {
    forall i :: 0 <= i < |ops| ==> ops[i].Off?
  }

  /** Two hash orders for the same voice only permute the note-offs at its end. */
  lemma {:induction false} FlushOrderOnlyPermutes(j: Job, v: Voice, p: Part, p': Part)
    requires IsPart(j, v, p) && IsPart(j, v, p')
    ensures SameUpToFlush(p.calls, p'.calls)
  {
    var o1 :| FlushOrder(j, v, o1) && p == PartOf(j, v, o1);
    var o2 :| FlushOrder(j, v, o2) && p' == PartOf(j, v, o2);
    var run := PerformAll(ConfigOf(j, v), StartState(j), Unfolded(v));
    FlushesPermute(o1, o2, run.0.held);
    CutAt(run.1, Flush(o1), Flush(o2));
  }

  /** What the single-track compiler can write after its header, and what the
      multi-track one can write for the voices: each under hash orders of its own. */
  ghost predicate IsSingleOutput(j: Job, notes: seq<Event>) {
    exists parts :: PartsOf(j, j.tune.voices, parts)
        && notes == EndToEnd(j.params.channel % 16, j.params.velocity, parts, 0)
  }

  ghost predicate IsMultiOutput(j: Job, tracks: seq<seq<Event>>) {
    exists parts :: PartsOf(j, j.tune.voices, parts) && tracks == OwnTracks(j, 0, parts)
  }

  /** The events of a list, whatever their order. */
  function Bag(es: seq<Event>): multiset<Event> {
    multiset(es)
  }

  /** A stretch of the single track against a voice's own track: the same
      messages after the program change, with only the channel and a constant
      tick offset changed, up to a point; from there, note-offs in some order. */
  ghost predicate SameVoice(stretch: seq<Event>, program: seq<Event>, track: seq<Event>, start: nat, ch: nat) {
    exists own: seq<Event>, k: int ::
      && track == program + own && 0 <= k <= |own| && k <= |stretch|
      && stretch[..k] == Retarget(own[..k], start, ch)
      && Bag(stretch[k..]) == Bag(Retarget(own[k..], start, ch))
      && forall i :: k <= i < |own| ==> own[i].msg.NoteOff?
  }

  /** The single track is one such stretch after another, one per voice track. */
  ghost predicate SameVoices(j: Job, notes: seq<Event>, k: nat, vs: seq<Voice>, tracks: seq<seq<Event>>)
    decreases |vs|
  {
    if vs == [] then notes == [] && tracks == []
    else if vs[0].elements == [] then SameVoices(j, notes, k + 1, vs[1..], tracks)
    else
      && tracks != []
      && exists n, start ::
        && 0 <= n <= |notes| && 0 <= start
        && SameVoice(notes[..n], ProgramEvents(j, ChannelOf(k)), tracks[0], start, j.params.channel % 16)
        && SameVoices(j, notes[n..], k + 1, vs[1..], tracks[1..])
  }

  lemma {:induction false} RetargetConcat(xs: seq<Event>, ys: seq<Event>, d: nat, ch: nat)
    ensures Retarget(xs + ys, d, ch) == Retarget(xs, d, ch) + Retarget(ys, d, ch)
  {
    if xs == [] {
      assert xs + ys == ys;
    } else {
      assert (xs + ys)[1..] == xs[1..] + ys;
      RetargetConcat(xs[1..], ys, d, ch);
    }
  }

  lemma {:induction false} OffsPlayed(ch: nat, vel: nat, tick: nat, ops: seq<Op>)
    requires OnlyOffs(ops)
    ensures |Played(ch, vel, tick, ops)| == |ops|
    ensures forall i :: 0 <= i < |ops| ==> Played(ch, vel, tick, ops)[i] == Event(tick, NoteOff(ch, ops[i].pitch))
  {
    if ops != [] {
      OffsPlayed(ch, vel, tick, ops[1..]);
    }
  }

  /** How often an event is among the note-offs played. */
  lemma {:induction false} OffCount(ch: nat, vel: nat, tick: nat, ops: seq<Op>, e: Event)
    requires OnlyOffs(ops)
    ensures multiset(Played(ch, vel, tick, ops))[e] ==
            if e.msg.NoteOff? && e == Event(tick, NoteOff(ch, e.msg.pitch)) then multiset(ops)[Off(e.msg.pitch)] else 0
    decreases |ops|
  {
    if ops != [] {
      OffCount(ch, vel, tick, ops[1..], e);
      var first, rest := Event(tick, NoteOff(ch, ops[0].pitch)), Played(ch, vel, tick, ops[1..]);
      assert ops == [ops[0]] + ops[1..] && Played(ch, vel, tick, ops) == [first] + rest;
      assert multiset([first] + rest)[e] == (if e == first then 1 else 0) + multiset(rest)[e];
    }
  }

  /** Permuted note-offs play as permuted events. */
  lemma {:induction false} PermutedPlay(ch: nat, vel: nat, tick: nat, xs: seq<Op>, ys: seq<Op>)
    requires OnlyOffs(xs) && OnlyOffs(ys) && multiset(xs) == multiset(ys)
    ensures Bag(Played(ch, vel, tick, xs)) == Bag(Played(ch, vel, tick, ys))
  {
    forall e
      ensures multiset(Played(ch, vel, tick, xs))[e] == multiset(Played(ch, vel, tick, ys))[e]
    {
      OffCount(ch, vel, tick, xs, e);
      OffCount(ch, vel, tick, ys, e);
    }
  }

  lemma {:induction false} PermutedOffs(xs: seq<Op>, ys: seq<Op>)
    requires OnlyOffs(xs) && multiset(xs) == multiset(ys)
    ensures OnlyOffs(ys)
  {
    forall i | 0 <= i < |ys|
      ensures ys[i].Off?
    {
      assert ys[i] in multiset(ys);
      assert ys[i] in xs;
    }
  }

  /** One voice, whatever hash orders the two compilers meet. */
  lemma {:induction false} VoicesAgree(j: Job, k: nat, v: Voice, p: Part, p': Part, start: nat)
    requires IsPart(j, v, p) && IsPart(j, v, p')
    ensures var ch := j.params.channel % 16;
            SameVoice(Played(ch, j.params.velocity, start, p.calls), ProgramEvents(j, ChannelOf(k)),
                OwnTrack(j, k, p'), start, ch)
  {
    FlushOrderOnlyPermutes(j, v, p, p');
    CallsAgree(j, k, p.calls, p'.calls, p', start);
  }

  lemma {:induction false} CallsAgree(j: Job, k: nat, xs: seq<Op>, ys: seq<Op>, p': Part, start: nat)
    requires SameUpToFlush(xs, ys) && ys == p'.calls
    ensures var ch := j.params.channel % 16;
            SameVoice(Played(ch, j.params.velocity, start, xs), ProgramEvents(j, ChannelOf(k)), OwnTrack(j, k, p'),
                start, ch)
  {
    var m :| 0 <= m <= |xs| && m <= |ys| && xs[..m] == ys[..m] && multiset(xs[m..]) == multiset(ys[m..])
        && OnlyOffs(xs[m..]);
    assert xs == xs[..m] + xs[m..] && ys == xs[..m] + ys[m..];
    EventsAgree(j.params.channel % 16, ChannelOf(k), j.params.velocity, xs[..m], xs[m..], ys[m..], start,
        ProgramEvents(j, ChannelOf(k)));
  }

  lemma {:induction false} EventsAgree(ch: nat, ck: nat, vel: nat, head: seq<Op>, end: seq<Op>, end': seq<Op>,
                                       start: nat, program: seq<Event>)
    requires multiset(end) == multiset(end') && OnlyOffs(end)
    ensures SameVoice(Played(ch, vel, start, head + end), program, program + Played(ck, vel, 0, head + end'), start, ch)
  {
    var d := Dur(head);
    PermutedOffs(end, end');
    AgreeFrom(ch, ck, vel, head, end, end', start, d, start + d, program);
  }

  lemma {:induction false} AgreeFrom(ch: nat, ck: nat, vel: nat, head: seq<Op>, end: seq<Op>, end': seq<Op>,
                                     start: nat, d: nat, late: nat, program: seq<Event>)
    requires d == Dur(head) && late == start + d && OnlyOffs(end) && OnlyOffs(end') && multiset(end) == multiset(end')
    ensures SameVoice(Played(ch, vel, start, head + end), program, program + Played(ck, vel, 0, head + end'), start, ch)
  {
    var a, b, b' := Played(ch, vel, start, head), Played(ch, vel, late, end), Played(ch, vel, late, end');
    var h, t := Played(ck, vel, 0, head), Played(ck, vel, d, end');
    var stretch, own := Played(ch, vel, start, head + end), Played(ck, vel, 0, head + end');
    assert stretch == a + b by {
      PlayedConcat(ch, vel, start, head, end);
    }
    assert own == h + t by {
      PlayedConcat(ck, vel, 0, head, end');
    }
    assert a == Retarget(h, start, ch) by {
      HeadsAgree(ch, ck, vel, head, start);
    }
    assert Bag(b) == Bag(b') by {
      PermutedPlay(ch, vel, late, end, end');
    }
    assert b' == Retarget(t, start, ch) by {
      PlayedElsewhere(ck, ch, vel, d, start, end');
    }
    assert forall i :: 0 <= i < |t| ==> t[i].msg.NoteOff? by {
      OffsPlayed(ck, vel, d, end');
    }
    JoinAgrees(ch, stretch, a, b, b', own, h, t, program, start);
  }

  lemma {:induction false} JoinAgrees(ch: nat, stretch: seq<Event>, a: seq<Event>, b: seq<Event>, b': seq<Event>,
                                      own: seq<Event>, h: seq<Event>, t: seq<Event>,
                                      program: seq<Event>, start: nat)
    requires stretch == a + b && own == h + t && a == Retarget(h, start, ch) && Bag(b) == Bag(b')
             && b' == Retarget(t, start, ch)
    requires forall i :: 0 <= i < |t| ==> t[i].msg.NoteOff?
    ensures SameVoice(stretch, program, program + own, start, ch)
  {
    StretchAgrees(stretch, a, b, h, t, program, program + own, start, ch);
  }

  lemma {:induction false} HeadsAgree(ch: nat, ck: nat, vel: nat, head: seq<Op>, start: nat)
    ensures Played(ch, vel, start, head) == Retarget(Played(ck, vel, 0, head), start, ch)
  {
    PlayedElsewhere(ck, ch, vel, 0, start, head);
  }

  lemma {:induction false} StretchAgrees(stretch: seq<Event>, a: seq<Event>, b: seq<Event>, h: seq<Event>,
                                         t: seq<Event>,
                                         program: seq<Event>, track: seq<Event>, start: nat, ch: nat)
    requires stretch == a + b && track == program + (h + t)
    requires a == Retarget(h, start, ch) && Bag(b) == Bag(Retarget(t, start, ch))
    requires forall i :: 0 <= i < |t| ==> t[i].msg.NoteOff?
    ensures SameVoice(stretch, program, track, start, ch)
  {
    RetargetLength(h, start, ch);
    var own, k := h + t, |h|;
    assert own[..k] == h && own[k..] == t && stretch[..k] == a && stretch[k..] == b;
  }

  lemma {:induction false} RetargetLength(es: seq<Event>, d: nat, ch: nat)
    ensures |Retarget(es, d, ch)| == |es|
  {
    if es != [] {
      RetargetLength(es[1..], d, ch);
    }
  }

  /** One voice's part for each compiler: nothing for an empty voice, else the same voice. */
  ghost predicate PairAgrees(j: Job, k: nat, v: Voice, p: Part, p': Part) {
    var ch, vel := j.params.channel % 16, j.params.velocity;
    if v.elements == [] then p == Part(false, []) && p' == Part(false, [])
    else
      && p'.hasElements
      && forall start: nat :: SameVoice(Played(ch, vel, start, p.calls), ProgramEvents(j, ChannelOf(k)),
          OwnTrack(j, k, p'), start, ch)
  }

  ghost predicate PairsAgree(j: Job, k: nat, vs: seq<Voice>, ps: seq<Part>, ps': seq<Part>)
    requires |vs| == |ps| == |ps'|
    decreases |vs|
  {
    vs == [] || (PairAgrees(j, k, vs[0], ps[0], ps'[0]) && PairsAgree(j, k + 1, vs[1..], ps[1..], ps'[1..]))
  }

  lemma {:induction false} PartsPair(j: Job, k: nat, v: Voice, p: Part, p': Part)
    requires IsPart(j, v, p) && IsPart(j, v, p')
    ensures PairAgrees(j, k, v, p, p')
  {
    if v.elements == [] {
      EmptyVoiceIsSilent(j, v, p);
      EmptyVoiceIsSilent(j, v, p');
    } else {
      var ch, vel := j.params.channel % 16, j.params.velocity;
      forall start: nat
        ensures SameVoice(Played(ch, vel, start, p.calls), ProgramEvents(j, ChannelOf(k)), OwnTrack(j, k, p'), start,
                ch)
      {
        VoicesAgree(j, k, v, p, p', start);
      }
    }
  }

  lemma {:induction false} PartsPairUp(j: Job, k: nat, vs: seq<Voice>, ps: seq<Part>, ps': seq<Part>)
    requires PartsOf(j, vs, ps) && PartsOf(j, vs, ps')
    ensures PairsAgree(j, k, vs, ps, ps')
    decreases |vs|
  {
    if vs != [] {
      assert PairAgrees(j, k, vs[0], ps[0], ps'[0]) by {
        assert IsPart(j, vs[0], ps[0]) && IsPart(j, vs[0], ps'[0]);
        PartsPair(j, k, vs[0], ps[0], ps'[0]);
      }
      PartsPairUp(j, k + 1, vs[1..], ps[1..], ps'[1..]);
    }
  }

  lemma {:induction false} PairsNext(j: Job, k: nat, vs: seq<Voice>, ps: seq<Part>, ps': seq<Part>, start: nat)
    returns (next: nat, vs1: seq<Voice>, ps1: seq<Part>, ps1': seq<Part>)
    requires |vs| == |ps| == |ps'| && vs != [] && PairsAgree(j, k, vs, ps, ps')
    ensures next == start + Dur(ps[0].calls) && vs1 == vs[1..] && ps1 == ps[1..] && ps1' == ps'[1..]
    ensures PairAgrees(j, k, vs[0], ps[0], ps'[0]) && PairsAgree(j, k + 1, vs1, ps1, ps1')
  {
    next, vs1, ps1, ps1' := start + Dur(ps[0].calls), vs[1..], ps[1..], ps'[1..];
  }

  lemma {:induction false} NoVoicesAgree(j: Job, k: nat, start: nat)
    ensures SameVoices(j, EndToEnd(j.params.channel % 16, j.params.velocity, [], start), k, [], OwnTracks(j, k, []))
  {
  }

  /** The outputs of the two compilers from voice k on, the single one from a tick. */
  lemma {:induction false} PartsAgree(j: Job, k: nat, vs: seq<Voice>, ps: seq<Part>, ps': seq<Part>, start: nat,
                                      notes: seq<Event>, tracks: seq<seq<Event>>)
    requires |vs| == |ps| == |ps'| && PairsAgree(j, k, vs, ps, ps')
    requires notes == EndToEnd(j.params.channel % 16, j.params.velocity, ps, start) && tracks == OwnTracks(j, k, ps')
    ensures SameVoices(j, notes, k, vs, tracks)
    decreases |vs|
  {
    if vs == [] {
      NoVoicesAgree(j, k, start);
    } else {
      var next, vs1, ps1, ps1' := PairsNext(j, k, vs, ps, ps', start);
      var first, rest, others := OutputsNext(j, k, ps, ps', ps1, ps1', start, next, notes, tracks);
      PartsAgree(j, k + 1, vs1, ps1, ps1', next, rest, others);
      VoiceJoins(j, k, vs, ps[0], ps'[0], start, first, rest, others, notes, tracks);
    }
  }

  lemma {:induction false} VoiceJoins(j: Job, k: nat, vs: seq<Voice>, p: Part, p': Part, start: nat, first: seq<Event>,
                                      rest: seq<Event>, others: seq<seq<Event>>, notes: seq<Event>,
                                      tracks: seq<seq<Event>>)
    requires vs != [] && PairAgrees(j, k, vs[0], p, p') && SameVoices(j, rest, k + 1, vs[1..], others)
    requires first == Played(j.params.channel % 16, j.params.velocity, start, p.calls) && notes == first + rest
    requires tracks == (if p'.hasElements then [OwnTrack(j, k, p')] else []) + others
    ensures SameVoices(j, notes, k, vs, tracks)
  {
    if vs[0].elements == [] {
      assert first == [];
      SkipVoice(j, k, vs, notes, first, rest, tracks, others);
    } else {
      var track := OwnTrack(j, k, p');
      PairGives(j, k, vs[0], p, p', start, first, track);
      NextVoice(j, k, vs, notes, first, rest, tracks, track, others, start);
    }
  }

  lemma {:induction false} OutputsNext(j: Job, k: nat, ps: seq<Part>, ps': seq<Part>, ps1: seq<Part>, ps1': seq<Part>,
                                       start: nat, next: nat, notes: seq<Event>, tracks: seq<seq<Event>>)
    returns (first: seq<Event>, rest: seq<Event>, others: seq<seq<Event>>)
    requires ps != [] && ps' != [] && ps1 == ps[1..] && ps1' == ps'[1..] && next == start + Dur(ps[0].calls)
    requires notes == EndToEnd(j.params.channel % 16, j.params.velocity, ps, start) && tracks == OwnTracks(j, k, ps')
    ensures first == Played(j.params.channel % 16, j.params.velocity, start, ps[0].calls) && notes == first + rest
    ensures rest == EndToEnd(j.params.channel % 16, j.params.velocity, ps1, next)
    ensures others == OwnTracks(j, k + 1, ps1')
    ensures tracks == (if ps'[0].hasElements then [OwnTrack(j, k, ps'[0])] else []) + others
  {
    first := Played(j.params.channel % 16, j.params.velocity, start, ps[0].calls);
    rest := EndToEnd(j.params.channel % 16, j.params.velocity, ps1, next);
    others := OwnTracks(j, k + 1, ps1');
  }

  lemma {:induction false} PairGives(j: Job, k: nat, v: Voice, p: Part, p': Part, start: nat,
                                     first: seq<Event>, track: seq<Event>)
    requires v.elements != [] && PairAgrees(j, k, v, p, p') && track == OwnTrack(j, k, p')
    requires first == Played(j.params.channel % 16, j.params.velocity, start, p.calls)
    ensures p'.hasElements && SameVoice(first, ProgramEvents(j, ChannelOf(k)), track, start, j.params.channel % 16)
  {
  }

  lemma {:induction false} SkipVoice(j: Job, k: nat, vs: seq<Voice>, notes: seq<Event>, first: seq<Event>,
                                     rest: seq<Event>,
                                     tracks: seq<seq<Event>>, others: seq<seq<Event>>)
    requires vs != [] && vs[0].elements == [] && notes == first + rest && first == [] && tracks == [] + others
    requires SameVoices(j, rest, k + 1, vs[1..], others)
    ensures SameVoices(j, notes, k, vs, tracks)
  {
    assert notes == rest && tracks == others;
  }

  lemma {:induction false} NextVoice(j: Job, k: nat, vs: seq<Voice>, notes: seq<Event>, first: seq<Event>,
                                     rest: seq<Event>,
                                     tracks: seq<seq<Event>>, track: seq<Event>, others: seq<seq<Event>>, start: nat)
    requires vs != [] && vs[0].elements != [] && notes == first + rest && tracks == [track] + others
    requires SameVoice(first, ProgramEvents(j, ChannelOf(k)), track, start, j.params.channel % 16)
    requires SameVoices(j, rest, k + 1, vs[1..], others)
    ensures SameVoices(j, notes, k, vs, tracks)
  {
    assert tracks[0] == track && tracks[1..] == others;
    assert notes[..|first|] == first && notes[|first|..] == rest;
  }

  /** The two compilers agree: whatever the one writes and whatever the other
      writes for a tune, the single track is the voices' own tracks one after
      another, each with only the channel and a constant tick offset changed
      and, at its very end, simultaneous note-offs in some order. */
  lemma {:induction false} TwoCompilersAgree(j: Job, notes: seq<Event>, tracks: seq<seq<Event>>)
    requires IsSingleOutput(j, notes) && IsMultiOutput(j, tracks)
    ensures SameVoices(j, notes, 0, j.tune.voices, tracks)
  {
    var ps :| PartsOf(j, j.tune.voices, ps) && notes == EndToEnd(j.params.channel % 16, j.params.velocity, ps, 0);
    var ps' :| PartsOf(j, j.tune.voices, ps') && tracks == OwnTracks(j, 0, ps');
    PartsPairUp(j, 0, j.tune.voices, ps, ps');
    PartsAgree(j, 0, j.tune.voices, ps, ps', 0, notes, tracks);
  }

  lemma {:induction false} FlushesPermute(o1: seq<int>, o2: seq<int>, held: map<int, nat>)
    requires Lists(o1, held) && Lists(o2, held)
    ensures multiset(Flush(o1)) == multiset(Flush(o2)) && OnlyOffs(Flush(o1))
  {
    forall op
      ensures multiset(Flush(o1))[op] == multiset(Flush(o2))[op]
    {
      FlushHas(o1, held, op);
      FlushHas(o2, held, op);
    }
    FlushIsOffs(o1);
  }

  lemma {:induction false} CutAt(common: seq<Op>, end: seq<Op>, end': seq<Op>)
    requires multiset(end) == multiset(end') && OnlyOffs(end)
    ensures SameUpToFlush(common + end, common + end')
  {
    var xs, ys := common + end, common + end';
    var k := |common|;
    assert xs[..k] == common && ys[..k] == common && xs[k..] == end && ys[k..] == end';
  }

  lemma {:induction false} FlushHas(order: seq<int>, held: map<int, nat>, op: Op)
    requires Lists(order, held)
    ensures multiset(Flush(order))[op] == if op.Off? && op.pitch in held then 1 else 0
  {
    FlushIsOffs(order);
    var f := Flush(order);
    if op in f {
      var i :| 0 <= i < |f| && f[i] == op;
      OnceIn(f, i);
    }
  }

  lemma {:induction false} OnceIn(f: seq<Op>, i: nat)
    requires i < |f| && forall k :: 0 <= k < |f| && k != i ==> f[k] != f[i]
    ensures multiset(f)[f[i]] == 1
  {
    var before, after := f[..i], f[i + 1..];
    assert f[i] !in before && f[i] !in after;
    assert f == before + [f[i]] + after;
    assert multiset(f) == multiset(before) + multiset([f[i]]) + multiset(after);
  }

  lemma {:induction false} FlushIsOffs(order: seq<int>)
    ensures |Flush(order)| == |order| && forall i :: 0 <= i < |order| ==> Flush(order)[i] == Off(order[i])
  {
    if order != [] {
      FlushIsOffs(order[1..]);
    }
  }

  // -------------------------------------------------- everything is sendable

  predicate InRange(ops: seq<Op>) {
    forall i :: 0 <= i < |ops| ==> ops[i].Wait? || 0 <= ops[i].pitch < 128
  }

  predicate HeldInRange(held: map<int, nat>) {
    forall p :: p in held ==> 0 <= p < 128
  }

  lemma {:induction false} GraceOpsInRange(cfg: Config, gs: seq<Note>, each: nat, bar: Accidentals)
    ensures InRange(GraceOps(cfg, gs, each, bar))
  {
    if gs != [] {
      GraceOpsInRange(cfg, gs[1..], each, bar);
    }
  }

  lemma {:induction false} ChordOpsInRange(cfg: Config, bar: Accidentals, notes: seq<Note>, ticks: nat)
    ensures InRange(ChordOps(cfg, bar, notes, ticks))
  {
    ChordOnInRange(cfg, bar, notes);
    ChordOffInRange(cfg, BarAfter(bar, notes), notes);
  }

  lemma {:induction false} ChordOnInRange(cfg: Config, bar: Accidentals, notes: seq<Note>)
    ensures InRange(ChordOn(cfg, bar, notes))
    decreases |notes|
  {
    if notes != [] {
      ChordOnInRange(cfg, Marked(bar, notes[0]), notes[1..]);
    }
  }

  lemma {:induction false} ChordOffInRange(cfg: Config, bar: Accidentals, notes: seq<Note>)
    ensures InRange(ChordOff(cfg, bar, notes))
    decreases |notes|
  {
    if notes != [] {
      ChordOffInRange(cfg, bar, notes[1..]);
    }
  }

  lemma {:induction false} TupletInRange(cfg: Config, bar: Accidentals, unit: nat, p: nat, q: nat, es: seq<Element>)
    ensures InRange(PerformTuplet(cfg, bar, unit, p, q, es).1)
    decreases |es|
  {
    if es != [] {
      TupletInRange(cfg, PerformInner(cfg, bar, unit, p, q, es[0]).0, unit, p, q, es[1..]);
      if es[0].AChord? {
        ChordOpsInRange(cfg, bar, es[0].notes, TupletTicks(es[0].duration, unit, p, q));
      }
    }
  }

  lemma {:induction false} GraceRunInRange(cfg: Config, vs: VoiceState, main: nat)
    ensures InRange(GraceRun(cfg, vs, main))
  {
    if vs.grace != [] {
      GraceOpsInRange(cfg, vs.grace, GraceEach(|vs.grace|, main, vs.unit), vs.bar);
    }
  }

  lemma {:induction false} ElementInRange(cfg: Config, vs: VoiceState, e: Element)
    requires HeldInRange(vs.held)
    ensures HeldInRange(Perform(cfg, vs, e).0.held) && InRange(Perform(cfg, vs, e).1)
  {
    match e
    case ANote(n) => GraceRunInRange(cfg, vs, ToTicks(n.duration, vs.unit));
    case AChord(ns, d) =>
      var main := ToTicks(d, vs.unit);
      GraceRunInRange(cfg, vs, main);
      ChordOpsInRange(cfg, vs.bar, ns, SatSub(main, Stolen(|vs.grace|, main, vs.unit)));
    case ATuplet(p, q, es) => TupletInRange(cfg, vs.bar, vs.unit, p, q, es);
    case _ =>
  }

  lemma {:induction false} VoiceInRange(cfg: Config, vs: VoiceState, es: seq<Element>)
    requires HeldInRange(vs.held)
    ensures HeldInRange(PerformAll(cfg, vs, es).0.held) && InRange(PerformAll(cfg, vs, es).1)
    decreases |es|
  {
    if es != [] {
      ElementInRange(cfg, vs, es[0]);
      VoiceInRange(cfg, Perform(cfg, vs, es[0]).0, es[1..]);
    }
  }

  /** Whatever a tune says, only real MIDI pitches are sent. */
  lemma {:induction false} PartInRange(j: Job, v: Voice, part: Part)
    requires IsPart(j, v, part)
    ensures InRange(part.calls)
  {
    var order :| FlushOrder(j, v, order) && part == PartOf(j, v, order);
    VoiceInRange(ConfigOf(j, v), StartState(j), Unfolded(v));
    FlushIsOffs(order);
  }

  // -------------------------------------------------------------- the file

  predicate AllSendable(es: seq<Event>) {
    forall i :: 0 <= i < |es| ==> Sendable(es[i].msg)
  }

  predicate TracksSendable(ts: seq<seq<Event>>) {
    forall i :: 0 <= i < |ts| ==> AllSendable(ts[i])
  }

  predicate PartsInRange(parts: seq<Part>) {
    forall i :: 0 <= i < |parts| ==> InRange(parts[i].calls)
  }

  function WithElements(parts: seq<Part>): nat {
    if parts == [] then 0 else (if parts[0].hasElements then 1 else 0) + WithElements(parts[1..])
  }

  /** The tracks of the file `generate` writes, as event lists. */
  function Layout(j: Job, parts: seq<Part>): seq<seq<Event>> {
    if WithElements(parts) > 1 then [TempoEvents(j)] + OwnTracks(j, 0, parts) else [SingleTrack(j, parts)]
  }

  function Format(parts: seq<Part>): nat {
    if WithElements(parts) > 1 then 1 else 0
  }

  lemma {:induction false} PlayedSendable(ch: nat, vel: nat, tick: nat, ops: seq<Op>)
    requires InRange(ops) && ch < 16 && vel < 256
    ensures AllSendable(Played(ch, vel, tick, ops))
    decreases |ops|
  {
    if ops != [] {
      PlayedSendable(ch, vel, if ops[0].Wait? then tick + ops[0].ticks else tick, ops[1..]);
    }
  }

  lemma {:induction false} EndToEndSendable(ch: nat, vel: nat, parts: seq<Part>, tick: nat)
    requires PartsInRange(parts) && ch < 16 && vel < 256
    ensures AllSendable(EndToEnd(ch, vel, parts, tick))
    decreases |parts|
  {
    if parts != [] {
      PlayedSendable(ch, vel, tick, parts[0].calls);
      EndToEndSendable(ch, vel, parts[1..], tick + Dur(parts[0].calls));
    }
  }

  lemma {:induction false} OwnTracksSendable(j: Job, k: nat, parts: seq<Part>)
    requires PartsInRange(parts) && j.params.velocity < 256
    ensures TracksSendable(OwnTracks(j, k, parts))
    decreases |parts|
  {
    if parts != [] {
      PlayedSendable(ChannelOf(k), j.params.velocity, 0, parts[0].calls);
      OwnTracksSendable(j, k + 1, parts[1..]);
    }
  }

  lemma {:induction false} LayoutSendable(j: Job, parts: seq<Part>)
    requires PartsOf(j, j.tune.voices, parts) && j.params.velocity < 256
    ensures TracksSendable(Layout(j, parts))
  {
    forall i | 0 <= i < |parts|
      ensures InRange(parts[i].calls)
    {
      PartInRange(j, j.tune.voices[i], parts[i]);
    }
    OwnTracksSendable(j, 0, parts);
    EndToEndSendable(j.params.channel % 16, j.params.velocity, parts, 0);
  }

  // ------------------------------------------------------ events in order

  lemma {:induction false} OrderedConcat(xs: seq<Event>, ys: seq<Event>, lo: nat, mid: nat, hi: nat)
    requires Ordered(xs) && Within(xs, lo, mid) && Ordered(ys) && Within(ys, mid, hi)
    requires lo <= mid <= hi
    ensures Ordered(xs + ys) && Within(xs + ys, lo, hi)
  {
  }

  lemma {:induction false} EndToEndInOrder(ch: nat, vel: nat, parts: seq<Part>, tick: nat) returns (end: nat)
    ensures end >= tick && Ordered(EndToEnd(ch, vel, parts, tick)) && Within(EndToEnd(ch, vel, parts, tick), tick, end)
    decreases |parts|
  {
    end := tick;
    if parts != [] {
      var mid := tick + Dur(parts[0].calls);
      PlayedInOrder(ch, vel, tick, parts[0].calls);
      end := EndToEndInOrder(ch, vel, parts[1..], mid);
      OrderedConcat(Played(ch, vel, tick, parts[0].calls), EndToEnd(ch, vel, parts[1..], mid), tick, mid, end);
    }
  }

  /** Events come out in tick order, whatever the tune, while the 32-bit tick
      counter does not wrap: see `TickCounterSuffices`. */
  lemma {:induction false} SingleTrackInOrder(j: Job, parts: seq<Part>)
    ensures Ordered(SingleTrack(j, parts))
  {
    var ch := j.params.channel % 16;
    var end := EndToEndInOrder(ch, j.params.velocity, parts, 0);
    OrderedConcat(TempoEvents(j) + ProgramEvents(j, ch), EndToEnd(ch, j.params.velocity, parts, 0), 0, 0, end);
  }

  lemma {:induction false} OwnTracksInOrder(j: Job, k: nat, parts: seq<Part>)
    ensures forall i :: 0 <= i < |OwnTracks(j, k, parts)| ==> Ordered(OwnTracks(j, k, parts)[i])
    decreases |parts|
  {
    if parts != [] {
      OwnTracksInOrder(j, k + 1, parts[1..]);
      var ch := ChannelOf(k);
      PlayedInOrder(ch, j.params.velocity, 0, parts[0].calls);
      OrderedConcat(ProgramEvents(j, ch), OwnNotes(j.params.velocity, k, parts[0]), 0, 0, Dur(parts[0].calls));
    }
  }

  lemma {:induction false} LayoutInOrder(j: Job, parts: seq<Part>)
    ensures forall i :: 0 <= i < |Layout(j, parts)| ==> Ordered(Layout(j, parts)[i])
  {
    SingleTrackInOrder(j, parts);
    OwnTracksInOrder(j, 0, parts);
  }

  // ------------------------------------------------------------ round trip

  function EncodeAll(ts: seq<seq<Event>>): (bs: seq<Bytes>)
    requires TracksSendable(ts)
    ensures |bs| == |ts| && forall i :: 0 <= i < |ts| ==> bs[i] == EncodeFrom(0, ts[i])
  {
    if ts == [] then [] else [EncodeFrom(0, ts[0])] + EncodeAll(ts[1..])
  }

  /** The time between an event and the one before it. */
  function Gap(es: seq<Event>, i: nat): nat
    requires i < |es|
  {
    SatSub(es[i].tick, if i == 0 then 0 else es[i - 1].tick)
  }

  /** What a player needs of a track in order: gaps of at most four bytes,
      velocities of seven bits. */
  predicate Playable(es: seq<Event>) {
    forall i :: 0 <= i < |es| ==> Gap(es, i) < 0x1000_0000 && (es[i].msg.NoteOn? ==> es[i].msg.velocity < 128)
  }

  lemma {:induction false} ReadableFrom(es: seq<Event>, n: nat)
    requires Ordered(es) && n <= |es|
    ensures Readable(if n == 0 then 0 else es[n - 1].tick, es[n..])
            <==> forall i :: n <= i < |es| ==> Gap(es, i) < 0x1000_0000
                                               && (es[i].msg.NoteOn? ==> es[i].msg.velocity < 128)
    decreases |es| - n
  {
    if n < |es| {
      ReadableFrom(es, n + 1);
      assert es[n..][1..] == es[n + 1..];
    }
  }

  /** Reading back the file of a tune: header, division and every track come
      out, and each track gives exactly its (tick, message) pairs exactly when
      it is playable. Writing sorts nothing and drops nothing. */
  lemma {:induction false} GeneratedFileReads(j: Job, parts: seq<Part>, bytes: seq<Bytes>, i: nat)
    requires PartsOf(j, j.tune.voices, parts) && j.params.velocity < 256 && j.params.ticksPerBeat < 0x1_0000
    requires TracksSendable(Layout(j, parts)) && bytes == EncodeAll(Layout(j, parts)) && i < |bytes| < 0x1_0000
    requires forall i :: 0 <= i < |bytes| ==> |bytes[i]| < 0x1_0000_0000
    ensures ReadFile(FileBytes(Format(parts), j.params.ticksPerBeat, bytes))
            == Some(SmfFile(Format(parts), j.params.ticksPerBeat, bytes))
    ensures SortByTick(Layout(j, parts)[i]) == Layout(j, parts)[i]
    ensures ReadTrack(bytes[i]) == Some(Expected(Layout(j, parts)[i])) <==> Playable(Layout(j, parts)[i])
  {
    var es := Layout(j, parts)[i];
    FileRoundTrip(Format(parts), j.params.ticksPerBeat, bytes);
    LayoutInOrder(j, parts);
    SortIsIdentity(es);
    TrackRoundTrip(es);
    ReadableFrom(es, 0);
    assert es[0..] == es;
  }

  // ------------------------------------------------- the tracks are balanced

  function Sounds(m: Msg, p: int): int {
    match m
    case NoteOn(_, q, _) => if q == p then 1 else 0
    case NoteOff(_, q) => if q == p then -1 else 0
    case _ => 0
  }

  /** Note-ons less note-offs at pitch p in a track. */
  function SoundsLeft(es: seq<Event>, p: int): int {
    if es == [] then 0 else Sounds(es[0].msg, p) + SoundsLeft(es[1..], p)
  }

  ghost predicate EndsSilent(es: seq<Event>) {
    forall p :: SoundsLeft(es, p) == 0
  }

  /** No prefix switches a pitch off more often than on. */
  ghost predicate NeverBelow(es: seq<Event>) {
    forall k, p :: 0 <= k <= |es| ==> SoundsLeft(es[..k], p) >= 0
  }

  lemma {:induction false} SoundsConcat(xs: seq<Event>, ys: seq<Event>, p: int)
    ensures SoundsLeft(xs + ys, p) == SoundsLeft(xs, p) + SoundsLeft(ys, p)
  {
    if xs == [] {
      assert xs + ys == ys;
    } else {
      assert (xs + ys)[1..] == xs[1..] + ys;
      SoundsConcat(xs[1..], ys, p);
    }
  }

  lemma {:induction false} PlayedNet(ch: nat, vel: nat, tick: nat, ops: seq<Op>, p: int)
    ensures SoundsLeft(Played(ch, vel, tick, ops), p) == NoteBalance.Net(ops, p)
    decreases |ops|
  {
    if ops != [] {
      PlayedNet(ch, vel, if ops[0].Wait? then tick + ops[0].ticks else tick, ops[1..], p);
      if !ops[0].Wait? {
        assert Played(ch, vel, tick, ops)[1..] == Played(ch, vel, tick, ops[1..]);
      }
    }
  }

  /** A prefix of what calls play is what a prefix of the calls plays. */
  lemma {:induction false} PlayedPrefix(ch: nat, vel: nat, tick: nat, ops: seq<Op>, k: nat) returns (m: nat)
    requires k <= |Played(ch, vel, tick, ops)|
    ensures m <= |ops| && Played(ch, vel, tick, ops)[..k] == Played(ch, vel, tick, ops[..m])
    decreases |ops|
  {
    if k == 0 {
      m := 0;
    } else {
      var next := if ops[0].Wait? then tick + ops[0].ticks else tick;
      var m' := PlayedPrefix(ch, vel, next, ops[1..], if ops[0].Wait? then k else k - 1);
      m := m' + 1;
      assert ops[..m][1..] == ops[1..][..m'] && ops[..m][0] == ops[0];
    }
  }

  /** Messages that are not notes. */
  predicate NoNotes(es: seq<Event>) {
    forall i :: 0 <= i < |es| ==> es[i].msg.SetTempo? || es[i].msg.ProgramChange?
  }

  lemma {:induction false} Noteless(es: seq<Event>)
    requires NoNotes(es)
    ensures EndsSilent(es) && forall k, p :: 0 <= k <= |es| ==> SoundsLeft(es[..k], p) == 0
  {
    forall k, p | 0 <= k <= |es|
      ensures SoundsLeft(es[..k], p) == 0
    {
      NotelessAt(es[..k], p);
    }
    assert es[..|es|] == es;
  }

  lemma {:induction false} NotelessAt(es: seq<Event>, p: int)
    requires NoNotes(es)
    ensures SoundsLeft(es, p) == 0
  {
    if es != [] {
      NotelessAt(es[1..], p);
    }
  }

  const SILENCE := NoteSafety.Ringing(map[], multiset{}, multiset{})

  /** A track of calls after a header never goes below zero exactly when the calls never do. */
  lemma {:induction false} TrackNeverBelow(head: seq<Event>, ch: nat, vel: nat, tick: nat, ops: seq<Op>)
    requires NoNotes(head)
    ensures NeverBelow(head + Played(ch, vel, tick, ops)) <==> NoteSafety.Sane(SILENCE, ops)
  {
    var notes := Played(ch, vel, tick, ops);
    Noteless(head);
    if NoteSafety.Sane(SILENCE, ops) {
      forall k, p | 0 <= k <= |head + notes|
        ensures SoundsLeft((head + notes)[..k], p) >= 0
      {
        if k <= |head| {
          assert (head + notes)[..k] == head[..k];
        } else {
          var m := PlayedPrefix(ch, vel, tick, ops, k - |head|);
          assert (head + notes)[..k] == head + notes[..k - |head|];
          SoundsConcat(head, notes[..k - |head|], p);
          PlayedNet(ch, vel, tick, ops[..m], p);
          assert SILENCE(p) + NoteBalance.Net(ops[..m], p) >= 0;
        }
      }
    }
    if NeverBelow(head + notes) {
      forall k, p | 0 <= k <= |ops|
        ensures SILENCE(p) + NoteBalance.Net(ops[..k], p) >= 0
      {
        CallsPrefix(head, ch, vel, tick, ops, k, p);
      }
    }
  }

  lemma {:induction false} CallsPrefix(head: seq<Event>, ch: nat, vel: nat, tick: nat, ops: seq<Op>, k: nat, p: int)
    requires k <= |ops| && NoNotes(head) && NeverBelow(head + Played(ch, vel, tick, ops))
    ensures SILENCE(p) + NoteBalance.Net(ops[..k], p) >= 0
  {
    var first, all := Played(ch, vel, tick, ops[..k]), head + Played(ch, vel, tick, ops);
    assert ops == ops[..k] + ops[k..];
    PlayedConcat(ch, vel, tick, ops[..k], ops[k..]);
    assert all[..|head| + |first|] == head + first;
    Noteless(head);
    SoundsConcat(head, first, p);
    PlayedNet(ch, vel, tick, ops[..k], p);
    assert SoundsLeft(all[..|head| + |first|], p) >= 0;
  }

  function OnsOf(j: Job, v: Voice): multiset<int> {
    NoteBalance.VoiceOns(ConfigOf(j, v), StartState(j), Unfolded(v))
  }

  function OffsOf(j: Job, v: Voice): multiset<int> {
    NoteBalance.VoiceOffs(ConfigOf(j, v), StartState(j), Unfolded(v))
  }

  /** The voice's chords switch off nothing that does not sound, when on less
      off already sounds before it. */
  ghost predicate SafePart(j: Job, v: Voice, on: multiset<int>, off: multiset<int>) {
    && NoteSafety.SafeVoice(ConfigOf(j, v), StartState(j), on, off, Unfolded(v))
    && off + OffsOf(j, v) <= on + OnsOf(j, v)
  }

  predicate EvenPart(j: Job, v: Voice) {
    NoteSafety.EvenVoice(ConfigOf(j, v), StartState(j), Unfolded(v))
  }

  /** What a voice's calls leave sounding: the difference of its unmarked chord
      notes as switched on and as switched off. */
  lemma {:induction false} PartLeaves(j: Job, v: Voice, part: Part, p: int)
    requires IsPart(j, v, part)
    ensures NoteBalance.Net(part.calls, p) == NoteBalance.Count(OnsOf(j, v), p) - NoteBalance.Count(OffsOf(j, v), p)
  {
    var order :| FlushOrder(j, v, order) && part == PartOf(j, v, order);
    NoteBalance.FlushedNet(ConfigOf(j, v), StartState(j), Unfolded(v), order, p);
  }

  lemma {:induction false} PartNeverBelow(j: Job, v: Voice, part: Part, on: multiset<int>, off: multiset<int>)
    requires IsPart(j, v, part) && off <= on
    ensures NoteSafety.Sane(NoteSafety.Ringing(map[], on, off), part.calls) <==> SafePart(j, v, on, off)
  {
    var order :| FlushOrder(j, v, order) && part == PartOf(j, v, order);
    NoteSafety.FlushedNeverBelow(ConfigOf(j, v), StartState(j), on, off, Unfolded(v), order);
  }

  /** A voice whose chords are all even is safe after any other, and leaves nothing. */
  lemma {:induction false} EvenPartIsSafe(j: Job, v: Voice, on: multiset<int>, off: multiset<int>)
    requires EvenPart(j, v) && off <= on
    ensures SafePart(j, v, on, off) && OnsOf(j, v) == OffsOf(j, v)
  {
    NoteSafety.EvenVoiceIsSafe(ConfigOf(j, v), StartState(j), on, off, Unfolded(v));
  }

  /** A track of notes after a header is silent at the end exactly when the
      two collections of pitches are the same. */
  lemma {:induction false} SilentExactly(head: seq<Event>, notes: seq<Event>, on: multiset<int>, off: multiset<int>)
    requires EndsSilent(head) && forall p ::
             SoundsLeft(notes, p) == NoteBalance.Count(on, p) - NoteBalance.Count(off, p)
    ensures EndsSilent(head + notes) <==> on == off
  {
    forall p
      ensures SoundsLeft(head + notes, p) == NoteBalance.Count(on, p) - NoteBalance.Count(off, p)
    {
      SoundsConcat(head, notes, p);
    }
    if EndsSilent(head + notes) {
      forall p
        ensures NoteBalance.Count(on, p) == NoteBalance.Count(off, p)
      {
        assert SoundsLeft(head + notes, p) == 0;
      }
      NoteBalance.SameCounts(on, off);
    }
  }

  lemma {:induction false} TrackSilentExactly(head: seq<Event>, ch: nat, vel: nat, ops: seq<Op>, on: multiset<int>,
                                              off: multiset<int>)
    requires EndsSilent(head) && forall p ::
             NoteBalance.Net(ops, p) == NoteBalance.Count(on, p) - NoteBalance.Count(off, p)
    ensures EndsSilent(head + Played(ch, vel, 0, ops)) <==> on == off
  {
    forall p
      ensures SoundsLeft(Played(ch, vel, 0, ops), p) == NoteBalance.Count(on, p) - NoteBalance.Count(off, p)
    {
      PlayedNet(ch, vel, 0, ops, p);
    }
    SilentExactly(head, Played(ch, vel, 0, ops), on, off);
  }

  /** A voice's own track, flush included: it ends silent exactly when the
      voice's unmarked chord notes are switched off where they were switched
      on, and no prefix goes below zero exactly when the voice is safe. */
  lemma {:induction false} OwnTrackBalances(j: Job, k: nat, v: Voice, part: Part)
    requires IsPart(j, v, part)
    ensures EndsSilent(OwnTrack(j, k, part)) <==> OnsOf(j, v) == OffsOf(j, v)
    ensures NeverBelow(OwnTrack(j, k, part)) <==> SafePart(j, v, multiset{}, multiset{})
  {
    var head := ProgramEvents(j, ChannelOf(k));
    Noteless(head);
    assert forall p :: NoteBalance.Net(part.calls, p)
                       == NoteBalance.Count(OnsOf(j, v), p) - NoteBalance.Count(OffsOf(j, v), p) by {
      forall p
        ensures NoteBalance.Net(part.calls, p) == NoteBalance.Count(OnsOf(j, v), p) - NoteBalance.Count(OffsOf(j, v), p)
      {
        PartLeaves(j, v, part, p);
      }
    }
    TrackSilentExactly(head, ChannelOf(k), j.params.velocity, part.calls, OnsOf(j, v), OffsOf(j, v));
    TrackNeverBelow(head, ChannelOf(k), j.params.velocity, 0, part.calls);
    PartNeverBelow(j, v, part, multiset{}, multiset{});
  }

  function AllOns(j: Job, vs: seq<Voice>): multiset<int> {
    if vs == [] then multiset{} else OnsOf(j, vs[0]) + AllOns(j, vs[1..])
  }

  function AllOffs(j: Job, vs: seq<Voice>): multiset<int> {
    if vs == [] then multiset{} else OffsOf(j, vs[0]) + AllOffs(j, vs[1..])
  }

  function NetOfAll(parts: seq<Part>, p: int): int {
    if parts == [] then 0 else NoteBalance.Net(parts[0].calls, p) + NetOfAll(parts[1..], p)
  }

  lemma {:induction false} AllLeave(j: Job, vs: seq<Voice>, parts: seq<Part>, p: int)
    requires PartsOf(j, vs, parts)
    ensures NetOfAll(parts, p) == NoteBalance.Count(AllOns(j, vs), p) - NoteBalance.Count(AllOffs(j, vs), p)
    decreases |vs|
  {
    if vs != [] {
      assert NoteBalance.Net(parts[0].calls, p)
             == NoteBalance.Count(OnsOf(j, vs[0]), p) - NoteBalance.Count(OffsOf(j, vs[0]), p) by {
        assert IsPart(j, vs[0], parts[0]);
        PartLeaves(j, vs[0], parts[0], p);
      }
      AllLeave(j, vs[1..], parts[1..], p);
    }
  }

  lemma {:induction false} EndToEndNet(ch: nat, vel: nat, parts: seq<Part>, tick: nat, p: int)
    ensures SoundsLeft(EndToEnd(ch, vel, parts, tick), p) == NetOfAll(parts, p)
    decreases |parts|
  {
    if parts != [] {
      var next := tick + Dur(parts[0].calls);
      EndToEndNet(ch, vel, parts[1..], next, p);
      PlayedNet(ch, vel, tick, parts[0].calls, p);
      SoundsConcat(Played(ch, vel, tick, parts[0].calls), EndToEnd(ch, vel, parts[1..], next), p);
    }
  }

  function AllCalls(parts: seq<Part>): seq<Op> {
    if parts == [] then [] else parts[0].calls + AllCalls(parts[1..])
  }

  lemma {:induction false} EndToEndIsPlayed(ch: nat, vel: nat, parts: seq<Part>, tick: nat)
    ensures EndToEnd(ch, vel, parts, tick) == Played(ch, vel, tick, AllCalls(parts))
    decreases |parts|
  {
    if parts != [] {
      EndToEndIsPlayed(ch, vel, parts[1..], tick + Dur(parts[0].calls));
      PlayedConcat(ch, vel, tick, parts[0].calls, AllCalls(parts[1..]));
    }
  }

  lemma {:induction false} CallsDur(parts: seq<Part>)
    ensures Dur(AllCalls(parts)) == TotalDur(parts)
    decreases |parts|
  {
    if parts != [] {
      CallsDur(parts[1..]);
      DurConcat(parts[0].calls, AllCalls(parts[1..]));
    }
  }

  /** The notes of the single track are the same with the 32-bit counter exactly
      when every tick fits, as in any tune shorter than 2^32 ticks. */
  lemma {:induction false} TickCounterSuffices(j: Job, parts: seq<Part>)
    ensures var ch, vel := j.params.channel % 16, j.params.velocity;
            var notes := EndToEnd(ch, vel, parts, 0);
            && (PlayedIn32(ch, vel, 0, AllCalls(parts)) == notes <==> TicksFit(notes))
            && (TotalDur(parts) < 0x1_0000_0000 ==> TicksFit(notes))
  {
    var ch, vel := j.params.channel % 16, j.params.velocity;
    EndToEndIsPlayed(ch, vel, parts, 0);
    CounterIsExact(ch, vel, AllCalls(parts));
    PlayedInOrder(ch, vel, 0, AllCalls(parts));
    CallsDur(parts);
  }

  /** Every voice is safe after what the ones before it left sounding. */
  ghost predicate SafeParts(j: Job, vs: seq<Voice>, on: multiset<int>, off: multiset<int>)
    decreases |vs|
  {
    vs == [] || (SafePart(j, vs[0], on, off) && SafeParts(j, vs[1..], on + OnsOf(j, vs[0]), off + OffsOf(j, vs[0])))
  }

  lemma {:induction false} PartsNeverBelow(j: Job, vs: seq<Voice>, parts: seq<Part>, on: multiset<int>,
                                           off: multiset<int>)
    requires PartsOf(j, vs, parts) && off <= on
    ensures NoteSafety.Sane(NoteSafety.Ringing(map[], on, off), AllCalls(parts)) <==> SafeParts(j, vs, on, off)
    decreases |vs|
  {
    var base := NoteSafety.Ringing(map[], on, off);
    if vs == [] {
      NoteSafety.NothingHeld(on, off);
      NoteSafety.CoveredMeans(map[], on, off);
      NoteSafety.SaneOns(base, []);
    } else {
      var first, rest, on', off' := parts[0].calls, AllCalls(parts[1..]), on + OnsOf(j, vs[0]), off + OffsOf(j, vs[0]);
      assert IsPart(j, vs[0], parts[0]);
      PartNeverBelow(j, vs[0], parts[0], on, off);
      NoteSafety.SaneSplit(base, first, rest);
      forall p
        ensures NoteSafety.After(base, first)(p) == NoteSafety.Ringing(map[], on', off')(p)
      {
        PartLeaves(j, vs[0], parts[0], p);
      }
      NoteSafety.SaneFrom(NoteSafety.After(base, first), NoteSafety.Ringing(map[], on', off'), rest);
      if off' <= on' {
        PartsNeverBelow(j, vs[1..], parts[1..], on', off');
      }
    }
  }

  /** The single track of all voices, flushes included: the same two laws. */
  lemma {:induction false} SingleTrackBalances(j: Job, parts: seq<Part>)
    requires PartsOf(j, j.tune.voices, parts)
    ensures EndsSilent(SingleTrack(j, parts)) <==> AllOns(j, j.tune.voices) == AllOffs(j, j.tune.voices)
    ensures NeverBelow(SingleTrack(j, parts)) <==> SafeParts(j, j.tune.voices, multiset{}, multiset{})
  {
    var ch, vel, vs := j.params.channel % 16, j.params.velocity, j.tune.voices;
    var head, notes := TempoEvents(j) + ProgramEvents(j, ch), EndToEnd(ch, vel, parts, 0);
    Noteless(head);
    forall p
      ensures SoundsLeft(notes, p) == NoteBalance.Count(AllOns(j, vs), p) - NoteBalance.Count(AllOffs(j, vs), p)
    {
      EndToEndNet(ch, vel, parts, 0, p);
      AllLeave(j, vs, parts, p);
    }
    SilentExactly(head, notes, AllOns(j, vs), AllOffs(j, vs));
    EndToEndIsPlayed(ch, vel, parts, 0);
    TrackNeverBelow(head, ch, vel, 0, AllCalls(parts));
    PartsNeverBelow(j, vs, parts, multiset{}, multiset{});
  }

  /** With even chords everywhere both laws hold. */
  lemma {:induction false} EvenTuneIsSafe(j: Job, vs: seq<Voice>, on: multiset<int>, off: multiset<int>)
    requires (forall i :: 0 <= i < |vs| ==> EvenPart(j, vs[i])) && off <= on
    ensures SafeParts(j, vs, on, off) && AllOns(j, vs) == AllOffs(j, vs)
    decreases |vs|
  {
    if vs != [] {
      EvenPartIsSafe(j, vs[0], on, off);
      EvenTuneIsSafe(j, vs[1..], on + OnsOf(j, vs[0]), off + OffsOf(j, vs[0]));
    }
  }

  // ----------------------------------------------------------- the methods

  /** One voice played into the single track, on the writer's channel. */
  method PlaySinglePart(j: Job, key: Accidentals, v: Voice, w: MidiWriter) returns (ghost part: Part)
    requires key == KeyAccidentals(j.tune.header.key) && w.channel == j.params.channel % 16
    modifies w
    ensures IsPart(j, v, part)
    ensures w.Get() == Exec(w.channel, j.params.velocity, old(w.Get()), part.calls)
  {
    var elements := ExpandVoice(FlattenSlurs(v.elements));
    var player := new SingleVoice(ConfigOf(j, v), w, j.params.velocity, j.params.channel, key, UnitOf(j),
        j.tune.header.meter);
    ghost var order := player.PlayVoice(elements);
    part := PartOf(j, v, order);
  }

  /** One voice played into a track of its own, on its own channel. */
  method PlayOwnPart(j: Job, key: Accidentals, v: Voice, w: MidiWriter, ch: nat) returns (ghost part: Part)
    requires key == KeyAccidentals(j.tune.header.key)
    modifies w
    ensures IsPart(j, v, part)
    ensures w.Get() == Exec(ch % 16, j.params.velocity, old(w.Get()), part.calls)
  {
    var elements := ExpandVoice(FlattenSlurs(v.elements));
    var player := new OwnVoice(ConfigOf(j, v), w, j.params.velocity, ch, key, UnitOf(j), j.tune.header.meter);
    ghost var order := player.PlayVoice(elements);
    part := PartOf(j, v, order);
  }

  method Prepare(j: Job, w: MidiWriter)
    modifies w
    ensures w.Get() == old(w.Get()).(events := old(w.events) + ProgramAt(j, w.channel, old(w.currentTick)))
  {
    var p := if j.tune.header.midiProgram.Some? then j.tune.header.midiProgram else j.params.program;
    if p.Some? {
      w.Push(ProgramChange(w.channel, p.value % 128));
    }
  }

  /** Parts of the first |parts| voices. */
  ghost predicate PartsUpTo(j: Job, parts: seq<Part>)
    decreases |parts|
  {
    var n := |parts|;
    n <= |j.tune.voices| && (n == 0 || (PartsUpTo(j, parts[..n - 1]) && IsPart(j, j.tune.voices[n - 1], parts[n - 1])))
  }

  lemma {:induction false} UpToSnoc(j: Job, parts: seq<Part>, p: Part)
    requires PartsUpTo(j, parts) && |parts| < |j.tune.voices| && IsPart(j, j.tune.voices[|parts|], p)
    ensures PartsUpTo(j, parts + [p])
  {
    assert (parts + [p])[..|parts|] == parts;
  }

  lemma {:induction false} UpToAt(j: Job, parts: seq<Part>, i: nat)
    requires PartsUpTo(j, parts) && i < |parts|
    ensures |parts| <= |j.tune.voices| && IsPart(j, j.tune.voices[i], parts[i])
    decreases |parts|
  {
    if i < |parts| - 1 {
      UpToAt(j, parts[..|parts| - 1], i);
    }
  }

  lemma {:induction false} UpToAll(j: Job, parts: seq<Part>)
    requires PartsUpTo(j, parts) && |parts| == |j.tune.voices|
    ensures PartsOf(j, j.tune.voices, parts)
  {
    forall i | 0 <= i < |parts|
      ensures IsPart(j, j.tune.voices[i], parts[i])
    {
      UpToAt(j, parts, i);
    }
  }

  /** The single-track writer: all voices into one list, one after another. */
  method BuildSingleTrack(j: Job) returns (w: MidiWriter, ghost parts: seq<Part>)
    ensures fresh(w) && PartsOf(j, j.tune.voices, parts)
    ensures w.events == SingleTrack(j, parts)
  {
    w := OpenSingleTrack(j);
    var key := ComputeKeyAccidentals(j.tune.header.key);
    parts := [];
    for i := 0 to |j.tune.voices|
      invariant fresh(w) && w.channel == j.params.channel % 16 && |parts| == i
      invariant PartsUpTo(j, parts) && w.Get() == SingleSoFar(j, parts)
    {
      ghost var part := AppendPart(j, key, j.tune.voices[i], w, parts);
      UpToSnoc(j, parts, part);
      parts := parts + [part];
    }
    UpToAll(j, parts);
  }

  /** The next voice appended to the single track. */
  method AppendPart(j: Job, key: Accidentals, v: Voice, w: MidiWriter, ghost parts: seq<Part>)
    returns (ghost part: Part)
    requires key == KeyAccidentals(j.tune.header.key) && w.channel == j.params.channel % 16
    requires w.Get() == SingleSoFar(j, parts)
    modifies w
    ensures IsPart(j, v, part) && w.Get() == SingleSoFar(j, parts + [part])
  {
    part := PlaySinglePart(j, key, v, w);
    SingleSnoc(j, parts, part);
  }

  method OpenSingleTrack(j: Job) returns (w: MidiWriter)
    ensures fresh(w) && w.channel == j.params.channel % 16 && w.Get() == SingleSoFar(j, [])
  {
    w := new MidiWriter(j.params.channel);
    w.Tempo(TempoOf(j.tune.header));
    Prepare(j, w);
    assert SingleTrack(j, []) == TempoEvents(j) + ProgramEvents(j, j.params.channel % 16);
  }

  /** The bytes of one track of its own. */
  method BuildOwnTrack(j: Job, key: Accidentals, k: nat, v: Voice) returns (bytes: Bytes, ghost part: Part)
    requires key == KeyAccidentals(j.tune.header.key) && j.params.velocity < 256
    ensures IsPart(j, v, part) && AllSendable(OwnTrack(j, k, part))
    ensures bytes == EncodeFrom(0, OwnTrack(j, k, part))
  {
    var w;
    w, part := PlayOwnTrack(j, key, k, v);
    OwnTrackSendable(j, k, v, part);
    bytes := EncodeTrack(w.events);
  }

  lemma {:induction false} OwnTrackSendable(j: Job, k: nat, v: Voice, part: Part)
    requires IsPart(j, v, part) && j.params.velocity < 256
    ensures AllSendable(OwnTrack(j, k, part))
  {
    PartInRange(j, v, part);
    PlayedSendable(ChannelOf(k), j.params.velocity, 0, part.calls);
  }

  /** A voice played into a writer of its own. */
  method PlayOwnTrack(j: Job, key: Accidentals, k: nat, v: Voice) returns (w: MidiWriter, ghost part: Part)
    requires key == KeyAccidentals(j.tune.header.key)
    ensures fresh(w) && IsPart(j, v, part) && w.events == OwnTrack(j, k, part)
  {
    var ch := ChannelOf(k);
    w := OpenOwnTrack(j, ch);
    part := PlayOwnPart(j, key, v, w, ch);
    OwnTrackIsExec(j, k, ch, part, w.Get());
  }

  lemma {:induction false} OwnTrackIsExec(j: Job, k: nat, ch: nat, part: Part, got: Track)
    requires ch == ChannelOf(k) && got == Exec(ch % 16, j.params.velocity, Track(ProgramEvents(j, ch), 0), part.calls)
    ensures got.events == OwnTrack(j, k, part)
  {
    ExecAppends(ch, j.params.velocity, Track(ProgramEvents(j, ch), 0), part.calls);
  }

  method OpenOwnTrack(j: Job, ch: nat) returns (w: MidiWriter)
    requires ch < 16
    ensures fresh(w) && w.Get() == Track(ProgramEvents(j, ch), 0)
  {
    w := new MidiWriter(ch);
    Prepare(j, w);
  }

  lemma {:induction false} OwnTracksSnoc(j: Job, k: nat, parts: seq<Part>, p: Part)
    ensures OwnTracks(j, k, parts + [p]) == OwnTracks(j, k, parts) + if p.hasElements then
            [OwnTrack(j, k + |parts|, p)] else []
    decreases |parts|
  {
    if parts == [] {
      assert parts + [p] == [p] && [p][1..] == [];
    } else {
      assert (parts + [p])[1..] == parts[1..] + [p];
      OwnTracksSnoc(j, k + 1, parts[1..], p);
    }
  }

  ghost predicate Encodes(tracks: seq<Bytes>, lists: seq<seq<Event>>) {
    TracksSendable(lists) && tracks == EncodeAll(lists)
  }

  lemma {:induction false} EncodesSnoc(tracks: seq<Bytes>, lists: seq<seq<Event>>, es: seq<Event>)
    requires Encodes(tracks, lists) && AllSendable(es)
    ensures Encodes(tracks + [EncodeFrom(0, es)], lists + [es])
  {
    assert TracksSendable(lists + [es]);
    assert tracks + [EncodeFrom(0, es)] == EncodeAll(lists + [es]);
  }

  /** The tracks of the multi-track file after some of the parts. */
  function MultiSoFar(j: Job, parts: seq<Part>): seq<seq<Event>> {
    [TempoEvents(j)] + OwnTracks(j, 0, parts)
  }

  lemma {:induction false} MultiSnoc(j: Job, parts: seq<Part>, p: Part)
    ensures MultiSoFar(j, parts + [p]) == if p.hasElements then MultiSoFar(j, parts) + [OwnTrack(j, |parts|, p)]
            else MultiSoFar(j, parts)
  {
    OwnTracksSnoc(j, 0, parts, p);
  }

  /** Voice k's track added to the list, unless the voice is empty. */
  method AddTrack(j: Job, key: Accidentals, v: Voice, tracks: seq<Bytes>, k: nat, ghost parts: seq<Part>)
    returns (tracks': seq<Bytes>, ghost part: Part)
    requires key == KeyAccidentals(j.tune.header.key) && j.params.velocity < 256 && k == |parts|
    requires Encodes(tracks, MultiSoFar(j, parts))
    ensures IsPart(j, v, part)
    ensures Encodes(tracks', MultiSoFar(j, parts + [part]))
  {
    if v.elements == [] {
      part := SkippedPart(j, v);
      tracks' := tracks;
    } else {
      var bytes;
      bytes, part := BuildOwnTrack(j, key, k, v);
      tracks' := tracks + [bytes];
      EncodesSnoc(tracks, MultiSoFar(j, parts), OwnTrack(j, k, part));
    }
    MultiSnoc(j, parts, part);
  }

  /** The multi-track file: a tempo track, then one track per voice with elements. */
  method BuildMultiTrack(j: Job) returns (tracks: seq<Bytes>, ghost parts: seq<Part>)
    requires j.params.velocity < 256
    ensures PartsOf(j, j.tune.voices, parts)
    ensures Encodes(tracks, MultiSoFar(j, parts))
  {
    var key := ComputeKeyAccidentals(j.tune.header.key);
    tracks := TempoTrack(j);
    parts := [];
    assert MultiSoFar(j, parts) == [TempoEvents(j)];
    for i := 0 to |j.tune.voices|
      invariant |parts| == i && PartsUpTo(j, parts)
      invariant Encodes(tracks, MultiSoFar(j, parts))
    {
      ghost var part;
      tracks, part := AddTrack(j, key, j.tune.voices[i], tracks, i, parts);
      UpToSnoc(j, parts, part);
      parts := parts + [part];
    }
    UpToAll(j, parts);
  }

  method TempoTrack(j: Job) returns (tracks: seq<Bytes>)
    ensures Encodes(tracks, [TempoEvents(j)])
  {
    var tempo := new MidiWriter(0);
    tempo.Tempo(TempoOf(j.tune.header));
    assert tempo.events == TempoEvents(j);
    var head := EncodeTrack(tempo.events);
    tracks := [head];
    assert [head] == EncodeAll([TempoEvents(j)]);
  }

  lemma {:induction false} SkippedPart(j: Job, v: Voice) returns (part: Part)
    requires v.elements == []
    ensures IsPart(j, v, part) && !part.hasElements
  {
    part := PartOf(j, v, []);
    assert FlattenSlurs([]) == [];
    assert FindCuts([]).None?;
    assert Unfolded(v) == [];
    assert FlushOrder(j, v, []);
  }

  function Filled(vs: seq<Voice>): nat {
    if vs == [] then 0 else (if vs[0].elements == [] then 0 else 1) + Filled(vs[1..])
  }

  lemma {:induction false} FilledIsWithElements(j: Job, vs: seq<Voice>, parts: seq<Part>)
    requires PartsOf(j, vs, parts)
    ensures Filled(vs) == WithElements(parts)
  {
    if vs != [] {
      assert IsPart(j, vs[0], parts[0]);
      FilledIsWithElements(j, vs[1..], parts[1..]);
    }
  }

  /** The bytes are the file of the tune's layout, under some order of the final flushes. */
  ghost predicate IsFileOf(j: Job, out: Bytes) {
    exists parts :: PartsOf(j, j.tune.voices, parts) && IsLayoutFile(j, parts, out)
  }

  ghost predicate IsLayoutFile(j: Job, parts: seq<Part>, out: Bytes) {
    TracksSendable(Layout(j, parts)) && out
        == FileBytes(Format(parts), j.params.ticksPerBeat, EncodeAll(Layout(j, parts)))
  }

  /** The whole compiler. */
  method Generate(j: Job) returns (out: Bytes)
    requires j.params.velocity < 256
    ensures IsFileOf(j, out)
  {
    if Filled(j.tune.voices) > 1 {
      var tracks;
      ghost var parts;
      tracks, parts := BuildMultiTrack(j);
      FilledIsWithElements(j, j.tune.voices, parts);
      out := FileBytes(1, j.params.ticksPerBeat, tracks);
      assert IsLayoutFile(j, parts, out);
    } else {
      var w;
      ghost var parts;
      w, parts := BuildSingleTrack(j);
      FilledIsWithElements(j, j.tune.voices, parts);
      SingleFile(j, parts);
      var track := EncodeTrack(SortByTick(w.events));
      out := FileBytes(0, j.params.ticksPerBeat, [track]);
      assert IsLayoutFile(j, parts, out);
    }
  }

  lemma {:induction false} SingleFile(j: Job, parts: seq<Part>)
    requires PartsOf(j, j.tune.voices, parts) && j.params.velocity < 256 && WithElements(parts) <= 1
    ensures AllSendable(SingleTrack(j, parts)) && SortByTick(SingleTrack(j, parts)) == SingleTrack(j, parts)
    ensures TracksSendable(Layout(j, parts)) && EncodeAll(Layout(j, parts)) == [EncodeFrom(0, SingleTrack(j, parts))]
  {
    LayoutSendable(j, parts);
    assert Layout(j, parts)[0] == SingleTrack(j, parts);
    SingleTrackInOrder(j, parts);
    SortIsIdentity(SingleTrack(j, parts));
  }
}
