/** What a tune's header means for what is played: its key signature, its
    transpositions, its unit length, its tempo and its program. */
module TuneReading {
  import opened Prelude
  import opened AbcAst
  import opened VoiceRender
  import opened VoiceSounds
  import opened MidiTrack
  import opened Smf
  import opened Compile
  import VoiceReading

  // ------------------------------------------------------ key signatures

  /** A letter's place on the circle of fifths, C at 0. */
  function Place(name: NoteName): int {
    match name
    case F => -1 case C => 0 case G => 1 case D => 2 case A => 3 case E => 4 case B => 5
  }

  lemma {:induction false} SignsHave(n: nat, names: seq<NoteName>, acc: Accidental, name: NoteName)
    requires n <= |names|
    ensures Sign(Signs(n, names, acc), name) == if name in names[..n] then Some(acc) else None
  {
    if n > 0 {
      SignsHave(n - 1, names, acc, name);
      assert names[..n] == names[..n - 1] + [names[n - 1]];
    }
  }

  lemma {:induction false} SharpsCome(n: nat, name: NoteName)
    requires n <= 7
    ensures name in SHARPS[..n] <==> n >= Place(name) + 2
    ensures name in FLATS[..n] <==> n >= 6 - Place(name)
  {
    assert SHARPS[Place(name) + 1] == name && FLATS[5 - Place(name)] == name;
    if name in SHARPS[..n] {
      var i :| 0 <= i < n && SHARPS[i] == name;
    }
    if name in FLATS[..n] {
      var i :| 0 <= i < n && FLATS[i] == name;
    }
  }

  /** The sign of a letter in a key of so many fifths. */
  function SignOf(fifths: int, name: NoteName): int {
    if fifths >= Place(name) + 2 then 1 else if fifths <= Place(name) - 6 then -1 else 0
  }

  lemma {:induction false} SignatureIs(key: Key, name: NoteName)
    requires key.explicits == []
    ensures AccOffset(Sign(KeyAccidentals(key), name)) == SignOf(key.Fifths(), name)
  {
    var f := key.Fifths();
    if f >= 0 {
      SignsHave(Min(f, 7), SHARPS, Sharp, name);
      SharpsCome(Min(f, 7), name);
    } else {
      SignsHave(Min(-f, 7), FLATS, Flat, name);
      SharpsCome(Min(-f, 7), name);
    }
  }

  /** The steps of each mode's scale, in semitones above the tonic. */
  function Scale(mode: Mode): (s: seq<int>)
    ensures |s| == 7
  {
    match mode
    case Major => [0, 2, 4, 5, 7, 9, 11]
    case Ionian => [0, 2, 4, 5, 7, 9, 11]
    case Dorian => [0, 2, 3, 5, 7, 9, 10]
    case Phrygian => [0, 1, 3, 5, 7, 8, 10]
    case Lydian => [0, 2, 4, 6, 7, 9, 11]
    case Mixolydian => [0, 2, 4, 5, 7, 9, 10]
    case Minor => [0, 2, 3, 5, 7, 8, 10]
    case Aeolian => [0, 2, 3, 5, 7, 8, 10]
    case Locrian => [0, 1, 3, 5, 6, 8, 10]
  }

  const LETTERS := [C, D, E, F, G, A, B]

  function Index(name: NoteName): (i: nat)
    ensures i < 7 && LETTERS[i] == name
  {
    match name
    case C => 0 case D => 1 case E => 2 case F => 3 case G => 4 case A => 5 case B => 6
  }

  /** The letter some degrees above another. */
  function Above(name: NoteName, degree: nat): NoteName {
    LETTERS[(Index(name) + degree) % 7]
  }

  /** Fifths and semitones: seven semitones a fifth, round the octave. */
  lemma {:induction false} PlaceSounds(name: NoteName)
    ensures (name.Semitone() - 7 * Place(name)) % 12 == 0
  {
  }

  /** How far a letter is above the tonic, in fifths, for each degree of a scale. */
  function Fifth(degree: nat): int {
    match degree
    case 0 => 0 case 1 => 2 case 2 => 4 case 3 => -1 case 4 => 1 case 5 => 3 case _ => 5
  }

  /** Letters go round by twos of the circle. */
  lemma {:induction false} PlaceOfLetter(k: nat)
    requires k < 7
    ensures Index(LETTERS[k]) == k && (Place(LETTERS[k]) - 2 * k) % 7 == 0
  {
    Seven(k);
  }

  lemma {:induction false} FifthOfDegree(degree: nat)
    requires degree < 7
    ensures (Fifth(degree) - 2 * degree) % 7 == 0
  {
    Seven(degree);
  }

  lemma {:induction false} AboveIsFifths(root: NoteName, degree: nat)
    requires degree < 7
    ensures (Place(Above(root, degree)) - Place(root) - Fifth(degree)) % 7 == 0
  {
    var r := Index(root);
    var k := (r + degree) % 7;
    PlaceOfLetter(k);
    PlaceOfLetter(r);
    FifthOfDegree(degree);
    Sevens(Place(LETTERS[k]) - 2 * k, Place(root) - 2 * r, Fifth(degree) - 2 * degree, (r + degree) / 7);
    assert r + degree == k + 7 * ((r + degree) / 7);
  }

  lemma {:induction false} Sevens(a: int, b: int, c: int, m: int)
    requires a % 7 == 0 && b % 7 == 0 && c % 7 == 0
    ensures (a - b - c - 14 * m) % 7 == 0
  {
  }

  lemma {:induction false} Seven(degree: nat)
    requires degree < 7
    ensures degree == 0 || degree == 1 || degree == 2 || degree == 3 || degree == 4 || degree == 5 || degree == 6
  {
  }

  /** Where a mode's tonic stands below the major tonic of its signature, in fifths. */
  function Below(mode: Mode): int {
    match mode
    case Major => 0 case Ionian => 0 case Dorian => 2 case Phrygian => 4 case Lydian => -1
    case Mixolydian => 1 case Minor => 3 case Aeolian => 3 case Locrian => 5
  }

  /** The tonic's place on the circle. */
  function Tonic(key: Key): int {
    Place(key.root) + 7 * AccOffset(key.accidental)
  }

  lemma {:induction false} FifthsAre(key: Key)
    ensures key.Fifths() == Tonic(key) - Below(key.mode)
  {
  }

  /** Under a signature of f fifths a letter stands at one of the seven places f-1 to f+5. */
  lemma {:induction false} InTheWindow(f: int, name: NoteName)
    requires -7 <= f <= 7
    ensures f - 1 <= Place(name) + 7 * SignOf(f, name) <= f + 5
  {
  }

  /** Two places in the window that differ by sevens are one. */
  lemma {:induction false} OnePlace(x: int, y: int, lo: int)
    requires lo <= x <= lo + 6 && lo <= y <= lo + 6 && (x - y) % 7 == 0
    ensures x == y
  {
  }

  /** The place of each degree above the tonic, kept in the window. */
  function Degree(mode: Mode, degree: nat): (d: int)
    requires degree < 7
  {
    var d := Fifth(degree);
    if d > 5 - Below(mode) then d - 7 else if d < -1 - Below(mode) then d + 7 else d
  }

  lemma {:induction false} DegreeFits(mode: Mode, degree: nat)
    requires degree < 7
    ensures -1 - Below(mode) <= Degree(mode, degree) <= 5 - Below(mode)
    ensures (Degree(mode, degree) - Fifth(degree)) % 7 == 0
    ensures 7 * Degree(mode, degree) % 12 == Scale(mode)[degree]
  {
    match mode {
      case Major => Seven(degree);
      case Ionian => Seven(degree);
      case Dorian => Seven(degree);
      case Phrygian => Seven(degree);
      case Lydian => Seven(degree);
      case Mixolydian => Seven(degree);
      case Minor => Seven(degree);
      case Aeolian => Seven(degree);
      case Locrian => Seven(degree);
    }
  }

  /** A degree above the tonic, as written with its sign, is the mode's step away. */
  predicate Spells(key: Key, degree: nat)
    requires degree < 7
  {
    var name := Above(key.root, degree);
    (name.Semitone() + AccOffset(Sign(KeyAccidentals(key), name))
     - (key.root.Semitone() + AccOffset(key.accidental))) % 12 == Scale(key.mode)[degree]
  }

  /** The place a degree is written at and the place it belongs to differ by sevens. */
  lemma {:induction false} PlacesDiffer(key: Key, degree: nat)
    requires degree < 7
    ensures var name := Above(key.root, degree);
            (Place(name) + 7 * SignOf(key.Fifths(), name) - (Tonic(key) + Degree(key.mode, degree))) % 7 == 0
    ensures key.Fifths() - 1 <= Tonic(key) + Degree(key.mode, degree) <= key.Fifths() + 5
  {
    var name := Above(key.root, degree);
    FifthsAre(key);
    AboveIsFifths(key.root, degree);
    DegreeFits(key.mode, degree);
    SevensAdd(Place(name) - Place(key.root) - Fifth(degree), Degree(key.mode, degree) - Fifth(degree),
        SignOf(key.Fifths(), name) - AccOffset(key.accidental));
  }

  lemma {:induction false} KeySpells(key: Key, degree: nat)
    requires key.explicits == [] && -7 <= key.Fifths() <= 7 && degree < 7
    ensures Spells(key, degree)
  {
    var name, f := Above(key.root, degree), key.Fifths();
    var d := Degree(key.mode, degree);
    SignatureIs(key, name);
    InTheWindow(f, name);
    PlacesDiffer(key, degree);
    DegreeFits(key.mode, degree);
    OnePlace(Place(name) + 7 * SignOf(f, name), Tonic(key) + d, f - 1);
    PlaceSounds(name);
    PlaceSounds(key.root);
    Twelves(name.Semitone(), key.root.Semitone(), Place(name), Place(key.root), SignOf(f, name),
        AccOffset(key.accidental), d, 0);
  }

  /** The letter that would need a second sign in a key of more than seven. */
  function Short(key: Key): (degree: nat)
    ensures degree < 7 && Above(key.root, degree) == if key.Fifths() >= 0 then F else B
  {
    var name := if key.Fifths() >= 0 then F else B;
    (Index(name) - Index(key.root)) % 7
  }

  lemma {:induction false} SevensMissing(key: Key) returns (m: int)
    requires !(-7 <= key.Fifths() <= 7)
    ensures var name := Above(key.root, Short(key));
            Place(name) + 7 * SignOf(key.Fifths(), name) + 7 * m == Tonic(key) + Degree(key.mode, Short(key))
    ensures -3 <= m <= 3 && m != 0
  {
    PlacesDiffer(key, Short(key));
    Missing(key.Fifths(), Tonic(key) + Degree(key.mode, Short(key)));
    m := (Tonic(key) + Degree(key.mode, Short(key)) - (if key.Fifths() > 0 then 6 else -2)) / 7;
  }

  lemma {:induction false} FarKeyMisspells(key: Key)
    requires key.explicits == [] && !(-7 <= key.Fifths() <= 7)
    ensures !Spells(key, Short(key))
  {
    var degree, f := Short(key), key.Fifths();
    var name, d := Above(key.root, degree), Degree(key.mode, degree);
    SignatureIs(key, name);
    var m := SevensMissing(key);
    DegreeFits(key.mode, degree);
    PlaceSounds(name);
    PlaceSounds(key.root);
    Twelves(name.Semitone(), key.root.Semitone(), Place(name), Place(key.root), SignOf(f, name),
        AccOffset(key.accidental), d, m);
    NotRound(7 * d, m);
  }

  /** One or two sevens are missing. */
  lemma {:induction false} Missing(f: int, y: int)
    requires -21 <= f <= 21 && !(-7 <= f <= 7) && f - 1 <= y <= f + 5 && ((if f >= 0 then 6 else -2) - y) % 7 == 0
    ensures f > 0 ==> y == 13 || y == 20
    ensures f < 0 ==> y == -9 || y == -16 || y == -23
  {
  }

  lemma {:induction false} NotRound(x: int, m: int)
    requires -3 <= m <= 3 && m != 0
    ensures (x - m) % 12 != x % 12
  {
  }

  /** A key signature spells the scale of its mode, every degree above the tonic
      the mode's step away, exactly when the key has at most seven signs; further
      out double signs would be needed, and the signature has none. */
  lemma {:induction false} KeySpellsItsScale(key: Key)
    requires key.explicits == []
    ensures (forall degree: nat :: degree < 7 ==> Spells(key, degree)) <==> -7 <= key.Fifths() <= 7
  {
    if -7 <= key.Fifths() <= 7 {
      forall degree: nat | degree < 7
        ensures Spells(key, degree)
      {
        KeySpells(key, degree);
      }
    } else {
      FarKeyMisspells(key);
    }
  }

  lemma {:induction false} SevensAdd(a: int, b: int, c: int)
    requires a % 7 == 0 && b % 7 == 0
    ensures (a + 7 * c - b) % 7 == 0
  {
  }

  lemma {:induction false} Twelves(s: int, r: int, p: int, t: int, a: int, b: int, d: int, m: int)
    requires (s - 7 * p) % 12 == 0 && (r - 7 * t) % 12 == 0 && p + 7 * a + 7 * m == t + 7 * b + d
    ensures (s + a - (r + b)) % 12 == (7 * d - m) % 12
  {
    var i, k := (s - 7 * p) / 12, (r - 7 * t) / 12;
    assert s == 7 * p + 12 * i && r == 7 * t + 12 * k;
    assert s + a - (r + b) == 7 * d - m + 12 * (i - k - 4 * a + 4 * b - 4 * m);
  }

  /** An explicit accidental of the `K:` field overrides the signature on its
      letter, the last one if there are several. */
  lemma {:induction false} ExplicitsOverride(key: Key, i: nat)
    requires i < |key.explicits| && forall j :: i < j < |key.explicits| ==> key.explicits[j].1 != key.explicits[i].1
    ensures Sign(KeyAccidentals(key), key.explicits[i].1) == Some(key.explicits[i].0)
  {
    var f := key.Fifths();
    OverridesAt(if f >= 0 then Signs(Min(f, 7), SHARPS, Sharp) else Signs(Min(-f, 7), FLATS, Flat), key.explicits, i);
  }

  lemma {:induction false} OverridesAt(signs: Accidentals, es: seq<(Accidental, NoteName)>, i: nat)
    requires i < |es| && forall j :: i < j < |es| ==> es[j].1 != es[i].1
    ensures Sign(Overridden(signs, es), es[i].1) == Some(es[i].0)
    decreases |es|
  {
    if i < |es| - 1 {
      OverridesAt(signs, es[..|es| - 1], i);
    }
  }

  /** Letters without one keep the signature's. */
  lemma {:induction false} OthersKeepTheirs(key: Key, name: NoteName)
    requires forall j :: 0 <= j < |key.explicits| ==> key.explicits[j].1 != name
    ensures Sign(KeyAccidentals(key), name) == Sign(KeyAccidentals(key.(explicits := [])), name)
  {
    var f := key.Fifths();
    assert key.(explicits := []).Fifths() == f;
    NotOverridden(if f >= 0 then Signs(Min(f, 7), SHARPS, Sharp)
        else Signs(Min(-f, 7), FLATS, Flat), key.explicits, name);
  }

  lemma {:induction false} NotOverridden(signs: Accidentals, es: seq<(Accidental, NoteName)>, name: NoteName)
    requires forall j :: 0 <= j < |es| ==> es[j].1 != name
    ensures Sign(Overridden(signs, es), name) == Sign(signs, name)
    decreases |es|
  {
    if es != [] {
      NotOverridden(signs, es[..|es| - 1], name);
    }
  }

  // ------------------------------------------------------------- pitches

  function WithHeader(t: Tune, h: Header): Tune {
    t.(header := h)
  }

  /** The `K:` field's transpose and octave move every voice, by semitones and by twelves. */
  lemma {:induction false} KeyMovesPitch(t: Tune, v: Voice, s: int, o: int)
    ensures var k := t.header.key.(transpose := t.header.key.transpose + s, octave := t.header.key.octave + o);
            PitchOffset(WithHeader(t, t.header.(key := k)), v) == PitchOffset(t, v) + s + 12 * o
  {
  }

  /** So does `%%MIDI transpose`. */
  lemma {:induction false} MidiTransposeMovesPitch(t: Tune, v: Voice, s: int)
    requires t.header.midiTranspose.None?
    ensures PitchOffset(WithHeader(t, t.header.(midiTranspose := Some(s))), v) == PitchOffset(t, v) + s
  {
  }

  /** A voice's own definition, the first of its id, moves that voice and no other. */
  lemma {:induction false} VoiceMovesPitch(t: Tune, v: Voice, id: string, octave: Option<int>, transpose: Option<int>)
    ensures var t' := WithHeader(t, t.header.(voiceDefs := [VoiceDef(id, octave, transpose)]));
            var none := WithHeader(t, t.header.(voiceDefs := []));
            PitchOffset(t', v) == PitchOffset(none, v)
              + if v.id == Some(id) then (if transpose.Some? then transpose.value else 0)
                  + 12 * (if octave.Some? then octave.value else 0)
                else 0
  {
    var defs := [VoiceDef(id, octave, transpose)];
    assert defs[1..] == [];
    assert v.id.Some? ==> FindDef(defs, v.id.value) == if v.id.value == id then Some(defs[0]) else None;
  }

  /** The first definition of an id counts, whatever follows. */
  lemma {:induction false} FirstDefinitionCounts(defs: seq<VoiceDef>, more: seq<VoiceDef>, id: string)
    requires exists i :: 0 <= i < |defs| && defs[i].id == id
    ensures FindDef(defs + more, id) == FindDef(defs, id) && FindDef(defs, id).Some? && FindDef(defs, id).value.id == id
  {
    assert (defs + more)[0] == defs[0];
    if defs[0].id != id {
      assert (defs + more)[1..] == defs[1..] + more;
      var i :| 0 <= i < |defs| && defs[i].id == id;
      assert defs[1..][i - 1].id == id;
      FirstDefinitionCounts(defs[1..], more, id);
    }
  }

  /** Without any of these nothing moves. */
  lemma {:induction false} NothingMovesPitch(t: Tune, v: Voice)
    requires t.header.key.transpose == 0 && t.header.key.octave == 0 && t.header.midiTranspose.None?
             && t.header.voiceDefs == []
    ensures PitchOffset(t, v) == 0
  {
  }

  // --------------------------------------------- unit, tempo and program

  /** The unit length is the header's fraction of a whole note, an eighth by default. */
  lemma {:induction false} UnitIsHeaders(j: Job)
    requires var u := j.tune.header.unitLength;
             u.Some? ==> j.params.ticksPerBeat * 4 * u.value.numerator < 0x1_0000_0000
    requires j.params.ticksPerBeat < 0x1_0000
    ensures match j.tune.header.unitLength
            case None => UnitOf(j) * 2 <= j.params.ticksPerBeat < (UnitOf(j) + 1) * 2
            case Some(u) =>
              var den := Max(u.denominator, 1);
              UnitOf(j) * den <= 4 * j.params.ticksPerBeat * u.numerator < (UnitOf(j) + 1) * den
  {
    match j.tune.header.unitLength
    case None =>
    case Some(u) => VoiceReading.UnitMeans(u, j.params.ticksPerBeat);
  }

  /** The file begins with the header's tempo, 120 quarters a minute by default. */
  lemma {:induction false} TempoIsHeaders(j: Job, parts: seq<Part>)
    ensures var first := Layout(j, parts)[0];
            |first| > 0 && first[0].tick == 0 && first[0].msg.SetTempo?
            && match j.tune.header.tempo
               case None => first[0].msg.microsPerQuarter == 500000
               case Some(t) =>
                 var quarters, us := t.bpm * t.num * 4, first[0].msg.microsPerQuarter;
                 if quarters == 0 then us == 500000 else us * quarters <= 60000000 * t.den < (us + 1) * quarters
  {
    TempoMeaning(TempoOf(j.tune.header));
    if j.tune.header.tempo.None? {
      assert 500000 * 480 == 60000000 * 4;
    }
  }

  /** Each track with notes names its program first: `%%MIDI program`'s, else the
      parameters', else none. */
  lemma {:induction false} ProgramIsHeaders(j: Job, k: nat, part: Part)
    ensures var wanted := j.tune.header.midiProgram;
            match (if wanted.Some? then wanted else j.params.program)
            case None => OwnTrack(j, k, part) == OwnNotes(j.params.velocity, k, part)
            case Some(p) =>
              OwnTrack(j, k, part) == [Event(0, ProgramChange(ChannelOf(k), p % 128))]
                  + OwnNotes(j.params.velocity, k, part)
  {
    assert [] + OwnNotes(j.params.velocity, k, part) == OwnNotes(j.params.velocity, k, part);
  }

  // -------------------------------------------------------- what a part is

  /** A voice's part is what looking back at its unfolded elements says, under
      the tune's key, unit length and meter, and then the end of every pitch
      still tied. */
  lemma {:induction false} PartIsRead(j: Job, v: Voice, part: Part) returns (order: seq<int>)
    requires IsPart(j, v, part) && PlainVoice(Unfolded(v))
    ensures part.calls == VoiceSoundsAll(ConfigOf(j, v), StartState(j), Unfolded(v)) + Flush(order)
    ensures forall p :: p in order <==> TiedAt(ConfigOf(j, v), StartState(j), Unfolded(v), p)
    ensures forall a, b :: 0 <= a < b < |order| ==> order[a] != order[b]
    ensures StartState(j).key == StartState(j).bar == KeyAccidentals(j.tune.header.key)
    ensures StartState(j).meter == j.tune.header.meter && StartState(j).unit == UnitOf(j)
    ensures StartState(j).held == map[] && StartState(j).carry == map[] && StartState(j).grace == []
  {
    order :| FlushOrder(j, v, order) && part == PartOf(j, v, order);
    VoiceIsRead(ConfigOf(j, v), StartState(j), Unfolded(v));
  }
}
