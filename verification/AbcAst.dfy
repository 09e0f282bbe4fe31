/** The ABC syntax tree, as far as playback and transposition look at it. */
module AbcAst {
  import opened Prelude

  datatype NoteName = C | D | E | F | G | A | B
  {
    /** Semitones above C. */
    function Semitone(): int {
      match this
      case C => 0 case D => 2 case E => 4 case F => 5 case G => 7 case A => 9 case B => 11
    }
  }

  datatype Accidental = DoubleSharp | Sharp | Natural | Flat | DoubleFlat
  {
    function Offset(): int {
      match this
      case DoubleSharp => 2 case Sharp => 1 case Natural => 0 case Flat => -1 case DoubleFlat => -2
    }
  }

  function AccOffset(a: Option<Accidental>): int {
    if a.Some? then a.value.Offset() else 0
  }

  /** The spelling of a semitone class, sharps preferred. */
  function FromSemitone(semitone: int): (NoteName, Option<Accidental>) {
    match semitone % 12
    case 0 => (C, None)
    case 1 => (C, Some(Sharp))
    case 2 => (D, None)
    case 3 => (D, Some(Sharp))
    case 4 => (E, None)
    case 5 => (F, None)
    case 6 => (F, Some(Sharp))
    case 7 => (G, None)
    case 8 => (G, Some(Sharp))
    case 9 => (A, None)
    case 10 => (A, Some(Sharp))
    case _ => (B, None)
  }

  datatype Mode = Major | Minor | Ionian | Dorian | Phrygian | Lydian | Mixolydian | Aeolian | Locrian

  datatype Key = Key(
    root: NoteName, accidental: Option<Accidental>, mode: Mode,
    explicits: seq<(Accidental, NoteName)>, transpose: int, octave: int)
  {
    /** Signed position on the circle of fifths: sharps positive, flats negative. */
    function Fifths(): int {
      var letter := match root case F => -1 case C => 0 case G => 1 case D => 2 case A => 3 case E => 4 case B => 5;
      var acc := match accidental
        case Some(Sharp) => 7 case Some(DoubleSharp) => 14
        case Some(Flat) => -7 case Some(DoubleFlat) => -14 case _ => 0;
      var offset := match mode
        case Major => 0 case Ionian => 0 case Minor => -3 case Aeolian => -3 case Dorian => -2
        case Phrygian => -4 case Lydian => 1 case Mixolydian => -1 case Locrian => -5;
      letter + acc + offset
    }
  }

  datatype Meter = Simple(numerator: nat, denominator: nat) | Common | Cut | Free
  {
    function Fraction(): (nat, nat) {
      match this
      case Simple(n, d) => (n, d) case Common => (4, 4) case Cut => (2, 2) case Free => (4, 4)
    }
  }

  datatype Ratio = Ratio(numerator: nat, denominator: nat)

  /** Two's-complement truncation to eight bits. */
  function I8(x: int): int {
    (x + 128) % 256 - 128
  }

  /** `u32` products wrap; quotients by zero are read as quotients by one. */
  function W32(x: nat): nat {
    x % 0x1_0000_0000
  }

  function ToTicks(d: Ratio, ticksPerUnit: nat): nat {
    W32(ticksPerUnit * d.numerator) / Max(d.denominator, 1)
  }

  datatype Note = Note(
    pitch: NoteName, octave: int, accidental: Option<Accidental>,
    duration: Ratio, tie: bool, decorations: seq<string>)

  datatype Bar =
    | Single | Double | End | Begin
    | RepeatStart | RepeatEnd | RepeatBoth
    | FirstEnding | SecondEnding | NthEnding(passes: seq<nat>)

  /** A body element. `Other` stands for chord symbols, decorations, voice
      switches, lyrics and spacing, which playback and transposition ignore. */
  datatype Element =
    | ANote(note: Note)
    | AChord(notes: seq<Note>, duration: Ratio)
    | ARest(duration: Ratio, multiMeasure: Option<nat>)
    | ABar(bar: Bar)
    | ATuplet(p: nat, q: nat, elements: seq<Element>)
    | Graces(acciaccatura: bool, graces: seq<Note>)
    | ASlur(inner: seq<Element>)
    | AField(kind: char, value: string)
    | Other(text: string)

  datatype VoiceDef = VoiceDef(id: string, octave: Option<int>, transpose: Option<int>)
  datatype Voice = Voice(id: Option<string>, elements: seq<Element>)
  datatype Tempo = Tempo(num: nat, den: nat, bpm: nat)

  datatype Header = Header(
    key: Key, meter: Option<Meter>, unitLength: Option<Ratio>, tempo: Option<Tempo>,
    voiceDefs: seq<VoiceDef>, midiProgram: Option<nat>, midiTranspose: Option<int>)

  datatype Tune = Tune(header: Header, voices: seq<Voice>)
}
