/** What a voice sounds, read from its elements: which pitch each written note
    gets, when it starts and stops, and how long everything lasts. */
module VoiceReading {
  import opened Prelude
  import opened AbcAst
  import opened VoiceRender
  import Transpose

  // --------------------------------------------------------------- pitch

  /** The MIDI pitch of a written note, middle C being 60, moved by an offset. */
  function Tone(n: Note, acc: Option<Accidental>, offset: int): int {
    Clamp7(Clamp7(60 + Transpose.Written(n.(accidental := acc))) + offset)
  }

  /** The octaves whose pitch fits the source's eight-bit arithmetic. */
  predicate Plain(n: Note) {
    -15 <= n.octave <= 5
  }

  /** Clamping gives the nearest MIDI pitch. */
  lemma {:induction false} ClampIsNearest(x: int, y: int)
    requires 0 <= y <= 127
    ensures (if Clamp7(x) < x then x - Clamp7(x) else Clamp7(x) - x) <= (if y < x then x - y else y - x)
  {
  }

  /** A note sounds its written pitch under the accidental in effect: its own,
      else the bar's or the key's, else the tie's. */
  lemma {:induction false} SoundsAsWritten(cfg: Config, n: Note, bar: Accidentals, carried: Option<Accidental>)
    requires Plain(n)
    ensures PitchOf(cfg, n, bar, carried) ==
            Tone(n, if n.accidental.Some? then n.accidental else if n.pitch in bar then Some(bar[n.pitch])
                else carried, cfg.offset)
  {
    var x := n.octave + 5;
    assert I8(x) == x && I8(x * 12) == x * 12;
  }

  /** An unmarked note is a natural one where nothing is in effect. */
  lemma {:induction false} NaturalIsDefault(n: Note, offset: int)
    ensures Tone(n, None, offset) == Tone(n, Some(Natural), offset)
  {
  }

  predicate InRange(x: int, offset: int) {
    0 <= x <= 127 && 0 <= x + offset <= 127
  }

  /** A note transposed by s, read in a place where nothing else is in effect,
      sounds s semitones away while both stay in range. */
  lemma {:induction false} TransposedSounds(cfg: Config, n: Note, s: int)
    requires Plain(n) && Plain(Transpose.TransposeNote(n, s)) && -128 <= (Transpose.Written(n) + s) / 12 < 128
    requires InRange(60 + Transpose.Written(n), cfg.offset) && InRange(60 + Transpose.Written(n) + s, cfg.offset)
    ensures PitchOf(cfg, Transpose.TransposeNote(n, s), map[], None) == PitchOf(cfg, n, map[], None) + s
  {
    var m := Transpose.TransposeNote(n, s);
    Transpose.NoteMovesBy(n, s);
    SoundsAsWritten(cfg, n, map[], None);
    SoundsAsWritten(cfg, m, map[], None);
    ToneInRange(n, cfg.offset);
    ToneInRange(m, cfg.offset);
  }

  lemma {:induction false} ToneInRange(n: Note, offset: int)
    requires InRange(60 + Transpose.Written(n), offset)
    ensures Tone(n, n.accidental, offset) == 60 + Transpose.Written(n) + offset
  {
    assert n.(accidental := n.accidental) == n;
  }

  /** Outside those octaves the eight-bit product wraps: six octaves up sounds
      the lowest pitches, sixteen down the highest. */
  lemma {:induction false} FarOctavesWrap(cfg: Config, n: Note)
    requires cfg.offset == 0 && n.accidental == Some(Natural) && (n.octave == 6 || n.octave == -16)
    ensures PitchOf(cfg, n, map[], None) == if n.octave == 6 then 0 else 124 + Min(n.pitch.Semitone(), 3)
    ensures Tone(n, Some(Natural), 0) == if n.octave == 6 then 127 else 0
  {
    assert I8(11) == 11 && I8(132) == -124 && I8(-11) == -11 && I8(-132) == 124;
  }

  /** A pitch is the written one exactly in those octaves, or where the wrapped
      product happens to fall off the same end of the MIDI range. */
  lemma {:induction false} OctavesExactly(n: Note, acc: Option<Accidental>)
    requires Transpose.IsI8(n.octave)
    ensures var rest := n.pitch.Semitone() + AccOffset(acc) + I8(I8(n.octave + 5) * 12);
            MidiPitch(n.pitch, n.octave, acc) == Tone(n, acc, 0) <==>
              || Plain(n)
              || (n.octave > 5 && rest >= 127)
              || (n.octave < -15 && rest <= 0)
  {
    var x := n.octave + 5;
    if Plain(n) {
      assert I8(x) == x && I8(x * 12) == x * 12;
    } else {
      FarIsClamped(n, acc);
    }
  }

  lemma {:induction false} FarIsClamped(n: Note, acc: Option<Accidental>)
    requires !Plain(n)
    ensures Tone(n, acc, 0) == if n.octave > 5 then 127 else 0
  {
  }

  // -------------------------------------------------------------- length

  /** A duration is the whole number of ticks in it, as long as the product fits 32 bits. */
  lemma {:induction false} LengthMeans(d: Ratio, unit: nat)
    requires unit * d.numerator < 0x1_0000_0000
    ensures var den := Max(d.denominator, 1);
            ToTicks(d, unit) * den <= unit * d.numerator < (ToTicks(d, unit) + 1) * den
  {
    Quotient(unit * d.numerator, Max(d.denominator, 1));
  }

  lemma {:induction false} Quotient(a: nat, b: nat)
    requires b > 0
    ensures a / b * b <= a < (a / b + 1) * b
  {
    assert a == a / b * b + a % b;
    assert (a / b + 1) * b == a / b * b + b;
  }

  /** The unit length is that fraction of a whole note, four quarters. */
  lemma {:induction false} UnitMeans(unit: Ratio, ticksPerBeat: nat)
    requires ticksPerBeat * 4 * unit.numerator < 0x1_0000_0000
    ensures var den, t := Max(unit.denominator, 1), UnitTicks(unit, ticksPerBeat);
            t * den <= 4 * ticksPerBeat * unit.numerator < (t + 1) * den
  {
    Quotient(ticksPerBeat * 4 * unit.numerator, Max(unit.denominator, 1));
  }

  /** A bar is its meter's fraction of a whole note; without a meter, a whole note. */
  lemma {:induction false} BarMeans(meter: Option<Meter>, ticksPerBeat: nat)
    requires forall n, d :: meter == Some(Simple(n, d)) ==> ticksPerBeat * 4 * n < 0x1_0000_0000
    requires ticksPerBeat * 16 < 0x1_0000_0000
    ensures var t := BarTicks(meter, ticksPerBeat);
            match meter
            case Some(Simple(n, d)) => t * Max(d, 1) <= 4 * ticksPerBeat * n < (t + 1) * Max(d, 1)
            case _ => t == 4 * ticksPerBeat
  {
    match meter
    case Some(Simple(n, d)) => Quotient(ticksPerBeat * 4 * n, Max(d, 1));
    case Some(Cut) => assert ticksPerBeat * 4 * 2 / 2 == 4 * ticksPerBeat;
    case _ => assert ticksPerBeat * 4 * 4 / 4 == 4 * ticksPerBeat;
  }

  /** Inside a p:q tuplet everything lasts q p-ths of its length. */
  lemma {:induction false} TupletMeans(d: Ratio, unit: nat, p: nat, q: nat)
    requires ToTicks(d, unit) * q < 0x1_0000_0000
    ensures var t := TupletTicks(d, unit, p, q);
            t * Max(p, 1) <= ToTicks(d, unit) * q < (t + 1) * Max(p, 1)
  {
    Quotient(ToTicks(d, unit) * q, Max(p, 1));
  }

  /** Where nothing is rounded a note is exactly its fraction of a whole note. */
  lemma {:induction false} LengthIsExact(d: Ratio, unit: Ratio, ticksPerBeat: nat)
    requires d.denominator > 0 && unit.denominator > 0
    requires ticksPerBeat * 4 * unit.numerator < 0x1_0000_0000
    requires UnitTicks(unit, ticksPerBeat) * d.numerator < 0x1_0000_0000
    requires (ticksPerBeat * 4 * unit.numerator) % unit.denominator == 0
    requires (UnitTicks(unit, ticksPerBeat) * d.numerator) % d.denominator == 0
    ensures ToTicks(d, UnitTicks(unit, ticksPerBeat)) * d.denominator * unit.denominator
            == 4 * ticksPerBeat * unit.numerator * d.numerator
  {
    var u := UnitTicks(unit, ticksPerBeat);
    var t := ToTicks(d, u);
    Exact(ticksPerBeat * 4 * unit.numerator, unit.denominator);
    Exact(u * d.numerator, d.denominator);
    assert u * unit.denominator == 4 * ticksPerBeat * unit.numerator;
    assert t * d.denominator == u * d.numerator;
    Commute(u, d.numerator, unit.denominator);
  }

  lemma {:induction false} Exact(a: nat, b: nat)
    requires b > 0 && a % b == 0
    ensures a / b * b == a
  {
  }

  lemma {:induction false} Commute(u: nat, n: nat, d: nat)
    ensures u * n * d == u * d * n
  {
  }

  /** A grace note lasts an eighth of a unit, but all of them at most half the
      principal, and each at least one tick. */
  lemma {:induction false} GraceMeans(count: nat, main: nat, unit: nat)
    requires count > 0
    ensures GraceEach(count, main, unit) == Max(1, Min(Max(unit / 8, 1), main / 2 / count))
  {
    var a, b := Max(unit / 8, 1), main / 2;
    Compare(a * count, count, a);
    Compare(a * count, count, a + 1);
    Grows(a, a + 1, count);
    Compare(b, count, a);
  }

  lemma {:induction false} Grows(a: nat, b: nat, n: nat)
    requires n > 0
    ensures a <= b ==> a * n <= b * n
    ensures a < b ==> a * n < b * n
  {
    if a < b {
      assert (b - a) * n > 0;
    }
  }

  /** A quotient reaches a exactly when the dividend reaches a times the divisor. */
  lemma {:induction false} Compare(x: nat, n: nat, a: nat)
    requires n > 0
    ensures x / n >= a <==> x >= a * n
  {
    var q, below, above := Parts(x, n);
    CompareBy(x, n, a, q, below, above, a * n);
  }

  lemma {:induction false} Parts(x: nat, n: nat) returns (q: nat, below: nat, above: nat)
    requires n > 0
    ensures q == x / n && below == q * n && above == (q + 1) * n && below <= x < above
  {
    q, below, above := x / n, x / n * n, (x / n + 1) * n;
    Quotient(x, n);
  }

  lemma {:induction false} CompareBy(x: nat, n: nat, a: nat, q: nat, below: nat, above: nat, m: nat)
    requires n > 0 && below == q * n && above == (q + 1) * n && m == a * n && below <= x < above
    ensures q >= a <==> x >= m
  {
    Grows(a, q, n);
    Grows(q + 1, a, n);
  }
}
