/** Transposition of a whole tune, over arbitrarily nested tuplets, slurs,
    chords and grace groups, with the `i8` arithmetic of keys and octaves. */
module Transpose {
  import opened Prelude
  import opened AbcAst

  predicate IsI8(x: int) {
    -128 <= x <= 127
  }

  /** A note's written chromatic pitch; key signatures play no part. */
  function Written(n: Note): int {
    n.pitch.Semitone() + AccOffset(n.accidental) + 12 * n.octave
  }

  function TransposeNote(n: Note, s: int): Note {
    var pitch := Written(n) + s;
    var (name, acc) := FromSemitone(pitch % 12);
    n.(pitch := name, accidental := acc, octave := I8(pitch / 12))
  }

  function TransposeNotes(ns: seq<Note>, s: int): seq<Note> {
    if ns == [] then [] else [TransposeNote(ns[0], s)] + TransposeNotes(ns[1..], s)
  }

  function TransposeElement(e: Element, s: int): Element
    decreases e, 1
  {
    match e
    case ANote(n) => ANote(TransposeNote(n, s))
    case AChord(ns, d) => AChord(TransposeNotes(ns, s), d)
    case ATuplet(p, q, es) => ATuplet(p, q, TransposeElements(es, s))
    case Graces(a, ns) => Graces(a, TransposeNotes(ns, s))
    case ASlur(es) => ASlur(TransposeElements(es, s))
    case _ => e
  }

  function TransposeElements(es: seq<Element>, s: int): seq<Element>
    decreases es, 0
  {
    if es == [] then [] else [TransposeElement(es[0], s)] + TransposeElements(es[1..], s)
  }

  function TransposeVoices(vs: seq<Voice>, s: int): seq<Voice> {
    if vs == [] then []
    else [vs[0].(elements := TransposeElements(vs[0].elements, s))] + TransposeVoices(vs[1..], s)
  }

  function KeySemitone(k: Key): int {
    k.root.Semitone() + AccOffset(k.accidental)
  }

  function TransposeKey(k: Key, s: int): Key {
    var (root, acc) := FromSemitone(I8(KeySemitone(k) + s));
    k.(root := root, accidental := acc)
  }

  function TransposeTune(t: Tune, s: int): Tune {
    Tune(t.header.(key := TransposeKey(t.header.key, s)), TransposeVoices(t.voices, s))
  }

  // ------------------------------------------------------------- notes

  lemma {:induction false} SpellingIsRight(x: int)
    ensures var (name, acc) := FromSemitone(x); name.Semitone() + AccOffset(acc) == x % 12
  {
  }

  /** `I8` moves a value by a whole number of 256s. */
  lemma {:induction false} WrapCarry(x: int)
    ensures I8(x) == x - 256 * ((x + 128) / 256) && IsI8(I8(x))
    ensures IsI8(x) ==> I8(x) == x
  {
  }

  lemma {:induction false} WrapShift(x: int, m: int)
    ensures I8(x - 256 * m) == I8(x)
  {
  }

  lemma {:induction false} OctaveShift(x: int, m: int)
    ensures (x - 12 * m) % 12 == x % 12 && (x - 12 * m) / 12 == x / 12 - m
  {
  }

  /** The written pitch after a transposition, up to the octave's wrap. */
  lemma {:induction false} WrittenAfter(n: Note, s: int)
    ensures var p := Written(n) + s;
            Written(TransposeNote(n, s)) == p - 3072 * ((p / 12 + 128) / 256)
  {
    var p := Written(n) + s;
    SpellingIsRight(p % 12);
    WrapCarry(p / 12);
    assert p == 12 * (p / 12) + p % 12;
  }

  /** Notes: a then b is exactly a + b, octave wrap and all. */
  lemma {:induction false} NoteAction(n: Note, a: int, b: int)
    ensures TransposeNote(TransposeNote(n, a), b) == TransposeNote(n, a + b)
  {
    var p := Written(n) + a;
    var m := (p / 12 + 128) / 256;
    WrittenAfter(n, a);
    var x := p + b;
    assert Written(TransposeNote(n, a)) + b == x - 12 * (256 * m);
    OctaveShift(x, 256 * m);
    WrapShift(x / 12, m);
  }

  lemma {:induction false} NotesAction(ns: seq<Note>, a: int, b: int)
    ensures TransposeNotes(TransposeNotes(ns, a), b) == TransposeNotes(ns, a + b)
  {
    if ns != [] {
      NoteAction(ns[0], a, b);
      NotesAction(ns[1..], a, b);
      assert TransposeNotes(ns, a)[1..] == TransposeNotes(ns[1..], a);
    }
  }

  // ----------------------------------------------- elements and voices

  lemma {:induction false} ElementAction(e: Element, a: int, b: int)
    ensures TransposeElement(TransposeElement(e, a), b) == TransposeElement(e, a + b)
    decreases e, 1
  {
    match e
    case ANote(n) => NoteAction(n, a, b);
    case AChord(ns, _) => NotesAction(ns, a, b);
    case Graces(_, ns) => NotesAction(ns, a, b);
    case ATuplet(_, _, es) => ElementsAction(es, a, b);
    case ASlur(es) => ElementsAction(es, a, b);
    case _ =>
  }

  lemma {:induction false} ElementsAction(es: seq<Element>, a: int, b: int)
    ensures TransposeElements(TransposeElements(es, a), b) == TransposeElements(es, a + b)
    decreases es, 0
  {
    if es != [] {
      ElementAction(es[0], a, b);
      ElementsAction(es[1..], a, b);
      assert TransposeElements(es, a)[1..] == TransposeElements(es[1..], a);
    }
  }

  lemma {:induction false} VoicesAction(vs: seq<Voice>, a: int, b: int)
    ensures TransposeVoices(TransposeVoices(vs, a), b) == TransposeVoices(vs, a + b)
  {
    if vs != [] {
      ElementsAction(vs[0].elements, a, b);
      VoicesAction(vs[1..], a, b);
      assert TransposeVoices(vs, a)[1..] == TransposeVoices(vs[1..], a);
    }
  }

  // --------------------------------------------------------------- keys

  /** How many times an `i8` sum wraps (signed). */
  function Carry(x: int): int {
    (x + 128) / 256
  }

  /** The key's `i8` additions wrap, and 256 is not a multiple of 12: the wraps
      of the two steps must cancel against the wrap of the single step, mod 3. */
  predicate CarriesCancel(k: Key, a: int, b: int) {
    (Carry(KeySemitone(k) + a) + Carry(I8(KeySemitone(k) + a) % 12 + b) - Carry(KeySemitone(k) + a + b)) % 3 == 0
  }

  lemma {:induction false} SpellingIsInjective(x: int, y: int)
    ensures FromSemitone(x) == FromSemitone(y) <==> x % 12 == y % 12
  {
    SpellingIsRight(x);
    SpellingIsRight(y);
  }

  lemma {:induction false} KeyAction(k: Key, a: int, b: int)
    ensures TransposeKey(TransposeKey(k, a), b) == TransposeKey(k, a + b) <==> CarriesCancel(k, a, b)
  {
    var x := KeySemitone(k) + a;
    var r := I8(x) % 12;
    SpellingIsRight(I8(x));
    assert KeySemitone(TransposeKey(k, a)) == r;
    SpellingIsInjective(I8(r + b), I8(x + b));
    WrapCarry(x);
    WrapCarry(r + b);
    WrapCarry(x + b);
    var q := I8(x) / 12;
    var c := Carry(x) + Carry(r + b) - Carry(x + b);
    assert I8(r + b) - I8(x + b) == -256 * c - 12 * q;
    CarryMod12(I8(r + b), I8(x + b), c, q);
  }

  lemma {:induction false} CarryMod12(u: int, v: int, c: int, q: int)
    requires u - v == -256 * c - 12 * q
    ensures u % 12 == v % 12 <==> c % 3 == 0
  {
    var d := u % 12 - v % 12;
    var w := u / 12 - v / 12;
    assert 12 * (w + q + 21 * c) + d == -4 * c;
    if c % 3 == 0 {
      var m := c / 3;
      assert d == 12 * (-m - w - q - 21 * c);
    }
  }

  /** When no `i8` sum wraps, the carries cancel. */
  lemma {:induction false} NoOverflowNoCarry(k: Key, a: int, b: int)
    requires IsI8(KeySemitone(k) + a) && IsI8((KeySemitone(k) + a) % 12 + b) && IsI8(KeySemitone(k) + a + b)
    ensures CarriesCancel(k, a, b)
  {
  }

  /** A whole tune: transposing by a then b is transposing by a + b exactly
      when the key's carries cancel. */
  lemma {:induction false} TuneAction(t: Tune, a: int, b: int)
    ensures TransposeTune(TransposeTune(t, a), b) == TransposeTune(t, a + b) <==> CarriesCancel(t.header.key, a, b)
  {
    VoicesAction(t.voices, a, b);
    KeyAction(t.header.key, a, b);
  }

  /** The law fails when the key's sum overflows: +127 then -127 leaves a tune
      in B major in G major, where transposing by 0 leaves it in B major. */
  lemma {:induction false} OverflowBreaksTheAction()
    ensures var k := Key(B, None, Major, [], 0, 0);
            TransposeKey(TransposeKey(k, 127), -127).root == G && TransposeKey(k, 0).root == B
  {
    assert I8(138) == -118 && I8(-125) == -125 && I8(11) == 11;
    assert FromSemitone(-118) == (D, None) && FromSemitone(-125) == (G, None);
  }

  // -------------------------------------------------- there and back

  /** All the notes of an element, in reading order. */
  function NotesOf(e: Element): seq<Note>
    decreases e, 1
  {
    match e
    case ANote(n) => [n]
    case AChord(ns, _) => ns
    case Graces(_, ns) => ns
    case ATuplet(_, _, es) => NotesOfAll(es)
    case ASlur(es) => NotesOfAll(es)
    case _ => []
  }

  function NotesOfAll(es: seq<Element>): seq<Note>
    decreases es, 0
  {
    if es == [] then [] else NotesOf(es[0]) + NotesOfAll(es[1..])
  }

  lemma {:induction false} TransposeNotesConcat(xs: seq<Note>, ys: seq<Note>, s: int)
    ensures TransposeNotes(xs + ys, s) == TransposeNotes(xs, s) + TransposeNotes(ys, s)
  {
    if xs == [] {
      assert xs + ys == ys;
    } else {
      assert (xs + ys)[1..] == xs[1..] + ys;
      TransposeNotesConcat(xs[1..], ys, s);
    }
  }

  /** Transposing a tree transposes exactly its notes, in place. */
  lemma {:induction false} NotesOfTransposed(e: Element, s: int)
    ensures NotesOf(TransposeElement(e, s)) == TransposeNotes(NotesOf(e), s)
    decreases e, 1
  {
    match e
    case ANote(n) =>
      assert TransposeNotes([n], s) == [TransposeNote(n, s)] + TransposeNotes([], s);
    case ATuplet(_, _, es) => NotesOfAllTransposed(es, s);
    case ASlur(es) => NotesOfAllTransposed(es, s);
    case _ =>
  }

  lemma {:induction false} NotesOfAllTransposed(es: seq<Element>, s: int)
    ensures NotesOfAll(TransposeElements(es, s)) == TransposeNotes(NotesOfAll(es), s)
    decreases es, 0
  {
    if es != [] {
      NotesOfTransposed(es[0], s);
      NotesOfAllTransposed(es[1..], s);
      TransposeNotesConcat(NotesOf(es[0]), NotesOfAll(es[1..]), s);
      assert TransposeElements(es, s)[1..] == TransposeElements(es[1..], s);
    }
  }

  lemma {:induction false} TransposeNotesAt(ns: seq<Note>, s: int)
    ensures |TransposeNotes(ns, s)| == |ns|
    ensures forall i :: 0 <= i < |ns| ==> TransposeNotes(ns, s)[i] == TransposeNote(ns[i], s)
  {
    if ns != [] {
      TransposeNotesAt(ns[1..], s);
    }
  }

  /** One note is moved by exactly s when its new octave fits in an `i8`. */
  lemma {:induction false} NoteMovesBy(n: Note, s: int)
    ensures Written(TransposeNote(n, s)) == Written(n) + s <==> IsI8((Written(n) + s) / 12)
  {
    WrittenAfter(n, s);
  }

  predicate SamePitches(back: seq<Note>, notes: seq<Note>) {
    |back| == |notes| && forall i :: 0 <= i < |notes| ==> Written(back[i]) == Written(notes[i])
  }

  predicate OctavesFit(notes: seq<Note>) {
    forall i :: 0 <= i < |notes| ==> IsI8(Written(notes[i]) / 12)
  }

  /** s then -s restores every written pitch of a voice body exactly when
      every note's octave, counted from its pitch, fits in an `i8`. */
  lemma {:induction false} ThereAndBack(es: seq<Element>, s: int)
    ensures SamePitches(NotesOfAll(TransposeElements(TransposeElements(es, s), -s)), NotesOfAll(es))
            <==> OctavesFit(NotesOfAll(es))
  {
    ElementsAction(es, s, -s);
    NotesOfAllTransposed(es, 0);
    NotesThereAndBack(NotesOfAll(es));
  }

  lemma {:induction false} NotesThereAndBack(notes: seq<Note>)
    ensures SamePitches(TransposeNotes(notes, 0), notes) <==> OctavesFit(notes)
  {
    TransposeNotesAt(notes, 0);
    forall i | 0 <= i < |notes|
      ensures Written(TransposeNotes(notes, 0)[i]) == Written(notes[i]) <==> IsI8(Written(notes[i]) / 12)
    {
      NoteMovesBy(notes[i], 0);
    }
  }

  // ------------------------------------------------ nothing else moves

  /** The tree with every pitch spelling erased. */
  function Erase(e: Element): Element
    decreases e, 1
  {
    match e
    case ANote(n) => ANote(EraseNote(n))
    case AChord(ns, d) => AChord(EraseNotes(ns), d)
    case ATuplet(p, q, es) => ATuplet(p, q, EraseAll(es))
    case Graces(a, ns) => Graces(a, EraseNotes(ns))
    case ASlur(es) => ASlur(EraseAll(es))
    case _ => e
  }

  function EraseAll(es: seq<Element>): seq<Element>
    decreases es, 0
  {
    if es == [] then [] else [Erase(es[0])] + EraseAll(es[1..])
  }

  function EraseNote(n: Note): Note {
    n.(pitch := C, octave := 0, accidental := None)
  }

  function EraseNotes(ns: seq<Note>): seq<Note> {
    if ns == [] then [] else [EraseNote(ns[0])] + EraseNotes(ns[1..])
  }

  lemma {:induction false} NotesKeepTheRest(ns: seq<Note>, s: int)
    ensures EraseNotes(TransposeNotes(ns, s)) == EraseNotes(ns)
  {
    if ns != [] {
      NotesKeepTheRest(ns[1..], s);
      assert TransposeNotes(ns, s)[1..] == TransposeNotes(ns[1..], s);
    }
  }

  /** Durations, ties, nesting and everything but spellings are untouched. */
  lemma {:induction false} RestIsUntouched(e: Element, s: int)
    ensures Erase(TransposeElement(e, s)) == Erase(e)
    decreases e, 1
  {
    match e
    case AChord(ns, _) => NotesKeepTheRest(ns, s);
    case Graces(_, ns) => NotesKeepTheRest(ns, s);
    case ATuplet(_, _, es) => RestsAreUntouched(es, s);
    case ASlur(es) => RestsAreUntouched(es, s);
    case _ =>
  }

  lemma {:induction false} RestsAreUntouched(es: seq<Element>, s: int)
    ensures EraseAll(TransposeElements(es, s)) == EraseAll(es)
    decreases es, 0
  {
    if es != [] {
      RestIsUntouched(es[0], s);
      RestsAreUntouched(es[1..], s);
      assert TransposeElements(es, s)[1..] == TransposeElements(es[1..], s);
    }
  }

  // ------------------------------------------------- the whole tune moves

  /** The tonic moves by s semitones, round the octave, exactly when the 8-bit sum
      carries a multiple of three times; in particular when it does not carry. */
  lemma {:induction false} KeyMovesBy(k: Key, s: int)
    ensures var k' := TransposeKey(k, s);
            && (KeySemitone(k') % 12 == (KeySemitone(k) + s) % 12 <==> (KeySemitone(k) + s + 128) / 256 % 3 == 0)
            && (IsI8(KeySemitone(k) + s) ==> KeySemitone(k') % 12 == (KeySemitone(k) + s) % 12)
            && k' == k.(root := k'.root, accidental := k'.accidental)
  {
    var x := KeySemitone(k) + s;
    var c := (x + 128) / 256;
    WrapCarry(x);
    SpellingIsRight(I8(x));
    assert I8(x) == x - 256 * c;
    assert c == 3 * (c / 3) + c % 3;
    assert x - 256 * c == x - 256 * (c % 3) - 12 * (64 * (c / 3));
    OctaveShift(x - 256 * (c % 3), 64 * (c / 3));
    CarriesShift(x, c % 3);
  }

  lemma {:induction false} CarriesShift(x: int, c: int)
    requires 0 <= c < 3
    ensures (x - 256 * c) % 12 == x % 12 <==> c == 0
  {
  }

  /** Every note of every voice is the note transposed, whatever it is nested in. */
  lemma {:induction false} EveryNoteMoves(t: Tune, s: int, i: nat)
    requires i < |t.voices|
    ensures var t' := TransposeTune(t, s);
            |t'.voices| == |t.voices|
            && NotesOfAll(t'.voices[i].elements) == TransposeNotes(NotesOfAll(t.voices[i].elements), s)
  {
    VoicesAt(t.voices, s, i);
    NotesOfAllTransposed(t.voices[i].elements, s);
  }

  lemma {:induction false} VoicesAt(vs: seq<Voice>, s: int, i: nat)
    requires i < |vs|
    ensures |TransposeVoices(vs, s)| == |vs|
    ensures TransposeVoices(vs, s)[i] == vs[i].(elements := TransposeElements(vs[i].elements, s))
    decreases |vs|
  {
    if i > 0 {
      VoicesAt(vs[1..], s, i - 1);
    } else {
      VoicesCount(vs[1..], s);
    }
  }

  lemma {:induction false} VoicesCount(vs: seq<Voice>, s: int)
    ensures |TransposeVoices(vs, s)| == |vs|
  {
    if vs != [] {
      VoicesCount(vs[1..], s);
    }
  }
}
