# Kaijutsu: verified models of its hard parts

Kaijutsu is a music and agent environment: a MIDI clock ear, a beat phasor, an
ABC to MIDI compiler, a content-addressed store with a single-flight client
cache, a reconnecting RPC actor, a capture ring, an audio deadline scheduler and
a document cache. This project models those parts in Dafny and proves what each
is for, over every input, every run or every interleaving.

Code that changes fields step by step is a class whose methods are proved equal
to a pure step function; run-level theorems are about that function. A `History`
file tells a component's state after a run from the list of steps alone, without
the step function, and proves that the two agree. Concurrent
code is a state machine of atomic steps. Where a law fails on some inputs, a
lemma gives a failing input and another states exactly when the law holds.

| file | models |
|---|---|
| `ClockIn.dfy`, `ClockReports.dfy` | the MIDI clock estimator; which estimates it gives, told from the marks |
| `Timebase.dfy` | beat references, the local phasor, beat onsets |
| `AbcAst.dfy`, `Transpose.dfy` | the ABC tree and transposition |
| `Repeats.dfy` | slur flattening and the expansion of repeats and endings, as the source does it |
| `RepeatSounds.dfy` | what the expansion sounds, read from left to right |
| `RepeatMeaning.dfy` | what repeats, endings and double bars mean, and when the expansion plays them so |
| `RepeatScores.dfy` | common scores, and failing ones |
| `VoiceRender.dfy` | what each element of a voice plays |
| `VoiceReading.dfy`, `VoiceSounds.dfy`, `TuneReading.dfy` | the pitch and length of a note, the calls of a voice read by looking back at its elements, keys and headers |
| `NoteBalance.dfy`, `NoteSafety.dfy`, `GraceGrid.dfy` | note balance at the end and at every point, and grace timing of a voice |
| `MidiTrack.dfy` | the MIDI writer and the grace run |
| `SingleLoop.dfy`, `MultiLoop.dfy` | the two voice loops, one per compiler |
| `Unfolding.dfy` | second passes and grace timing, from the voice before expansion |
| `Smf.dfy`, `Compile.dfy` | Standard MIDI Files and a reader for them, the two compilers |
| `Resolver.dfy`, `ResolverHistory.dfy` | the single-flight resolver; every call's outcome told from the steps |
| `CasStore.dfy`, `CasRuns.dfy`, `CasFiles.dfy` | the store at the level of file operations, its operations run to their end, and as the program holds them |
| `Actor.dfy`, `ActorHistory.dfy` | the reconnecting actor; its state and notices told from the steps |
| `Capture.dfy`, `CaptureHistory.dfy` | the capture ring, its trackers and the batcher; every cut told from the steps |
| `Scheduler.dfy`, `CueHistory.dfy` | deadlines, the pending queue, flushes; every command's fate told from the steps |
| `DocumentStore.dfy`, `DocumentHistory.dfy` | the LRU document cache; its order and contents told from the steps |

What the proofs found, beside what holds:

- The clock estimator tolerates jitter of exactly one 21st of the period.
- Transposing the key wraps in 8 bits, so +127 then -127 can change the key. A
  release build wraps; a debug build stops instead.
- Flattening leaves a slur inside a tuplet in place and the voice loops skip it.
  The parser never builds one: `try_parse_tuplet` in
  `crates/kaijutsu-abc/src/parser/body.rs` yields no slur group, so only a tree
  made by other code is affected.
- A second `:|` without a `|:` replays everything so far. A double bar is passed
  over by a later `:|` or `|1` without a `|:`, against section 4.8 of ABC v2.1:
  `A || B :|` plays ABAB. Music between `:|` and `|2` is lost. With first and
  second endings present no other repeat is expanded, and third endings are not.
- Octaves beyond 5 or below -15 wrap in 8 bits before the clamp: octave 6 sounds
  the lowest pitch and octave -16 the highest.
- Keys of more than seven signs are played with seven single ones, so their
  scales are not their modes'.
- A chord such as `[C^C]` leaves a note sounding and switches another off twice.
- The tick counter wraps after 2^32 ticks in a release build, and events come out
  of order; a debug build stops.
- A phasor stepped back by a reference can click a beat twice.
- A tempo of 2^24 microseconds per quarter or more is truncated in the file.
- Percussion channel 9 is used by the 25th voice.
- The lock map can keep an entry at rest, because the strong count is checked
  before the guard's own clone is dropped; the comment at
  `crates/kaijutsu-client/src/sftp.rs:215-220` calls the check race-free. Safety
  is not affected.
- Writing through a chunk handle after sealing it, or finalizing a stream after a
  write that failed part-way, tears the object as soon as one byte goes in; the store relies on
  callers not doing so.
- A late close signal of one connection closes the next one, or costs an attempt
  when taken while connecting.
- Beyond 2^31 failed attempts the backoff drops below a second.
- A batch with losses but no events is not shipped, so its loss count is not
  reported, although the field's comment asks for it to be surfaced.
- A cue stamped ahead of the clock is due at now plus its lead, earlier than its
  stamp plus its lead.
- Activating an uncached document breaks the cache bound of eight.

## Model

| member | source | states |
|---|---|---|
| `ClockIn.ClockEstimator.Observe` | crates/kaijutsu-audio/src/clockin.rs:136-165 | every transport or pulse event takes the estimator to exactly the specified next state and emission |
| `ClockIn.ClockEstimator.ObservePulse` | crates/kaijutsu-audio/src/clockin.rs:167-215 | a pulse is classified against the learned period (single, dropout of 2 to 4, stall, burst) and learned from as specified |
| `ClockIn.ClockEstimator.CountPulse` | crates/kaijutsu-audio/src/clockin.rs:217-229 | counting advances only while running and by the pulses read, and the pulse that completes 24 emits (which pulses those are in a run: ClockReports.ReportsOnTheBeat) |
| `ClockIn.ClockEstimator.EmitEstimate` | crates/kaijutsu-audio/src/clockin.rs:231-243 | an estimate is the count in beats, the tempo of the learned period and its residual, or nothing before a period is known |
| `ClockIn.ReadsExactly` | crates/kaijutsu-audio/src/clockin.rs:167-215 | against a period learned to within J, an interval of k true periods (1 to 4) with jitter J at most P/21 reads as exactly k pulses, is no stall, and teaches a value again within J |
| `ClockIn.TickStaysLocked` | crates/kaijutsu-audio/src/clockin.rs:167-229 | a pulse on a locked estimator counts its true number of periods and stays locked |
| `ClockIn.StepStaysLocked` | crates/kaijutsu-audio/src/clockin.rs:136-229 | the same for every event, transport and song position included |
| `ClockIn.EmitsFaithfully` | crates/kaijutsu-audio/src/clockin.rs:231-243 | whatever a locked estimator emits names the true beat and a tempo inside the jitter band |
| `ClockIn.PhaseNeverSlips` | crates/kaijutsu-audio/src/clockin.rs:136-243 | over every run of pulses, dropouts and transport with jitter at most P/21 the count is the true position after each event, no discontinuity is recorded, the period stays in [P-J, P+J] and every estimate is faithful |
| `ClockIn.JitterPastTheBoundSlips` | crates/kaijutsu-audio/src/clockin.rs:167-215 | as soon as 21 J exceeds P there is a two-pulse run that counts 2 where the master counted 5 |
| `ClockIn.JitterTolerance` | crates/kaijutsu-audio/src/clockin.rs:39-56 | no steady run ever slips if and only if 21 J <= P: one 21st is the exact tolerance of the accept and dropout bands |
| `ClockReports.ReportsOnTheBeat` | crates/kaijutsu-audio/src/clockin.rs:136-243 | over every steady run the estimates are exactly those due, computed from the marks alone: at each transport message but a stop, and at exactly the pulses that bring the true periods since the last estimate to 24; each is the true position at the tempo taught so far, stamped with that event's time, with the last interval per period less the period before it as residual |
| `ClockReports.ReportsFromTheStart` | crates/kaijutsu-audio/src/clockin.rs:136-243 | in particular from the first pulse or the first Start |
| `ClockReports.EveryIntervalIsRead` | crates/kaijutsu-audio/src/clockin.rs:167-215 | how any interval at all is read, stated by products: one period, the near multiple of 2 to 4, else one pulse that teaches nothing, a stall exactly beyond four and a half periods |
| `ClockReports.UnreadablePulse` | crates/kaijutsu-audio/src/clockin.rs:167-215 | a pulse that cannot be read counts one while running, leaves the period, and is recorded as a stall exactly beyond four and a half periods |
| `ClockReports.LearnsAConstantTempo` | crates/kaijutsu-audio/src/clockin.rs:39-56 | from any learned period a constant accepted interval is accepted for ever, and each pulse takes a twentieth off the period's error |
| `ClockReports.ErrorHalves` | crates/kaijutsu-audio/src/clockin.rs:39-56 | so the error halves at least every fourteen pulses |
| `Timebase.DisposalMatchesBackdating` | crates/kaijutsu-audio/src/timebase.rs:86-138 | the two readings of a stamp agree: dropped exactly when back-dating refuses, folded at the back-dated instant |
| `Timebase.DisposalByAge` | crates/kaijutsu-audio/src/timebase.rs:86-138 | an unstamped reference is folded as it comes; a stamped one is folded up to one second old, noted up to five, dropped beyond |
| `Timebase.LocalBeat.PositionAt` | crates/kaijutsu-audio/src/timebase.rs:259-262 | the position is the anchor extrapolated at the tempo, never before the anchor |
| `Timebase.LocalBeat.ObserveReference` | crates/kaijutsu-audio/src/timebase.rs:270-287 | a reference adopts the tempo and re-anchors with a dead-banded, clamped proportional step |
| `Timebase.ObservationMeans` | crates/kaijutsu-audio/src/timebase.rs:270-287 | the reported error is how far the reference is ahead, the reported step is what the position moves by at that instant, never away from the reference, past it or beyond the bound, nothing in the deadband; the residual closes a quarter of its distance to the error |
| `Timebase.FreshTakesAFifth` | crates/kaijutsu-audio/src/timebase.rs:200-231 | untuned, up to a fiftieth of a beat is let be, a fifth of anything more is made up at once, never more than a beat |
| `Timebase.FollowErrors` | crates/kaijutsu-audio/src/timebase.rs:259-287 | along in-order references on one line the phase error evolves by the controller alone, and the tempo is the line's |
| `Timebase.PhasorConverges` | crates/kaijutsu-audio/src/timebase.rs:259-287 | from any state, after n references the error has not changed sign or grown, is unchanged if it was inside the deadband, and otherwise has lost n bites of min(max_step, gain*deadband) or is inside |
| `Timebase.CloserMeans` | crates/kaijutsu-audio/src/timebase.rs:270-287 | what that promises: inside the deadband as soon as n bites cover what the initial error has over it |
| `Timebase.DialedInIsLinear` | crates/kaijutsu-audio/src/timebase.rs:259-287 | once inside the deadband, further references on the line leave every later position exactly where free running puts it |
| `Timebase.FoldsAtEmission` | crates/kaijutsu-audio/src/timebase.rs:86-138 | a stamped reference is folded at its emission instant if and only if its receipt is timely |
| `Timebase.DelayIndependence` | crates/kaijutsu-audio/src/timebase.rs:86-138 | any timely delivery of a list of references leaves the phasor that instantaneous delivery would leave |
| `Timebase.BeatOnsetsIn` | crates/kaijutsu-audio/src/timebase.rs:294-308 | the loop lists the beat onsets of a frame |
| `Timebase.OnsetsAreTheIntegers` | crates/kaijutsu-audio/src/timebase.rs:294-308 | the onsets of (prev, cur] are exactly the integers in it |
| `Timebase.EveryBeatOnce` | crates/kaijutsu-audio/src/timebase.rs:290-308 | over any number of frames of a position that does not run backwards every beat is clicked exactly once, in order |
| `Timebase.FramesNeverGoBack` | crates/kaijutsu-audio/src/timebase.rs:259-287 | over any run of frames and references the phasor's own positions never go back if and only if by each frame the beats run since the last one make up for the steps back |
| `Timebase.NeverAheadMakesUp` | crates/kaijutsu-audio/src/timebase.rs:270-287 | they do when no reference finds the phasor ahead by more than the deadband and no tempo is negative |
| `Timebase.PhasorClicksOnce` | crates/kaijutsu-audio/src/timebase.rs:259-308 | then every beat is clicked exactly once |
| `Timebase.StepBackExample` | crates/kaijutsu-audio/src/timebase.rs:270-308 | a step back from 1.1 to 0.88 clicks beat 1 twice |
| `Transpose.SpellingIsRight` | crates/kaijutsu-abc/src/ast.rs:186-202 | the spelling chosen for a semitone class sounds that class |
| `Transpose.NoteAction` | crates/kaijutsu-abc/src/lib.rs:160-173 | a note transposed by a then b is the note transposed by a+b, octave wrap included |
| `Transpose.ElementAction` | crates/kaijutsu-abc/src/lib.rs:133-158 | the same through arbitrarily nested tuplets, slurs, chords and grace groups |
| `Transpose.KeyAction` | crates/kaijutsu-abc/src/lib.rs:110-121 | the key after a then b is the key after a+b if and only if the carries of its 8-bit sums cancel |
| `Transpose.KeyMovesBy` | crates/kaijutsu-abc/src/lib.rs:110-121 | the tonic moves by s semitones, round the octave, if and only if the 8-bit sum carries a multiple of three times; nothing else of the key moves |
| `Transpose.NoOverflowNoCarry` | crates/kaijutsu-abc/src/lib.rs:110-121 | they cancel whenever no sum leaves the 8-bit range |
| `Transpose.TuneAction` | crates/kaijutsu-abc/src/lib.rs:107-131 | a whole tune transposed by a then b is the tune transposed by a+b if and only if the key's carries cancel |
| `Transpose.OverflowBreaksTheAction` | crates/kaijutsu-abc/src/lib.rs:110-121 | +127 then -127 turns B major into G major |
| `Transpose.NoteMovesBy` | crates/kaijutsu-abc/src/lib.rs:160-173 | a note's written pitch moves by exactly s if and only if its new octave fits in 8 bits |
| `Transpose.EveryNoteMoves` | crates/kaijutsu-abc/src/lib.rs:107-158 | the notes of every voice, read through any nesting, are the notes before, each transposed |
| `Transpose.ThereAndBack` | crates/kaijutsu-abc/src/lib.rs:107-173 | s then -s restores every written pitch of a body if and only if each note's octave, counted from its pitch, fits in 8 bits |
| `Transpose.RestsAreUntouched` | crates/kaijutsu-abc/src/lib.rs:133-158 | durations, ties, nesting and everything but spelling survive transposition |
| `Repeats.FlattenIsStrip` | crates/kaijutsu-abc/src/midi.rs:72-86 | flattening yields what removing every slur would if and only if no slur sits inside a tuplet |
| `Repeats.SlurInTripletStays` | crates/kaijutsu-abc/src/midi.rs:72-86 | a slur inside a triplet keeps its bracket, which the voice loops do not play |
| `Repeats.ExpandLoop` | crates/kaijutsu-abc/src/midi.rs:148-208 | the expansion loop, copying from its own growing output by index, computes the specified expansion |
| `Repeats.ExpandVoice` | crates/kaijutsu-abc/src/midi.rs:89-208 | the whole function, endings or loop, computes the specified expansion; both compilers call it |
| `RepeatMeaning.RepeatsKeepMeaning` | crates/kaijutsu-abc/src/midi.rs:146-208 | without ending markers the expansion sounds the performance of the signs (sections 4.8 to 4.10 of ABC v2.1, double bars included) if and only if every closing sign's section has a known start, and it never sounds less |
| `RepeatSounds.CutIsSearch` | crates/kaijutsu-abc/src/midi.rs:89-144 | one left-to-right reading cuts a voice into prefix, common part, endings and tail exactly where the source's searches do, or fails as they do |
| `RepeatMeaning.ProgramSounds` | crates/kaijutsu-abc/src/midi.rs:89-208 | for every voice the sounding output is what a tape gives that is wound by the signs, or cut at the endings |
| `RepeatMeaning.PlayableIsAsWritten` | crates/kaijutsu-abc/src/midi.rs:89-208 | a voice with playable signs sounds as an independent reading of its repeats, endings and double bars performs it, whatever music stands between the signs |
| `RepeatMeaning.VoicedExact` | crates/kaijutsu-abc/src/midi.rs:89-208 | when something sounds between any two signs (a closing sign and its later ending aside) and no two sounding elements are equal, a voice is played as written if and only if its signs are playable |
| `RepeatMeaning.PlayedAsWrittenExactly` | crates/kaijutsu-abc/src/midi.rs:89-208 | for every voice at all: everything written with its signs is played as written if and only if its signs are playable |
| `RepeatScores.SectionsTwiceOrOnce` | crates/kaijutsu-abc/src/midi.rs:89-208 | for any list of plain and repeated sections each repeated section sounds twice and everything else once |
| `RepeatScores.SecondCloseReplaysAll` | crates/kaijutsu-abc/src/midi.rs:164-182 | a second `:\|` without its own `\|:` replays the whole output so far: A :\| B :\| plays AABAAB, written AABB |
| `RepeatScores.DoubleBarIsPassed` | crates/kaijutsu-abc/src/midi.rs:164-182 | A \|\| B :\| plays ABAB, where section 4.8 goes back to the double bar: ABB; the same for `\|]` and `[\|` |
| `RepeatScores.DoubleBarIsPassedByEndings` | crates/kaijutsu-abc/src/midi.rs:101-144 | A \|\| B \|1 C \|2 D plays ABCABD, written ABCBD |
| `RepeatScores.EndedSectionPlays` | crates/kaijutsu-abc/src/midi.rs:96-162 | common \|1 first :\|2 second, with or without an opening sign, plays common, first, common, second |
| `RepeatScores.MusicBeforeSecondEndingIsLost` | crates/kaijutsu-abc/src/midi.rs:112-144 | \|: A \|1 B :\| X \|2 C plays ABAC: music between the closing sign and the second ending is not played |
| `GraceGrid.StealsWithinPrincipal` | crates/kaijutsu-abc/src/midi.rs:48-70 | a grace run steals no more than its principal has if and only if it has no more notes than the principal has ticks |
| `GraceGrid.GraceDelayLaw` | crates/kaijutsu-abc/src/midi.rs:284-510 | graces delay the end of any stretch by exactly the sum of the overruns |
| `GraceGrid.GracesKeepTheGrid` | crates/kaijutsu-abc/src/midi.rs:304-442 | deleting all grace groups from a stream of elements leaves the time at its end unchanged if and only if every run fits its principal (section 4.12 of ABC v2.1) |
| `GraceGrid.EveryElementOnTheGrid` | crates/kaijutsu-abc/src/midi.rs:284-505 | the end of every element keeps its tick under the same condition |
| `Unfolding.ExpansionDrops` | crates/kaijutsu-abc/src/midi.rs:89-208 | expanding repeats and endings commutes with deleting graces |
| `Unfolding.VoiceKeepsTheGrid` | crates/kaijutsu-abc/src/midi.rs:270-510 | the same from the voice as parsed: with graces deleted before flattening and expansion, the end and every element's end keep their ticks if and only if every run fits |
| `NoteBalance.BalanceLaw` | crates/kaijutsu-abc/src/midi.rs:284-510 | after any elements, note-ons less note-offs at a pitch is 1 if a tie holds it, else 0, less what was held before, plus exactly what chords left behind |
| `NoteBalance.ChordBalancesExactly` | crates/kaijutsu-abc/src/midi.rs:376-404 | a chord switches every pitch off as often as on if and only if its unmarked notes have the same pitches, as a multiset, before and after the chord's own accidentals |
| `NoteBalance.ElementBalancesExactly` | crates/kaijutsu-abc/src/midi.rs:284-505 | the same for every element, tuplets included |
| `NoteBalance.SpelledMatches` | crates/kaijutsu-abc/src/midi.rs:376-404 | a chord's offs are pairwise its ons if and only if no unmarked note is re-marked later in the chord to another pitch |
| `NoteBalance.SpelledIsEven` | crates/kaijutsu-abc/src/midi.rs:376-404 | such a chord balances |
| `NoteBalance.TradedPitchesBalance` | crates/kaijutsu-abc/src/midi.rs:376-404 | a chord whose letters trade pitches balances without being so spelled |
| `NoteSafety.NeverBelowExactly` | crates/kaijutsu-abc/src/midi.rs:284-505 | over any elements, started from any safe state, no prefix switches a pitch off more often than on if and only if after every element, and every inner element of a tuplet, held plus unmarked chord ons so far is at least the unmarked offs so far, at every pitch |
| `NoteSafety.FlushedNeverBelow` | crates/kaijutsu-abc/src/midi.rs:284-510 | with the final flush: if and only if that holds and all unmarked offs together are among the ons |
| `NoteSafety.EvenVoiceIsSafe` | crates/kaijutsu-abc/src/midi.rs:284-505 | balancing chords are always safe, and leave nothing behind |
| `NoteBalance.VoiceEndsBalanced` | crates/kaijutsu-abc/src/midi.rs:284-510 | a voice with its flush balances every pitch if and only if the unmarked chord notes of the whole voice have equal pitch multisets before and after their chords |
| `NoteBalance.UnevenChordHangs` | crates/kaijutsu-abc/src/midi.rs:376-404 | the chord [C^C] leaves C sounding and silences C sharp twice |
| `VoiceReading.SoundsAsWritten` | crates/kaijutsu-abc/src/midi.rs:788-818 | for octaves -15 to 5 a note sounds its written pitch, 60 for C in octave 0, under the accidental in effect (its own, else the bar's or key's, else its tie's), clamped, moved by the voice's offset, and clamped again |
| `VoiceReading.NaturalIsDefault` | crates/kaijutsu-abc/src/midi.rs:788-818 | an unmarked note is a natural one where no accidental is in effect |
| `VoiceReading.ClampIsNearest` | crates/kaijutsu-abc/src/midi.rs:32-34 | clamping gives the nearest MIDI pitch |
| `VoiceReading.TransposedSounds` | crates/kaijutsu-abc/src/midi.rs:800-818 | a note transposed by s, where no accidental but its own is in effect, sounds s semitones away while both stay in range |
| `VoiceReading.OctavesExactly` | crates/kaijutsu-abc/src/midi.rs:811-818 | before the voice's offset the pitch sounded is the written one if and only if the octave is in -15 to 5, or the wrapped product falls off the same end of the MIDI range |
| `VoiceReading.FarOctavesWrap` | crates/kaijutsu-abc/src/midi.rs:811-818 | just outside those octaves the eight-bit product wraps: octave 6 sounds the lowest pitch and octave -16 the highest ones |
| `VoiceReading.LengthMeans` | crates/kaijutsu-abc/src/ast.rs:539-541 | a duration is the whole number of ticks in its fraction of a unit while the product fits 32 bits |
| `VoiceReading.UnitMeans` | crates/kaijutsu-abc/src/midi.rs:908-914 | the unit is its fraction of four quarters in whole ticks |
| `VoiceReading.BarMeans` | crates/kaijutsu-abc/src/midi.rs:901-906 | a bar is its meter's fraction of a whole note, a whole note without one |
| `VoiceReading.TupletMeans` | crates/kaijutsu-abc/src/midi.rs:444-499 | inside a p:q tuplet everything lasts q p-ths of its length |
| `VoiceReading.LengthIsExact` | crates/kaijutsu-abc/src/midi.rs:908-914 | where nothing is rounded a note lasts exactly its fraction of a whole note |
| `VoiceReading.GraceMeans` | crates/kaijutsu-abc/src/midi.rs:48-70 | a grace note lasts an eighth of a unit, all of them together at most half the principal, each at least a tick |
| `VoiceSounds.VoiceIsRead` | crates/kaijutsu-abc/src/midi.rs:284-505 | over any elements in those octaves the calls made are what looking back at the elements says: each note, chord note, tuplet note and grace at its written pitch under the last accidental on its letter since the bar line, else the key in force, else its tie's; each for its length under the unit and meter in force, less what its graces take; and the whole voice state is what looking back says |
| `TuneReading.PartIsRead` | crates/kaijutsu-abc/src/midi.rs:246-295 | the same for a voice of a tune from the header's key, unit and meter, followed by the end of every pitch still tied, once each |
| `MidiTrack.MidiWriter.Push` | crates/kaijutsu-abc/src/midi.rs:1005-1025 | a message is appended at the current tick |
| `MidiTrack.CallsBecomeEvents` | crates/kaijutsu-abc/src/midi.rs:968-1025 | each note call is one event, in its place, at the sum of the waits before it, on the channel and with the velocity asked for, and nothing else is written |
| `MidiTrack.TempoMeaning` | crates/kaijutsu-abc/src/midi.rs:950-966 | the value sent is the whole number of microseconds in one quarter of the beat's tempo, never too long and less than one microsecond short; 500000 for a tempo of zero |
| `MidiTrack.PlayGraceRun` | crates/kaijutsu-abc/src/midi.rs:48-70 | the grace loop plays the buffered run and returns the ticks it took |
| `SingleLoop.SingleVoice.PlayNote` | crates/kaijutsu-abc/src/midi.rs:297-354 | single-track loop: a note's arm makes exactly the performed writer calls on the loop's channel and leaves the performed voice state |
| `SingleLoop.SingleVoice.PlayChord` | crates/kaijutsu-abc/src/midi.rs:356-405 | single-track loop: the chord arm likewise; its offs are resolved after its own accidentals |
| `SingleLoop.SingleVoice.PlayTuplet` | crates/kaijutsu-abc/src/midi.rs:444-499 | single-track loop: the tuplet arm likewise |
| `SingleLoop.SingleVoice.PlayElement` | crates/kaijutsu-abc/src/midi.rs:284-505 | single-track loop: every arm likewise |
| `SingleLoop.SingleVoice.PlayVoice` | crates/kaijutsu-abc/src/midi.rs:284-510 | single-track loop: a whole voice writes what its elements perform and then flushes each held pitch once |
| `MultiLoop.OwnVoice.PlayNote` | crates/kaijutsu-abc/src/midi.rs:570-617 | per-voice-track loop: a note's arm makes exactly the performed writer calls on the loop's channel and leaves the performed voice state |
| `MultiLoop.OwnVoice.PlayChord` | crates/kaijutsu-abc/src/midi.rs:619-659 | per-voice-track loop: the chord arm likewise; its offs are resolved after its own accidentals |
| `MultiLoop.OwnVoice.PlayTuplet` | crates/kaijutsu-abc/src/midi.rs:693-750 | per-voice-track loop: the tuplet arm likewise |
| `MultiLoop.OwnVoice.PlayElement` | crates/kaijutsu-abc/src/midi.rs:570-755 | per-voice-track loop: every arm likewise |
| `MultiLoop.OwnVoice.PlayVoice` | crates/kaijutsu-abc/src/midi.rs:555-761 | per-voice-track loop: a whole voice writes what its elements perform and then flushes each held pitch once |
| `MidiTrack.PlayedElsewhere` | crates/kaijutsu-abc/src/midi.rs:270-763 | playing on another channel from a later tick gives the same messages with only channel and tick offset changed |
| `Unfolding.SecondPassIsShifted` | crates/kaijutsu-abc/src/midi.rs:101-208 | whatever a voice plays twice, the common part of an ended repeat or what any closing sign (`:\|` or `::`, with a `\|:` or without) goes back over, the second pass plays the first pass's events later by the length of the stretch and of what stands between, whenever the voice state is the same at the two entries |
| `Unfolding.WrittenTwice` | crates/kaijutsu-abc/src/midi.rs:101-208 | the expansion writes each such stretch twice, the first ending or the closing sign between |
| `Unfolding.EndingsEnteredAtBars` | crates/kaijutsu-abc/src/midi.rs:101-144 | what the expansion of an ended repeat is, element for element, and that each ending is entered with the key's accidentals alone |
| `Unfolding.OpenedSectionPlaysTwice` | crates/kaijutsu-abc/src/midi.rs:159-199 | such a stretch is the body of any \|: body :\| or \|: body :: without inner signs |
| `Unfolding.FirstSectionPlaysTwice` | crates/kaijutsu-abc/src/midi.rs:164-199 | and the body of body :\| or body :: at the start of a voice |
| `Unfolding.NothingBetween` | crates/kaijutsu-abc/src/midi.rs:164-199 | between the passes of a closing sign no call is made, so the shift is the length of the stretch |
| `Unfolding.OrdinarySectionsQualify` | crates/kaijutsu-abc/src/midi.rs:284-505 | the state is the same at both entries when nothing is tied or pending at the first and neither the stretch nor what stands between has ties, graces or inline fields; accidentals may change, as the bar lines clear them |
| `MidiTrack.PlayedInOrder` | crates/kaijutsu-abc/src/midi.rs:1005-1025 | events are appended in non-decreasing tick order |
| `Smf.EncodeVariableLength` | crates/kaijutsu-abc/src/midi.rs:1070-1086 | the encoding loop yields the base-128 form, continuation bits on all but the last byte |
| `Smf.VlqRoundTrip` | crates/kaijutsu-abc/src/midi.rs:1070-1086 | a four-byte reader gets the value back exactly below 2^28 and fails above |
| `Smf.MessageRoundTrip` | crates/kaijutsu-abc/src/midi.rs:950-1025 | each message reads back whole, except a note-on with velocity 128 or more |
| `Smf.TempoFitsThreeBytes` | crates/kaijutsu-abc/src/midi.rs:950-966 | the three tempo bytes hold the value if and only if it is below 2^24 |
| `Smf.SlowTempoIsTruncated` | crates/kaijutsu-abc/src/midi.rs:950-966 | three quarters a minute is written as 3222784 microseconds instead of 20000000 |
| `Smf.EncodeTrack` | crates/kaijutsu-abc/src/midi.rs:1052-1067 | the track loop writes saturating deltas, messages and the end-of-track event |
| `Smf.TrackRoundTrip` | crates/kaijutsu-abc/src/midi.rs:1052-1067 | a reader of the event syntax of Standard MIDI Files 1.0 recovers exactly every (tick, message) pair if and only if ticks do not go back, gaps are below 2^28 and velocities below 128 |
| `Smf.ExpectedAt` | crates/kaijutsu-abc/src/midi.rs:1052-1067 | the list it recovers pairs each event's tick with its message bytes, one for one |
| `Smf.FileRoundTrip` | crates/kaijutsu-abc/src/midi.rs:1027-1050 | format, division and every track come back from the header and track chunks |
| `Smf.SortIsIdentity` | crates/kaijutsu-abc/src/midi.rs:1027-1029 | sorting events already in tick order changes nothing |
| `Compile.ComputeKeyAccidentals` | crates/kaijutsu-abc/src/midi.rs:845-895 | the loops put the circle-of-fifths signature and then the explicit accidentals in the map |
| `TuneReading.KeySpellsItsScale` | crates/kaijutsu-abc/src/midi.rs:845-895 | a key signature spells its mode's scale, every degree above the tonic the mode's step away, if and only if the key has at most seven signs |
| `TuneReading.ExplicitsOverride` | crates/kaijutsu-abc/src/midi.rs:845-895 | an explicit accidental of the key field overrides the signature on its letter, the last one of several |
| `TuneReading.OthersKeepTheirs` | crates/kaijutsu-abc/src/midi.rs:845-895 | letters without one keep the signature's |
| `TuneReading.KeyMovesPitch` | crates/kaijutsu-abc/src/midi.rs:38-44 | the key field's transpose and octave move every voice by semitones and by twelves |
| `TuneReading.MidiTransposeMovesPitch` | crates/kaijutsu-abc/src/midi.rs:271-275 | so does the MIDI transpose directive |
| `TuneReading.VoiceMovesPitch` | crates/kaijutsu-abc/src/midi.rs:11-30 | a voice definition's transpose and octave move the voice of its id and no other |
| `TuneReading.FirstDefinitionCounts` | crates/kaijutsu-abc/src/midi.rs:11-30 | the first definition of an id counts, whatever follows |
| `TuneReading.NothingMovesPitch` | crates/kaijutsu-abc/src/midi.rs:271-275 | without any of these a voice sounds as written |
| `TuneReading.UnitIsHeaders` | crates/kaijutsu-abc/src/midi.rs:265-267 | the unit is the header's fraction of a whole note, an eighth by default |
| `TuneReading.TempoIsHeaders` | crates/kaijutsu-abc/src/midi.rs:246-254 | every file starts at tick 0 with the header's tempo, a beat of it lasting 60 seconds over its rate, 120 quarters a minute by default |
| `TuneReading.ProgramIsHeaders` | crates/kaijutsu-abc/src/midi.rs:256-260 | a track names its program first: the header's, else the parameters', else none |
| `Compile.ChannelOf` | crates/kaijutsu-abc/src/midi.rs:543-549 | voice channels are below 16 and avoid 9 except from the 25th voice on, every 16th |
| `Compile.ChannelsInTurn` | crates/kaijutsu-abc/src/midi.rs:543-549 | voices take the channels in turn from 0, stepping over 9 the first time round, so the first fifteen voices each have their own |
| `Compile.EmptyVoiceIsSilent` | crates/kaijutsu-abc/src/midi.rs:533-538 | a voice without elements makes no writer call, so skipping its track loses nothing |
| `Compile.TwoCompilersAgree` | crates/kaijutsu-abc/src/midi.rs:246-763 | whatever hash-map orders the two loops met, the single track is the voice tracks' notes end to end with only channel and a constant tick offset changed, up to the order of each voice's final note-offs |
| `Compile.VoicesAgree` | crates/kaijutsu-abc/src/midi.rs:284-761 | the same for one voice, started at any tick |
| `Compile.FlushOrderOnlyPermutes` | crates/kaijutsu-abc/src/midi.rs:506-509 | two hash-map orders give the same calls up to the final note-offs, which are permuted |
| `Compile.PartInRange` | crates/kaijutsu-abc/src/midi.rs:32-34 | whatever the tune, every pitch sent is a MIDI pitch |
| `Compile.SingleTrackInOrder` | crates/kaijutsu-abc/src/midi.rs:246-512 | with a tick counter that does not wrap, single-track events come out in tick order, so the sort in the file writer is the identity |
| `Compile.TickCounterSuffices` | crates/kaijutsu-abc/src/midi.rs:1001-1003 | the 32-bit counter gives the same events if and only if every tick is below 2^32, as in any tune shorter than that |
| `MidiTrack.CounterIsExact` | crates/kaijutsu-abc/src/midi.rs:1001-1003 | the same for any list of writer calls |
| `MidiTrack.LongTrackGoesBack` | crates/kaijutsu-abc/src/midi.rs:1001-1003 | a track of 2^32 ticks whose last event comes out at tick 0 |
| `Compile.OwnTrackBalances` | crates/kaijutsu-abc/src/midi.rs:533-763 | a voice's own track, flush included, ends silent if and only if the voice's chord pitches match, and has no prefix below zero if and only if the voice is safe |
| `Compile.SingleTrackBalances` | crates/kaijutsu-abc/src/midi.rs:246-512 | the same two exact laws for the one track of all voices, each starting from what the ones before it left sounding |
| `Compile.EvenTuneIsSafe` | crates/kaijutsu-abc/src/midi.rs:246-763 | a tune of balancing chords meets both |
| `Compile.GeneratedFileReads` | crates/kaijutsu-abc/src/midi.rs:210-228 | reading the file of any tune gives format, division and all tracks, and each track's events exactly if and only if gaps are below 2^28 and velocities below 128 |
| `Compile.BuildSingleTrack` | crates/kaijutsu-abc/src/midi.rs:246-512 | the single-track method writes the specified end-to-end track |
| `Compile.BuildMultiTrack` | crates/kaijutsu-abc/src/midi.rs:515-763 | the multi-track method encodes a tempo track and one track per voice with elements |
| `Compile.Generate` | crates/kaijutsu-abc/src/midi.rs:210-228 | the bytes are the format 1 file for more than one filled voice and else the format 0 file |
| `Resolver.CasResolver.LookUp` | crates/kaijutsu-client/src/sftp.rs:270-274 | the cache lookup, outside and inside the lock, moves the call as specified |
| `Resolver.CasResolver.EnterFlight` | crates/kaijutsu-client/src/sftp.rs:276-284 | the hash's lock is taken or created and cloned in one step |
| `Resolver.CasResolver.Verify` | crates/kaijutsu-client/src/sftp.rs:313-321 | fetched bytes are kept only if they hash to the request |
| `Resolver.CasResolver.StoreObject` | crates/kaijutsu-client/src/sftp.rs:323-327 | verified bytes are cached and returned as fetched |
| `Resolver.CasResolver.PruneEntry` | crates/kaijutsu-client/src/sftp.rs:227-237 | the guard removes the entry exactly when it sees at most two strong references |
| `Resolver.CasResolver.DropClone` | crates/kaijutsu-client/src/sftp.rs:221-237 | dropping the guard's clone lowers the strong count by one |
| `Resolver.LastOneOut` | crates/kaijutsu-client/src/sftp.rs:215-237 | a strong count of at most two means no other flight has the lock |
| `Resolver.LocksKept` | crates/kaijutsu-client/src/sftp.rs:221-300 | every step keeps the table invariant: shared lock, counts equal to clones plus entry, one owner inside, every entry tended |
| `Resolver.SingleFlight` | crates/kaijutsu-client/src/sftp.rs:221-327 | in every interleaving, cancelled and failing calls included: live flights of a hash share the map's lock, at most one fetch per hash is in progress, at most one is stored since the last removal, and every Ok carries bytes of the requested hash |
| `Resolver.OneFetchBetweenRemovals` | crates/kaijutsu-client/src/sftp.rs:304-327 | along any run without a removal of h at most one fetch of h is ever stored |
| `ResolverHistory.EveryCallIsTold` | crates/kaijutsu-client/src/sftp.rs:221-327 | over every run, from the steps alone: the cache is what was put or stored and not removed since, and each call stands where its own steps took it with the outcome they decided, a hit with the cached bytes, the bytes of its matching fetch once stored, failed, or cancelled |
| `Resolver.LeftAtRest` | crates/kaijutsu-client/src/sftp.rs:227-237 | when all calls are done the map holds exactly the hashes whose last strong-count check overlapped another flight's pending drop |
| `Resolver.EmptyAtRest` | crates/kaijutsu-client/src/sftp.rs:227-237 | with check and drop as one step the map is empty at rest |
| `Resolver.CheckThenDropLeaks` | crates/kaijutsu-client/src/sftp.rs:227-237 | a run of two cancelled calls that check before either drops leaves the entry behind |
| `CasStore.QuietKeeps` | crates/kaijutsu-cas/src/store.rs:144-176 | a step that appends only to its own file and renames only whole files leaves every other operation undisturbed |
| `CasStore.TornExactly` | crates/kaijutsu-cas/src/store.rs:144-438 | under every interleaving, cut short anywhere, with late writes through kept handles and failed stream writes, gone on with or not, as steps: an object file hashes to its path if and only if no step put an unhashed byte into it, and a retrieve is right if and only if it read no such file |
| `CasStore.CleanExactly` | crates/kaijutsu-cas/src/store.rs:244-385 | no file has such a byte if and only if every late write is empty and every finalized stream has only bytes its digest covers |
| `CasStore.NothingTorn` | crates/kaijutsu-cas/src/store.rs:144-438 | under every interleaving of store, seal, streaming finalize, remove, sweep and retrieve, stopped anywhere and through the cross-device branch, with callers that put in no such byte: every object file hashes to its path and every retrieve gives nothing or bytes of its hash, collisions not excluded |
| `CasStore.WriteAfterSealTears` | crates/kaijutsu-cas/src/store.rs:244-274 | storing by chunks, sealing, and writing any non-empty chunk through the kept handle tears the object |
| `CasRuns.StoreCompletes` | crates/kaijutsu-cas/src/store.rs:403-425 | a store of a new object run to its end, in any state, by rename or by copy, leaves exactly its bytes under its hash and every other path as it was |
| `CasRuns.StoreOfPresent` | crates/kaijutsu-cas/src/store.rs:403-425 | a store of an object that is there does nothing |
| `CasRuns.StreamCompletes` | crates/kaijutsu-cas/src/store.rs:342-385 | a stream of any chunks, finalized, is there under the hash of the whole |
| `CasRuns.SealCompletes` | crates/kaijutsu-cas/src/store.rs:244-274 | chunks staged and sealed are there under the hash of the whole, the handle left open |
| `CasRuns.AbandonedStreamLeavesNothing` | crates/kaijutsu-cas/src/store.rs:387-400 | a stream given up after any chunks leaves every path as it was |
| `CasRuns.FailedStoreLeavesNothing` | crates/kaijutsu-cas/src/store.rs:403-425 | so does a store whose write fails after any number of bytes |
| `CasRuns.RetrieveCompletes` | crates/kaijutsu-cas/src/store.rs:427-438 | a retrieve run to its end gives exactly the bytes in the slot |
| `CasRuns.RetrieveOfAbsent` | crates/kaijutsu-cas/src/store.rs:427-438 | a retrieve of an absent object gives nothing |
| `CasRuns.RemoveCompletes` | crates/kaijutsu-cas/src/store.rs:481-505 | a remove run to its end empties its slot and no other |
| `CasFiles.PlaceObject` | crates/kaijutsu-cas/src/store.rs:144-176 | rename and cross-device copy leave the same paths: the staging file gone and the slot filled unless it was taken |
| `CasFiles.StoreBytes` | crates/kaijutsu-cas/src/store.rs:403-425 | storing adds the object under its hash unless present and leaves every other path alone |
| `CasFiles.StoreThenRetrieve` | crates/kaijutsu-cas/src/store.rs:403-438 | what is read back after a store has the stored bytes' hash, and is those bytes if nothing else has that hash; no other object changes |
| `CasFiles.Retrieve` | crates/kaijutsu-cas/src/store.rs:427-438 | a retrieve gives the bytes at the object path, or nothing |
| `CasFiles.RemoveObject` | crates/kaijutsu-cas/src/store.rs:481-505 | a remove reports presence and drops exactly that object |
| `CasFiles.StreamingWriter.Write` | crates/kaijutsu-cas/src/store.rs:342-347 | a chunk lands in the staging file, the digest and the byte count; a closed writer refuses |
| `CasFiles.StreamingWriter.Finalize` | crates/kaijutsu-cas/src/store.rs:357-385 | everything streamed is placed under the hash of the whole, with its size; when a file operation fails every path stays and the writer counts as unfinished |
| `CasFiles.StreamingWriter.Drop` | crates/kaijutsu-cas/src/store.rs:387-400 | an unfinished writer leaves no staging file |
| `Actor.RpcActor.DialAttempt` | crates/kaijutsu-client/src/actor.rs:1744-1765 | connecting sets the attempt, a handshake task and a status |
| `Actor.RpcActor.ConnectionUp` | crates/kaijutsu-client/src/actor.rs:1767-1840 | entering Connected binds the kernel, connection and pinger and announces a reconnect when one was bound before |
| `Actor.RpcActor.BeginClosing` | crates/kaijutsu-client/src/actor.rs:1843-1872 | closing drops connection, pinger and handshake and carries the attempt |
| `Actor.RpcActor.EndClosing` | crates/kaijutsu-client/src/actor.rs:1875-1908 | closing ends in Terminal for a shutdown and else in a cooldown for the next attempt |
| `Actor.RpcActor.ConnectResult` | crates/kaijutsu-client/src/actor.rs:1911-1946 | a handshake result connects, cools down for the next attempt, ends for good, or is ignored off-state (what follows over a run: ActorHistory.TerminalExactly and RefusedForNowCoolsDown) |
| `Actor.RpcActor.Turn` | crates/kaijutsu-client/src/actor.rs:2170-2339 | one turn of the loop takes its arm and keeps the invariant, so no expect in it fails |
| `Actor.ResourcesInEveryRun` | crates/kaijutsu-client/src/actor.rs:1705-2339 | in every run no expect fails, the connection and pinger exist exactly in Connected, the handshake exactly in Connecting, the bound kernel from the first Connected on, the published status is the state, and sent commands are those handled once, in order, and those queued |
| `Actor.ReconnectedExactly` | crates/kaijutsu-client/src/actor.rs:1767-1840 | Reconnected is announced before exactly the second and later entries to Connected |
| `Actor.AttemptLaw` | crates/kaijutsu-client/src/actor.rs:1843-1946 | in every run the attempt made is 1 plus the failed attempts since the start or the last Connected, cooldowns are timed for it, and no attempt starts before its cooldown is over |
| `ActorHistory.EveryRunIsTold` | crates/kaijutsu-client/src/actor.rs:1744-2339 | over every run the actor is what the steps alone say: its state, every notice published in order, the close slot, the bound kernel, the joined context, every command sent and the fate of every command taken |
| `ActorHistory.TerminalExactly` | crates/kaijutsu-client/src/actor.rs:1911-1946 | over every run the actor is terminal if and only if a handshake was refused for good, or a hang-up was seen and a later closing finished |
| `ActorHistory.RefusedForNowCoolsDown` | crates/kaijutsu-client/src/actor.rs:1911-1946 | a handshake refused for now, or out of time, is followed at once by a published cooldown for the next attempt, counted from the steps, and by nothing else |
| `ActorHistory.TimesAreKept` | crates/kaijutsu-client/src/actor.rs:2216-2260 | an attempt runs out of time no sooner than 25 seconds after it began, and the next begins no sooner than its cooldown ends |
| `ActorHistory.ReturnsExactly` | crates/kaijutsu-client/src/actor.rs:2322-2333 | the loop returns if and only if the last handle is seen gone after the actor has ended |
| `Actor.BackoffFormula` | crates/kaijutsu-client/src/actor.rs:3012-3017 | the wait before attempt n is min(30, 2^(n-1)) seconds if and only if n <= 2^31 |
| `Actor.CooldownsNeverShrink` | crates/kaijutsu-client/src/actor.rs:1875-1946 | along a failure streak cooldowns never shrink |
| `Actor.TerminalAbsorbs` | crates/kaijutsu-client/src/actor.rs:2322-2333 | once terminal, nothing more is published and every later command is rejected |
| `Actor.CloseComesFirst` | crates/kaijutsu-client/src/actor.rs:2288-2314 | in Connected a waiting close signal is the only thing the loop can act on, and commands are dispatched only without one |
| `Actor.WhoseSignal` | crates/kaijutsu-client/src/actor.rs:1843-1872 | over every run: the signal waiting in Connected is the current connection's if and only if the slot was empty when that connection began and no older connection's signal was accepted since |
| `Actor.StaleSignalCostsAnAttempt` | crates/kaijutsu-client/src/actor.rs:2216-2260 | a signal taken in Connecting belongs to no live connection and counts as one more failed attempt, with its longer cooldown |
| `Actor.LateSignalClosesNext` | crates/kaijutsu-client/src/actor.rs:1843-1872 | a failing run: from any connected actor, a second signal of a dropped connection closes the next connection, because the slot is not drained |
| `Capture.CaptureRing.Push` | crates/kaijutsu-audio/src/capture.rs:187-193 | the buffer stays the newest part of the log that fits |
| `Capture.CaptureRing.TrackerAt` | crates/kaijutsu-audio/src/capture.rs:198-203 | a new tracker starts at the head of the log |
| `Capture.CaptureRing.Cut` | crates/kaijutsu-audio/src/capture.rs:213-237 | the bounded ring cuts exactly what the full log would give at this capacity |
| `Capture.CutMeaning` | crates/kaijutsu-audio/src/capture.rs:205-237 | a cut delivers the unconsumed events up to the first late stamp, all before the window's end, and skips exactly what was overwritten; nothing is lost if and only if the backlog fits |
| `Capture.RingRefinesLog` | crates/kaijutsu-audio/src/capture.rs:187-237 | over any interleaving each tracker's batches are in-order disjoint slices of the log of all pushes, delivered plus lost is the cursor's advance, and windows chain |
| `CaptureHistory.EveryCutIsTold` | crates/kaijutsu-audio/src/capture.rs:187-237 | over every run, from the steps alone: the log is every event pushed, and each tracker has been given one batch per cut since it was opened, with exactly these events, bounds and losses |
| `Capture.TrackersAreIndependent` | crates/kaijutsu-audio/src/capture.rs:148-237 | a tracker sees the same run with every other tracker left out |
| `Capture.WindowsAcceptedWhenTimeAdvances` | crates/kaijutsu-audio/src/capture.rs:118-138 | the receiver accepts all of a tracker's windows if and only if its cut times never decrease |
| `Capture.CaptureState.DrainEar` | crates/kaijutsu-app/src/midi_in.rs:159-175 | all waiting captures enter the ring in order |
| `Capture.CaptureState.CutAndShip` | crates/kaijutsu-app/src/midi_in.rs:213-250 | at most one cut per interval, and without a ship target nothing is consumed |
| `Capture.UnreportedLoss` | crates/kaijutsu-app/src/midi_in.rs:236-241 | a loss goes unreported if and only if events were overwritten and the oldest one left is stamped at or after the cut |
| `Capture.LossGoesUnreported` | crates/kaijutsu-app/src/midi_in.rs:236-241 | a ring of one event, two pushes and a cut before the second stamp give an empty batch with one loss |
| `Scheduler.DeadlineLaw` | crates/kaijutsu-app/src/audio_sched.rs:142-163 | a stamped cue is accepted if and only if it is at most 5 s past its time, and then due at max(now, emission + lead) if and only if its stamp is not ahead of the clock |
| `Scheduler.DeadlineIgnoresDelay` | crates/kaijutsu-app/src/audio_sched.rs:142-163 | a cue received before its time is due at the same instant however long delivery took |
| `Scheduler.DecideDeadline` | crates/kaijutsu-app/src/audio_sched.rs:211-222 | a fetched sound fires if unstamped or at most 100 ms late, else is dropped with its lateness |
| `Scheduler.InsertSorted` | crates/kaijutsu-app/src/audio_sched.rs:247-257 | queueing a new arrival keeps the (deadline, arrival) pop order |
| `Scheduler.DrainTakesTheDue` | crates/kaijutsu-app/src/audio_sched.rs:259-268 | a drain takes exactly what is due and leaves nothing due behind |
| `Scheduler.DrainInOrder` | crates/kaijutsu-app/src/audio_sched.rs:259-268 | each drain fires in (deadline, arrival) order |
| `Scheduler.SchedulerSafety` | crates/kaijutsu-app/src/audio_sched.rs:324-421 | in every run no sound fires before its queued deadline, no command fires twice, nothing fires from before the last flush (that the queued deadline is the one asked for: CueHistory.EveryCommandMeetsItsFate) |
| `CueHistory.EveryCommandMeetsItsFate` | crates/kaijutsu-app/src/audio_sched.rs:324-421 | over every run, for every command by its number, from the steps alone: it fired exactly if its fate is to have fired, once, at that instant and for the deadline it asked for; it is pending exactly if it still waits for that deadline; it sounds exactly if nothing has stopped it since |
| `CueHistory.FatesKeepDeadlines` | crates/kaijutsu-app/src/audio_sched.rs:324-421 | a command fires only if its sound decodes: a play-now when received, a play-at for its own deadline and not before it |
| `CueHistory.NoCueIsDropped` | crates/kaijutsu-app/src/audio_sched.rs:324-421 | every decodable cue received since the last flush has fired or still waits for its own deadline |
| `Scheduler.NothingSurvivesAFlush` | crates/kaijutsu-app/src/audio_sched.rs:364-371 | after a flush nothing sounds or waits, and everything that fires later was asked for later |
| `Scheduler.AudioScheduler.HandleCommand` | crates/kaijutsu-app/src/audio_sched.rs:324-371 | a command fires now, queues for its own deadline, drops or flushes (over a run: CueHistory.EveryCommandMeetsItsFate) |
| `Scheduler.AudioScheduler.DrainReady` | crates/kaijutsu-app/src/audio_sched.rs:262-268 | the pop loop returns the due prefix and leaves the rest |
| `Scheduler.AudioScheduler.TimedOut` | crates/kaijutsu-app/src/audio_sched.rs:400-412 | a timeout fires everything due |
| `DocumentStore.ActivateAgrees` | crates/kaijutsu-client/src/document_store.rs:129-139 | activating keeps list and cache in agreement if and only if the id is cached |
| `DocumentStore.LruAgreement` | crates/kaijutsu-client/src/document_store.rs:120-265 | list and cache agree at every point of a run if and only if only cached ids are activated |
| `DocumentHistory.LruAfterAnyRun` | crates/kaijutsu-client/src/document_store.rs:120-265 | after any such run, told from the steps alone: the list is the cached ids ordered by the last step that inserted, showed or first synced them, the cache holds for each the content last written and the generation it was current at, at most 8 of them, the shown one among them |
| `DocumentHistory.VictimIsOldest` | crates/kaijutsu-client/src/document_store.rs:252-265 | a document is the victim if and only if it is cached, not the one shown, and its last use in the steps is before that of every other such document |
| `DocumentStore.BoundNeedsARealVictim` | crates/kaijutsu-client/src/document_store.rs:120-126 | at capacity a new id keeps to the bound if and only if the victim is really cached |
| `DocumentStore.UncachedActivationOverflows` | crates/kaijutsu-client/src/document_store.rs:129-139 | activating an uncached id, filling the cache and moving on leaves nine documents after the next insert |
| `DocumentStore.BumpMakesStale` | crates/kaijutsu-client/src/document_store.rs:171-174 | a generation bump marks every cached document stale if and only if the counter does not wrap |
| `DocumentStore.StaleActive` | crates/kaijutsu-client/src/document_store.rs:230-234 | the active document is reported exactly when cached and behind the generation |
| `DocumentStore.Documents.Evict` | crates/kaijutsu-client/src/document_store.rs:252-265 | the backwards search evicts the specified victim |
| `DocumentStore.Documents.Put` | crates/kaijutsu-client/src/document_store.rs:120-126 | an insert evicts at capacity, stores and touches; list and cache agree after it if they did before |
| `DocumentStore.Documents.Show` | crates/kaijutsu-client/src/document_store.rs:129-139 | activation returns the previous id and moves the new one to the front, and keeps agreement exactly for a cached id |
| `DocumentStore.Documents.ReceiveSync` | crates/kaijutsu-client/src/document_store.rs:207-225 | a fetched state updates in place or inserts, reports which, and keeps agreement |
| `DocumentStore.Documents.ReceiveEvent` | crates/kaijutsu-client/src/document_store.rs:181-201 | an event updates its document's marker, or resets it and bumps the generation |

## Left out

- Rounding of `f64`: the clock, the phasor and the backoff use real numbers.
- BLAKE3: an arbitrary hash function with an incremental form; collisions are not excluded except where a lemma says so.
- The ABC parser and engraver: inline `K:`, `L:` and `M:` values are arbitrary functions of their text, and the print/parse round trip is not claimed.
- Tick counters: products wrap at 32 bits as in the source; the running tick is unbounded, and `Compile.TickCounterSuffices` says exactly when that makes no difference. Tick division by zero is read as division by one.
- Hash-map iteration order when tied notes are flushed: any order, chosen independently in the two compilers; what it changes is the order of the final note-offs (`Compile.FlushOrderOnlyPermutes`).
- Update in place of the syntax tree by `transpose`: modelled on values.
- Transposition against accidentals in force: notes move as written, as the source ignores the key signature there; `VoiceReading.TransposedSounds` says what that sounds where no other accidental is in effect.
- VoiceReading.SoundsAsWritten: for octaves -15 to 5, where the 8-bit octave product does not wrap; the voice-wide readings built on it have the same bound. `VoiceReading.OctavesExactly` says which others come out right all the same, and `VoiceReading.FarOctavesWrap` shows both edges.
- VoiceReading.LengthMeans, UnitMeans, BarMeans, TupletMeans and LengthIsExact: for products below 2^32; beyond, the length is the wrapped product's.
- Reconciliation of the store's staging area at restart: a step that may unlink any staging file, with no rule for when.
- The text of errors and statuses, logging, and the kernel-level dispatch of single RPC commands, which is alike for all of them.
- Durability across power loss, read-only mode, metadata sidecars and staging-id collisions of the store: staging and temporary ids are fresh.
- CasFiles.StreamingWriter.Finalize: a failing finalize is one that fails before the placing rename; failures at every other point are steps in `CasStore`.
- Repeat notation outside ABC's signs (D.C., coda, parts): the source ignores it. Conventions of the reading where section 4.10 leaves room: a `:|` inside an ending sends the reader back to the section's start; an ending marker that lists n passes is played n times; after a double bar that ends an ending, an ending marker continues the section and music starts a new one.
- Graces inside tuplets: neither voice loop plays them.
- Resolver: the cache is a map whose objects hash to their keys, which `CasStore.NothingTorn` justifies; a panic in the fetch is a failed fetch.
- The standard library's heap, deque and sort: the heap is the list its pops would give, the deque and the sorted vector are sequences.
- Scheduler liveness: the loop drains only on a timeout, so only safety is claimed; decoding, gain and the audio device are left out beyond whether a sound decodes.
- CRDT merging, JSON and serde records, ssh, Cap'n Proto, Bevy, ALSA, and the sharing, patching and agent code: library plumbing, or rules simpler than the ones modelled here.
