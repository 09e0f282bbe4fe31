/** Standard MIDI Files: the byte encoding of tracks and files, and a reader
    for it that follows the Standard MIDI Files 1.0 chunk and event syntax. */
module Smf {
  import opened Prelude
  import opened MidiTrack
  import opened AbcAst

  type Byte = x: int | 0 <= x < 256
  type Bytes = seq<Byte>

  // ------------------------------------------- variable-length quantities

  /** The continuation bytes of a value: seven bits each, high bit set. */
  function High(v: nat): Bytes {
    if v == 0 then [] else High(v / 128) + [128 + v % 128]
  }

  function Vlq(v: nat): Bytes {
    High(v / 128) + [v % 128]
  }

  function Reverse(s: Bytes): Bytes {
    if s == [] then [] else Reverse(s[1..]) + [s[0]]
  }

  /** Low group first, high groups appended with the continuation bit, reversed at the end. */
  method EncodeVariableLength(value: nat) returns (out: Bytes)
    ensures out == Vlq(value)
  {
    if value == 0 {
      assert High(0) == [];
      return [0];
    }
    var v: nat := value;
    var bytes: Bytes := [v % 128];
    v := v / 128;
    assert bytes[1..] == [];
    while v > 0
      invariant High(v) + Reverse(bytes) == Vlq(value)
    {
      ReverseSnoc(bytes, 128 + v % 128);
      assert High(v / 128) + ([128 + v % 128] + Reverse(bytes)) == High(v) + Reverse(bytes);
      bytes := bytes + [128 + v % 128];
      v := v / 128;
    }
    assert v == 0 && High(v) == [];
    out := Reverse(bytes);
  }

  lemma {:induction false} ReverseSnoc(s: Bytes, b: Byte)
    ensures Reverse(s + [b]) == [b] + Reverse(s)
  {
    if s == [] {
      assert s + [b] == [b] && [b][1..] == [];
    } else {
      assert (s + [b])[1..] == s[1..] + [b];
      ReverseSnoc(s[1..], b);
    }
  }

  /** A quantity of at most `left` bytes, most significant group first. */
  function ReadVlq(bs: Bytes, acc: nat, left: nat): (r: Option<(nat, Bytes)>)
    ensures r.Some? ==> |r.value.1| < |bs|
    decreases left
  {
    if left == 0 || bs == [] then None
    else if bs[0] < 128 then Some((acc * 128 + bs[0], bs[1..]))
    else ReadVlq(bs[1..], acc * 128 + (bs[0] - 128), left - 1)
  }

  lemma {:induction false} ReadHigh(v: nat, tail: Bytes, left: nat)
    ensures ReadVlq(High(v) + tail, 0, left) == if |High(v)| <= left then ReadVlq(tail, v, left - |High(v)|) else None
    decreases v
  {
    if v == 0 {
      assert High(v) + tail == tail;
    } else {
      var b: Byte := 128 + v % 128;
      ReadHigh(v / 128, [b] + tail, left);
      assert High(v) + tail == High(v / 128) + ([b] + tail);
      assert ([b] + tail)[1..] == tail;
    }
  }

  lemma {:induction false} HighLength(v: nat)
    ensures |High(v)| <= 3 <==> v < 0x20_0000
  {
    var a := v / 128;
    var b := a / 128;
    var c := b / 128;
    assert |High(v)| == if v == 0 then 0 else |High(a)| + 1;
    assert |High(a)| == if a == 0 then 0 else |High(b)| + 1;
    assert |High(b)| == if b == 0 then 0 else |High(c)| + 1;
    assert c == 0 ==> |High(c)| == 0;
    assert c != 0 ==> |High(c)| >= 1;
  }

  /** A four-byte reader gets back what was written, exactly below 2^28. */
  lemma {:induction false} VlqRoundTrip(v: nat, tail: Bytes)
    ensures ReadVlq(Vlq(v) + tail, 0, 4) == if v < 0x1000_0000 then Some((v, tail)) else None
  {
    var b: Byte := v % 128;
    ReadHigh(v / 128, [b] + tail, 4);
    assert Vlq(v) + tail == High(v / 128) + ([b] + tail);
    assert ([b] + tail)[1..] == tail;
    HighLength(v / 128);
  }

  // ------------------------------------------------------------- messages

  predicate Sendable(m: Msg) {
    match m
    case NoteOn(c, p, v) => c < 16 && 0 <= p < 128 && v < 256
    case NoteOff(c, p) => c < 16 && 0 <= p < 128
    case ProgramChange(c, p) => c < 16 && p < 128
    case SetTempo(_) => true
  }

  function MsgBytes(m: Msg): Bytes
    requires Sendable(m)
  {
    match m
    case NoteOn(c, p, v) => [0x90 + c, p, v]
    case NoteOff(c, p) => [0x80 + c, p, 0]
    case ProgramChange(c, p) => [0xC0 + c, p]
    case SetTempo(us) => [0xFF, 0x51] + Vlq(3) + [us / 65536 % 256, us / 256 % 256, us % 256]
  }

  /** One event body: a meta event, or a channel message with its data bytes
      below 128, under running status when the status byte is left out. */
  function ReadMessage(bs: Bytes, running: Option<Byte>): (r: Option<(Bytes, Bytes)>)
    ensures r.Some? ==> |r.value.0| >= 2 && |r.value.1| <= |bs|
  {
    if bs == [] then None
    else if bs[0] == 0xFF then
      if |bs| < 2 then None
      else
        var len := ReadVlq(bs[2..], 0, 4);
        if len.None? || |len.value.1| < len.value.0 then None
        else
          var rest := len.value.1[len.value.0..];
          Some((bs[..|bs| - |rest|], rest))
    else if bs[0] < 128 then
      if running.None? then None else ReadChannel(running.value, bs)
    else ReadChannel(bs[0], bs[1..])
  }

  function ReadChannel(status: Byte, data: Bytes): (r: Option<(Bytes, Bytes)>)
    ensures r.Some? ==> |r.value.0| >= 2 && |r.value.1| <= |data|
  {
    if status < 128 || status >= 0xF0 then None
    else
      var n := if 0xC0 <= status < 0xE0 then 1 else 2;
      if |data| < n || data[0] >= 128 || (n == 2 && data[1] >= 128) then None
      else Some(([status] + data[..n], data[n..]))
  }

  lemma {:induction false} MessageRoundTrip(m: Msg, tail: Bytes, running: Option<Byte>)
    requires Sendable(m)
    ensures ReadMessage(MsgBytes(m) + tail, running) ==
            if m.NoteOn? && m.velocity >= 128 then None else Some((MsgBytes(m), tail))
  {
    var bs := MsgBytes(m);
    var all := bs + tail;
    match m
    case SetTempo(us) =>
      assert Vlq(3) == [3] by {
        assert High(0) == [];
      }
      var data: Bytes := [us / 65536 % 256, us / 256 % 256, us % 256];
      assert all[2..] == Vlq(3) + (data + tail);
      VlqRoundTrip(3, data + tail);
      assert (data + tail)[3..] == tail;
      assert all[..|all| - |tail|] == bs;
    case ProgramChange(c, p) =>
      assert all[1..] == [p] + tail && ([p] + tail)[1..] == tail;
      assert [0xC0 + c] + ([p] + tail)[..1] == bs;
    case NoteOn(c, p, v) =>
      assert all[1..] == [p, v] + tail && ([p, v] + tail)[2..] == tail;
      assert [0x90 + c] + ([p, v] + tail)[..2] == bs;
    case NoteOff(c, p) =>
      assert all[1..] == [p, 0] + tail && ([p, 0] + tail)[2..] == tail;
      assert [0x80 + c] + ([p, 0] + tail)[..2] == bs;
  }

  lemma {:induction false} NestedQuotients(x: nat)
    ensures x / 65536 == x / 256 / 256
    ensures x / 0x100_0000 == x / 256 / 256 / 256
  {
    assert x / 0x100_0000 == x / 65536 / 256;
  }

  /** The tempo field has three bytes: slow tempi of 2^24 microseconds per
      quarter and more do not survive. */
  lemma {:induction false} TempoFitsThreeBytes(us: nat)
    ensures var b := MsgBytes(SetTempo(us));
            |b| == 6 && ((b[3] as int) * 65536 + (b[4] as int) * 256 + b[5] as int == us <==> us < 0x100_0000)
  {
    assert Vlq(3) == [3] by {
      assert High(0) == [];
    }
    ThreeDigits(us);
  }

  /** As at three quarters a minute: 20 seconds a quarter read back as 3.2. */
  lemma {:induction false} SlowTempoIsTruncated()
    ensures var us := MicrosPerQuarter(Tempo(1, 4, 3));
            var b := MsgBytes(SetTempo(us));
            us == 20000000 && |b| == 6 && (b[3] as int) * 65536 + (b[4] as int) * 256 + b[5] as int == 3222784
  {
    TempoFitsThreeBytes(20000000);
    assert Vlq(3) == [3] by {
      assert High(0) == [];
    }
  }

  lemma {:induction false} ThreeDigits(x: nat)
    ensures x / 65536 % 256 * 65536 + x / 256 % 256 * 256 + x % 256 == x <==> x < 0x100_0000
  {
    NestedQuotients(x);
    var q := x / 256;
    var r := q / 256;
    assert x == 256 * q + x % 256 && q == 256 * r + q % 256;
    assert r % 256 == r <==> r < 256;
  }

  // --------------------------------------------------------------- tracks

  const END_OF_TRACK: Bytes := [0x00, 0xFF, 0x2F, 0x00]

  function EncodeFrom(last: nat, es: seq<Event>): Bytes
    requires forall i :: 0 <= i < |es| ==> Sendable(es[i].msg)
    decreases |es|
  {
    if es == [] then END_OF_TRACK
    else Vlq(SatSub(es[0].tick, last)) + MsgBytes(es[0].msg) + EncodeFrom(es[0].tick, es[1..])
  }

  /** The track loop: deltas against the previous tick, saturating at zero. */
  method EncodeTrack(es: seq<Event>) returns (out: Bytes)
    requires forall i :: 0 <= i < |es| ==> Sendable(es[i].msg)
    ensures out == EncodeFrom(0, es)
  {
    out := [];
    var last := 0;
    for i := 0 to |es|
      invariant out + EncodeFrom(last, es[i..]) == EncodeFrom(0, es)
    {
      var delta := EncodeVariableLength(SatSub(es[i].tick, last));
      ghost var rest := EncodeFrom(es[i].tick, es[i + 1..]);
      assert es[i..][1..] == es[i + 1..];
      assert out + (delta + MsgBytes(es[i].msg) + rest) == (out + delta + MsgBytes(es[i].msg)) + rest;
      out := out + delta + MsgBytes(es[i].msg);
      last := es[i].tick;
    }
    assert es[|es|..] == [];
    out := out + END_OF_TRACK;
  }

  datatype Timed = Timed(tick: nat, data: Bytes)

  /** A delta time and an event body: what was read and what is left. */
  datatype Item = Item(delta: nat, data: Bytes, rest: Bytes)

  function ReadItem(bs: Bytes, running: Option<Byte>): (r: Option<Item>)
    ensures r.Some? ==> |r.value.data| >= 2 && |r.value.rest| < |bs|
  {
    var delta := ReadVlq(bs, 0, 4);
    if delta.None? then None
    else
      var msg := ReadMessage(delta.value.1, running);
      if msg.None? then None else Some(Item(delta.value.0, msg.value.0, msg.value.1))
  }

  predicate IsEndOfTrack(data: Bytes)
    requires |data| >= 2
  {
    data[0] == 0xFF && data[1] == 0x2F
  }

  function RunningAfter(data: Bytes): Option<Byte>
    requires |data| >= 2
  {
    if data[0] < 0xF0 then Some(data[0]) else None
  }

  type ItemReader = (Bytes, Option<Byte>) -> Option<Item>

  /** A reader of items makes progress and reads at least two bytes of body. */
  ghost predicate Progresses(read: ItemReader) {
    forall bs, running :: read(bs, running).Some? ==>
      |read(bs, running).value.data| >= 2 && |read(bs, running).value.rest| < |bs|
  }

  /** Items one after the other, up to the end-of-track event. */
  function ReadItems(read: ItemReader, bs: Bytes, tick: nat, running: Option<Byte>): Option<seq<Timed>>
    requires Progresses(read)
    decreases |bs|
  {
    var item := read(bs, running);
    if item.None? then None
    else if IsEndOfTrack(item.value.data) then (if item.value.rest == [] then Some([]) else None)
    else
      var at := tick + item.value.delta;
      var tail := ReadItems(read, item.value.rest, at, RunningAfter(item.value.data));
      if tail.None? then None else Some([Timed(at, item.value.data)] + tail.value)
  }

  function ReadTrack(bs: Bytes): Option<seq<Timed>> {
    ReadItems(ReadItem, bs, 0, None)
  }

  function Expected(es: seq<Event>): seq<Timed>
    requires forall i :: 0 <= i < |es| ==> Sendable(es[i].msg)
  {
    if es == [] then [] else [Timed(es[0].tick, MsgBytes(es[0].msg))] + Expected(es[1..])
  }

  /** Ticks do not run backwards, gaps fit four bytes, velocities fit seven bits. */
  predicate Readable(last: nat, es: seq<Event>)
    decreases |es|
  {
    es == [] ||
    (&& last <= es[0].tick < last + 0x1000_0000
     && (es[0].msg.NoteOn? ==> es[0].msg.velocity < 128)
     && Readable(es[0].tick, es[1..]))
  }

  lemma {:induction false} ItemRoundTrip(delta: nat, m: Msg, rest: Bytes, running: Option<Byte>)
    requires Sendable(m)
    ensures ReadItem(Vlq(delta) + MsgBytes(m) + rest, running) ==
            if delta < 0x1000_0000 && !(m.NoteOn? && m.velocity >= 128) then Some(Item(delta, MsgBytes(m), rest))
                else None
  {
    var body := MsgBytes(m);
    assert Vlq(delta) + body + rest == Vlq(delta) + (body + rest);
    VlqRoundTrip(delta, body + rest);
    MessageRoundTrip(m, rest, running);
  }

  /** Reading one item and then the rest gives an expected list exactly when
      the first tick is right and the rest is as expected. */
  lemma {:induction false} ReadCons(read: ItemReader, bs: Bytes, tick: nat, running: Option<Byte>, item: Item,
                                    first: nat, want: seq<Timed>)
    requires Progresses(read) && read(bs, running) == Some(item) && !IsEndOfTrack(item.data)
    ensures ReadItems(read, bs, tick, running) == Some([Timed(first, item.data)] + want)
            <==> first == tick + item.delta && ReadItems(read, item.rest, tick + item.delta, RunningAfter(item.data))
                 == Some(want)
  {
    var at := tick + item.delta;
    var tail := ReadItems(read, item.rest, at, RunningAfter(item.data));
    if tail.Some? {
      ConsEqual(Timed(at, item.data), tail.value, Timed(first, item.data), want);
    }
  }

  /** What an item reader must do with what the track encoder writes. */
  ghost predicate Understands(read: ItemReader) {
    && (forall running :: read(END_OF_TRACK, running) == Some(Item(0, [0xFF, 0x2F, 0x00], [])))
    && (forall delta: nat, m: Msg, rest: Bytes, running | Sendable(m) ::
          read(Vlq(delta) + MsgBytes(m) + rest, running) ==
          if delta < 0x1000_0000 && !(m.NoteOn? && m.velocity >= 128) then Some(Item(delta, MsgBytes(m), rest))
              else None)
  }

  lemma {:induction false} ItemsRoundTrip(read: ItemReader, last: nat, es: seq<Event>, running: Option<Byte>)
    requires Progresses(read) && Understands(read)
    requires forall i :: 0 <= i < |es| ==> Sendable(es[i].msg)
    ensures ReadItems(read, EncodeFrom(last, es), last, running) == Some(Expected(es)) <==> Readable(last, es)
    decreases |es|
  {
    if es != [] {
      var e, rest := es[0], EncodeFrom(es[0].tick, es[1..]);
      var delta, body := SatSub(e.tick, last), MsgBytes(e.msg);
      assert EncodeFrom(last, es) == Vlq(delta) + body + rest;
      NotEndOfTrack(e.msg);
      if delta < 0x1000_0000 && !(e.msg.NoteOn? && e.msg.velocity >= 128) {
        ReadCons(read, EncodeFrom(last, es), last, running, Item(delta, body, rest), e.tick, Expected(es[1..]));
        if last <= e.tick {
          ItemsRoundTrip(read, e.tick, es[1..], RunningAfter(body));
        }
      }
    }
  }

  lemma {:induction false} NotEndOfTrack(m: Msg)
    requires Sendable(m)
    ensures |MsgBytes(m)| >= 2 && !IsEndOfTrack(MsgBytes(m))
  {
  }

  /** The reader recovers exactly every (tick, message) pair, exactly when the track is readable. */
  lemma {:induction false} TrackRoundTrip(es: seq<Event>)
    requires forall i :: 0 <= i < |es| ==> Sendable(es[i].msg)
    ensures ReadTrack(EncodeFrom(0, es)) == Some(Expected(es)) <==> Readable(0, es)
  {
    assert Understands(ReadItem) by {
      forall running
        ensures ReadItem(END_OF_TRACK, running) == Some(Item(0, [0xFF, 0x2F, 0x00], []))
      {
        EndOfTrackReads(running);
      }
      forall delta: nat, m: Msg, rest: Bytes, running | Sendable(m)
        ensures ReadItem(Vlq(delta) + MsgBytes(m) + rest, running) ==
                if delta < 0x1000_0000 && !(m.NoteOn? && m.velocity >= 128) then Some(Item(delta, MsgBytes(m), rest))
                    else None
      {
        ItemRoundTrip(delta, m, rest, running);
      }
    }
    ItemsRoundTrip(ReadItem, 0, es, None);
  }

  lemma {:induction false} EndOfTrackReads(running: Option<Byte>)
    ensures ReadItem(END_OF_TRACK, running) == Some(Item(0, [0xFF, 0x2F, 0x00], []))
  {
    var body: Bytes := [0xFF, 0x2F, 0x00];
    assert Vlq(0) == [0] by {
      assert High(0) == [];
    }
    assert END_OF_TRACK == Vlq(0) + body && body[2..] == Vlq(0) + [];
    VlqRoundTrip(0, body);
    VlqRoundTrip(0, []);
    assert body[..3] == body;
  }

  lemma {:induction false} ConsEqual(a: Timed, x: seq<Timed>, b: Timed, y: seq<Timed>)
    ensures [a] + x == [b] + y <==> a == b && x == y
  {
    if [a] + x == [b] + y {
      assert a == ([a] + x)[0] && b == ([b] + y)[0] && x == ([a] + x)[1..] && y == ([b] + y)[1..];
    }
  }

  /** Expected lists the events' ticks and bytes one for one. */
  lemma {:induction false} ExpectedAt(es: seq<Event>)
    requires forall i :: 0 <= i < |es| ==> Sendable(es[i].msg)
    ensures |Expected(es)| == |es|
    ensures forall i :: 0 <= i < |es| ==> Expected(es)[i] == Timed(es[i].tick, MsgBytes(es[i].msg))
  {
    if es != [] {
      ExpectedAt(es[1..]);
    }
  }

  // ---------------------------------------------------------------- files

  function Be16(x: nat): Bytes {
    [x / 256 % 256, x % 256]
  }

  function Be32(x: nat): Bytes {
    [x / 0x100_0000 % 256, x / 0x1_0000 % 256, x / 256 % 256, x % 256]
  }

  const MTHD: Bytes := [0x4D, 0x54, 0x68, 0x64]
  const MTRK: Bytes := [0x4D, 0x54, 0x72, 0x6B]

  function TrackChunks(tracks: seq<Bytes>): Bytes {
    if tracks == [] then [] else MTRK + Be32(|tracks[0]|) + tracks[0] + TrackChunks(tracks[1..])
  }

  function FileBytes(format: nat, division: nat, tracks: seq<Bytes>): Bytes {
    MTHD + Be32(6) + Be16(format) + Be16(|tracks|) + Be16(division) + TrackChunks(tracks)
  }

  function Read16(bs: Bytes): nat
    requires |bs| >= 2
  {
    (bs[0] as int) * 256 + bs[1] as int
  }

  function Read32(bs: Bytes): nat
    requires |bs| >= 4
  {
    (bs[0] as int) * 0x100_0000 + (bs[1] as int) * 0x1_0000 + (bs[2] as int) * 256 + bs[3] as int
  }

  function ReadChunks(bs: Bytes, n: nat): Option<seq<Bytes>> {
    if n == 0 then (if bs == [] then Some([]) else None)
    else if |bs| < 8 || bs[..4] != MTRK || |bs| - 8 < Read32(bs[4..]) then None
    else
      var len := Read32(bs[4..]);
      var rest := ReadChunks(bs[8 + len..], n - 1);
      if rest.None? then None else Some([bs[8..8 + len]] + rest.value)
  }

  datatype SmfFile = SmfFile(format: nat, division: nat, tracks: seq<Bytes>)

  function ReadFile(bs: Bytes): Option<SmfFile> {
    if |bs| < 14 || bs[..4] != MTHD || Read32(bs[4..]) != 6 then None
    else
      var tracks := ReadChunks(bs[14..], Read16(bs[10..]));
      if tracks.None? then None else Some(SmfFile(Read16(bs[8..]), Read16(bs[12..]), tracks.value))
  }

  lemma {:induction false} Be32RoundTrip(x: nat, tail: Bytes)
    requires x < 0x1_0000_0000
    ensures |Be32(x)| == 4 && Read32(Be32(x) + tail) == x
  {
    NestedQuotients(x);
    var q := x / 256;
    var r := q / 256;
    var t := r / 256;
    assert x == 256 * q + x % 256 && q == 256 * r + q % 256 && r == 256 * t + r % 256 && t < 256;
  }

  lemma {:induction false} Be16RoundTrip(x: nat, tail: Bytes)
    requires x < 0x1_0000
    ensures |Be16(x)| == 2 && Read16(Be16(x) + tail) == x
  {
  }

  lemma {:induction false} ChunkLayout(t: Bytes, rest: Bytes)
    requires |t| < 0x1_0000_0000
    ensures var all := MTRK + Be32(|t|) + t + rest;
            && |all| >= 8 + |t| && all[..4] == MTRK && Read32(all[4..]) == |t|
            && all[8..8 + |t|] == t && all[8 + |t|..] == rest
  {
    var all := MTRK + Be32(|t|) + t + rest;
    assert all[4..] == Be32(|t|) + (t + rest);
    Be32RoundTrip(|t|, t + rest);
  }

  lemma {:induction false} ChunksRoundTrip(tracks: seq<Bytes>)
    requires forall i :: 0 <= i < |tracks| ==> |tracks[i]| < 0x1_0000_0000
    ensures ReadChunks(TrackChunks(tracks), |tracks|) == Some(tracks)
  {
    if tracks != [] {
      ChunksRoundTrip(tracks[1..]);
      ChunkLayout(tracks[0], TrackChunks(tracks[1..]));
      assert [tracks[0]] + tracks[1..] == tracks;
    }
  }

  /** A reader of the header and track chunks gets back format, division and every track. */
  lemma {:induction false} FileRoundTrip(format: nat, division: nat, tracks: seq<Bytes>)
    requires format < 0x1_0000 && division < 0x1_0000 && |tracks| < 0x1_0000
    requires forall i :: 0 <= i < |tracks| ==> |tracks[i]| < 0x1_0000_0000
    ensures ReadFile(FileBytes(format, division, tracks)) == Some(SmfFile(format, division, tracks))
  {
    var chunks := TrackChunks(tracks);
    ChunksRoundTrip(tracks);
    HeaderReads(format, division, |tracks|, chunks);
  }

  lemma {:induction false} HeaderReads(format: nat, division: nat, n: nat, chunks: Bytes)
    requires format < 0x1_0000 && division < 0x1_0000 && n < 0x1_0000
    ensures var bs := MTHD + Be32(6) + Be16(format) + Be16(n) + Be16(division) + chunks;
            && |bs| >= 14 && bs[..4] == MTHD && Read32(bs[4..]) == 6
            && Read16(bs[8..]) == format && Read16(bs[10..]) == n && Read16(bs[12..]) == division && bs[14..] == chunks
  {
    var bs := MTHD + Be32(6) + Be16(format) + Be16(n) + Be16(division) + chunks;
    assert bs[4..] == Be32(6) + (Be16(format) + Be16(n) + Be16(division) + chunks);
    Be32RoundTrip(6, Be16(format) + Be16(n) + Be16(division) + chunks);
    assert bs[8..] == Be16(format) + (Be16(n) + Be16(division) + chunks);
    Be16RoundTrip(format, Be16(n) + Be16(division) + chunks);
    assert bs[10..] == Be16(n) + (Be16(division) + chunks);
    Be16RoundTrip(n, Be16(division) + chunks);
    assert bs[12..] == Be16(division) + chunks;
    Be16RoundTrip(division, chunks);
  }

  // -------------------------------------------------------------- sorting

  function Insert(e: Event, es: seq<Event>): seq<Event> {
    if es == [] || e.tick <= es[0].tick then [e] + es else [es[0]] + Insert(e, es[1..])
  }

  /** A stable sort by tick. */
  function SortByTick(es: seq<Event>): seq<Event> {
    if es == [] then [] else Insert(es[0], SortByTick(es[1..]))
  }

  /** On events already in order the sort changes nothing. */
  lemma {:induction false} SortIsIdentity(es: seq<Event>)
    requires Ordered(es)
    ensures SortByTick(es) == es
  {
    if es != [] {
      assert Ordered(es[1..]) by {
        assert forall i :: 0 <= i < |es| - 1 ==> es[1..][i] == es[i + 1];
      }
      SortIsIdentity(es[1..]);
      assert [es[0]] + es[1..] == es;
    }
  }
}
