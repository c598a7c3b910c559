/** The extraction of complete MP3 frames from a stream that arrives in chunks
    (audio_translation_service_websocket.py). */
module Mp3Frames {
  import opened Basics

  // ---- headers ----

  const RATES_MPEG1 := [0, 32, 40, 48, 56, 64, 80, 96, 112, 128, 160, 192, 224, 256, 320, 0]
  const RATES_MPEG2 := [0, 8, 16, 24, 32, 40, 48, 56, 64, 80, 96, 112, 128, 144, 160, 0]

  predicate IsSync(b0: Byte, b1: Byte) { b0 == 0xFF && b1 / 32 == 7 }

  /** `parse_frame_length`, on the four bytes of a header.  The source divides floats; no
      quotient that is not whole comes near the next whole number, so its result is that of
      the division of integers. */
  function ParseFrameLength(b0: Byte, b1: Byte, b2: Byte): (r: Option<nat>)
    ensures r.Some? ==> IsSync(b0, b1) && r.value > 4
  {
    var version, layer := b1 / 8 % 4, b1 / 2 % 4;
    var bitrateIndex, sampleRateIndex, padding := b2 / 16, b2 / 4 % 4, b2 / 2 % 2;
    if !IsSync(b0, b1) || version == 1 || layer != 1 || bitrateIndex in {0, 15} || sampleRateIndex == 3 then None
    else
      var bitrate := if version == 3 then RATES_MPEG1[bitrateIndex] else RATES_MPEG2[bitrateIndex];
      var sampleRate := SampleRate(version, sampleRateIndex);
      var length := (if version == 3 then 144000 else 72000) * bitrate / sampleRate + padding;
      if length > 4 then Some(length) else None
  }

  function SampleRate(version: int, index: int): int {
    var rates := if version == 3 then [44100, 48000, 32000] else if version == 2 then [22050, 24000, 16000] else [11025, 12000, 8000];
    if 0 <= index < 3 then rates[index] else 1
  }

  /** No frame is shorter than 24 bytes or longer than 1441, and every header that passes
      the tests on its fields has a length. */
  lemma FrameLengthBounds(b0: Byte, b1: Byte, b2: Byte)
    ensures var r := ParseFrameLength(b0, b1, b2);
            && (r.Some? ==> 24 <= r.value <= 1441)
            && (r.Some? <==> b0 == 255 && b1 >= 224 && b1 / 8 % 4 != 1 && b1 / 2 % 4 == 1 && 0 < b2 / 16 < 15 && b2 / 4 % 4 != 3)
  {
  }

  /** 2 to the power of g. */
  function Pow2(g: nat): nat { if g == 0 then 1 else 2 * Pow2(g - 1) }

  /** The lengths in closed form: rates and sampling rates follow a rule, and the length is
      what plays in 1152 samples, or in 576, in whole bytes and one more with padding. */
  lemma FrameLengthIs(b0: Byte, b1: Byte, b2: Byte)
    requires ParseFrameLength(b0, b1, b2).Some?
    ensures var version, i, k, padding := b1 / 8 % 4, b2 / 16, b2 / 4 % 4, b2 / 2 % 2;
            var rate := if version == 3 then 8 * Pow2((i - 1) / 4) * (4 + (i - 1) % 4) else if i <= 8 then 8 * i else 16 * (i - 4);
            var mpeg1 := if k == 0 then 44100 else if k == 1 then 48000 else 32000;
            var sampleRate := if version == 3 then mpeg1 else if version == 2 then mpeg1 / 2 else mpeg1 / 4;
            ParseFrameLength(b0, b1, b2).value == (if version == 3 then 144000 else 72000) * rate / sampleRate + padding
  {
    var version, i := b1 / 8 % 4, b2 / 16;
    assert Pow2(0) == 1 && Pow2(1) == 2 && Pow2(2) == 4 && Pow2(3) == 8;
    RatesAre(i);
  }

  lemma RatesAre(i: nat)
    requires 0 < i < 15
    ensures RATES_MPEG1[i] == 8 * Pow2((i - 1) / 4) * (4 + (i - 1) % 4)
    ensures RATES_MPEG2[i] == if i <= 8 then 8 * i else 16 * (i - 4)
  {
    assert Pow2(0) == 1 && Pow2(1) == 2 && Pow2(2) == 4 && Pow2(3) == 8;
  }

  /** The frame that would begin at position i: its length, if a header is there. */
  function FrameAt(p: seq<Byte>, i: nat): Option<nat> {
    if i + 4 > |p| then None else ParseFrameLength(p[i], p[i + 1], p[i + 2])
  }

  /** A complete frame begins at position i. */
  predicate Whole(p: seq<Byte>, i: nat) {
    FrameAt(p, i).Some? && i + FrameAt(p, i).value <= |p|
  }

  function End(p: seq<Byte>, i: nat): nat {
    if FrameAt(p, i).Some? then i + FrameAt(p, i).value else i
  }

  predicate IsFrame(f: seq<Byte>) {
    FrameAt(f, 0) == Some(|f|)
  }

  // ---- what extraction means ----

  /** The first position from i on that has a header. */
  function NextHeader(p: seq<Byte>, i: nat): (r: Option<nat>)
    ensures r.Some? ==> i <= r.value && FrameAt(p, r.value).Some? && forall q :: i <= q < r.value ==> FrameAt(p, q) == None
    ensures r.None? ==> forall q :: i <= q ==> FrameAt(p, q) == None
    decreases |p| - i
  {
    if i + 4 > |p| then None
    else if FrameAt(p, i).Some? then Some(i)
    else NextHeader(p, i + 1)
  }

  datatype Split = Split(frames: seq<seq<Byte>>, rest: seq<Byte>)

  /** Frames are taken from the front, bytes without a header before a complete frame are
      dropped, and everything after the last complete frame is kept. */
  function Extract(p: seq<Byte>): Split
    decreases |p|
  {
    var j := NextHeader(p, 0);
    if j == None || !Whole(p, j.value) then Split([], p)
    else
      var more := Extract(p[End(p, j.value)..]);
      Split([p[j.value..End(p, j.value)]] + more.frames, more.rest)
  }

  /** Every emitted frame is as long as its own header says. */
  lemma {:induction false} FramesAreFrames(p: seq<Byte>)
    ensures forall i :: 0 <= i < |Extract(p).frames| ==> IsFrame(Extract(p).frames[i])
    decreases |p|
  {
    hide ParseFrameLength;
    var j := NextHeader(p, 0);
    if j.Some? && Whole(p, j.value) { FramesAreFrames(p[End(p, j.value)..]); }
  }

  ghost predicate NoneBetween(p: seq<Byte>, i: nat, j: nat) {
    forall q :: i <= q < j ==> FrameAt(p, q) == None
  }

  /** A declarative reading: from `from` on, complete frames begin at `starts`, which leave
      out only positions without a header, and the frame after the last one is not
      complete. */
  ghost predicate Cuts(p: seq<Byte>, starts: seq<nat>, from: nat, end: nat)
    decreases |starts|
  {
    if starts == [] then end == from <= |p| && forall q :: from <= q && Whole(p, q) ==> !NoneBetween(p, from, q)
    else from <= starts[0] && NoneBetween(p, from, starts[0]) && Whole(p, starts[0]) && Cuts(p, starts[1..], End(p, starts[0]), end)
  }

  /** There is only one way to cut a stream. */
  lemma {:induction false} CutsAreUnique(p: seq<Byte>, a: seq<nat>, b: seq<nat>, from: nat, e: nat, f: nat)
    requires Cuts(p, a, from, e) && Cuts(p, b, from, f)
    ensures a == b && e == f
    decreases |a|
  {
    hide FrameAt, End;
    if a != [] && b != [] {
      assert a[0] == b[0];
      CutsAreUnique(p, a[1..], b[1..], End(p, a[0]), e, f);
      assert a == [a[0]] + a[1..] && b == [b[0]] + b[1..];
    }
  }

  function Slices(p: seq<Byte>, starts: seq<nat>): seq<seq<Byte>> {
    if starts == [] then []
    else [if Whole(p, starts[0]) then p[starts[0]..End(p, starts[0])] else []] + Slices(p, starts[1..])
  }

  /** Looking at the bytes from `from` on, only positions shift. */
  lemma TailShifts(p: seq<Byte>, from: nat)
    requires from <= |p|
    ensures forall q :: q >= from ==> FrameAt(p[from..], q - from) == FrameAt(p, q)
  {
    hide ParseFrameLength;
  }

  lemma NextHeaderIs(p: seq<Byte>, i: nat, q: nat)
    requires i <= q && FrameAt(p, q).Some? && NoneBetween(p, i, q)
    ensures NextHeader(p, i) == Some(q)
  {
    hide FrameAt;
  }

  /** The first header after `from`, and what that means for extraction from there. */
  lemma HeaderFound(p: seq<Byte>, from: nat, j: nat)
    requires from <= j && FrameAt(p, j).Some? && NoneBetween(p, from, j)
    ensures from <= |p|
    ensures Extract(p[from..]) ==
            if !Whole(p, j) then Split([], p[from..])
            else Split([p[j..End(p, j)]] + Extract(p[End(p, j)..]).frames, Extract(p[End(p, j)..]).rest)
  {
    hide Extract, NextHeader, ParseFrameLength;
    var t := p[from..];
    TailShifts(p, from);
    assert FrameAt(t, j - from) == FrameAt(p, j);
    forall q: nat | q < j - from
      ensures FrameAt(t, q) == None
    {
      assert FrameAt(p, from + q) == FrameAt(t, from + q - from);
    }
    NextHeaderIs(t, 0, j - from);
    ExtractFirst(t, j - from);
    if Whole(p, j) { assert t[End(t, j - from)..] == p[End(p, j)..] && t[j - from..End(t, j - from)] == p[j..End(p, j)]; }
  }

  lemma ExtractFirst(p: seq<Byte>, j: nat)
    requires NextHeader(p, 0) == Some(j)
    ensures Extract(p) == if !Whole(p, j) then Split([], p)
                          else Split([p[j..End(p, j)]] + Extract(p[End(p, j)..]).frames, Extract(p[End(p, j)..]).rest)
  {
    hide ParseFrameLength, NextHeader;
  }

  /** No header at all. */
  lemma NothingFound(p: seq<Byte>, from: nat)
    requires from <= |p| && forall q :: q >= from ==> FrameAt(p, q) == None
    ensures Extract(p[from..]) == Split([], p[from..])
  {
    hide ParseFrameLength, FrameAt;
    TailShifts(p, from);
    forall q: nat
      ensures FrameAt(p[from..], q) == None
    {
      assert FrameAt(p[from..], from + q - from) == FrameAt(p, from + q);
    }
  }

  lemma HeaderAfter(p: seq<Byte>, from: nat) returns (j: Option<nat>)
    ensures j.Some? ==> from <= j.value && FrameAt(p, j.value).Some? && NoneBetween(p, from, j.value)
    ensures j.None? ==> forall q :: q >= from ==> FrameAt(p, q) == None
  {
    j := NextHeader(p, from);
  }

  /** Extraction is that one way of cutting. */
  lemma {:induction false} ExtractCuts(p: seq<Byte>, from: nat) returns (starts: seq<nat>, end: nat)
    requires from <= |p|
    ensures Cuts(p, starts, from, end) && end <= |p|
    ensures Extract(p[from..]) == Split(Slices(p, starts), p[end..])
    decreases |p| - from
  {
    hide Extract, NextHeader, ParseFrameLength;
    var j := HeaderAfter(p, from);
    starts, end := [], from;
    if j == None {
      NothingFound(p, from);
    } else {
      HeaderFound(p, from, j.value);
      if Whole(p, j.value) {
        starts, end := ExtractCuts(p, End(p, j.value));
        assert ([j.value] + starts)[1..] == starts;
        starts := [j.value] + starts;
      }
    }
  }

  // ---- chunks ----

  /** More bytes at the end do not change a header that is there. */
  lemma MoreBytes(a: seq<Byte>, b: seq<Byte>)
    ensures forall q: nat :: q + 4 <= |a| ==> FrameAt(a + b, q) == FrameAt(a, q)
  {
    hide ParseFrameLength;
  }

  lemma FirstFrameMore(a: seq<Byte>, b: seq<Byte>, j: nat)
    requires NextHeader(a, 0) == Some(j) && Whole(a, j)
    ensures NextHeader(a + b, 0) == Some(j) && Whole(a + b, j) && End(a + b, j) == End(a, j)
    ensures (a + b)[j..End(a, j)] == a[j..End(a, j)] && (a + b)[End(a, j)..] == a[End(a, j)..] + b
  {
    hide ParseFrameLength;
    MoreBytes(a, b);
    assert FrameAt(a + b, j) == FrameAt(a, j);
    NextHeaderIs(a + b, 0, j);
  }

  /** Extraction does not depend on where the stream was cut into chunks. */
  lemma {:induction false} ChunkIndependent(a: seq<Byte>, b: seq<Byte>)
    ensures var x := Extract(a);
            var y := Extract(x.rest + b);
            Extract(a + b) == Split(x.frames + y.frames, y.rest)
    decreases |a|
  {
    hide Extract, NextHeader, FrameAt, End, Whole;
    var j := NextHeader(a, 0);
    if j.Some? && Whole(a, j.value) {
      var e := End(a, j.value);
      FirstFrameMore(a, b, j.value);
      ExtractFirst(a, j.value);
      ExtractFirst(a + b, j.value);
      EndsLater(a, j.value);
      ChunkIndependent(a[e..], b);
      var x := Extract(a[e..]);
      Regroup(a[j.value..e], x.frames, Extract(x.rest + b).frames);
    } else {
      ExtractNone(a);
      assert [] + Extract(a + b).frames == Extract(a + b).frames;
    }
  }

  lemma Regroup(f: seq<Byte>, a: seq<seq<Byte>>, b: seq<seq<Byte>>)
    ensures [f] + (a + b) == [f] + a + b
  {
  }

  lemma ExtractNone(p: seq<Byte>)
    requires NextHeader(p, 0) == None || !Whole(p, NextHeader(p, 0).value)
    ensures Extract(p) == Split([], p)
  {
  }

  lemma EndsLater(p: seq<Byte>, j: nat)
    requires Whole(p, j)
    ensures j < End(p, j) <= |p|
  {
  }

  /** The chunks one after the other, the rest of each put before the next. */
  function Feed(rest: seq<Byte>, chunks: seq<seq<Byte>>): Split
    decreases |chunks|
  {
    if chunks == [] then Split([], rest)
    else
      var x := Extract(rest + chunks[0]);
      var y := Feed(x.rest, chunks[1..]);
      Split(x.frames + y.frames, y.rest)
  }

  lemma {:induction false} RestIsSettled(p: seq<Byte>)
    ensures Extract(Extract(p).rest) == Split([], Extract(p).rest)
    decreases |p|
  {
    hide NextHeader, FrameAt;
    var j := NextHeader(p, 0);
    if j.Some? && Whole(p, j.value) {
      EndsLater(p, j.value);
      RestIsSettled(p[End(p, j.value)..]);
    }
  }

  /** However the stream is cut into chunks, the same frames come out, and the same bytes
      are left. */
  lemma {:induction false} AnyChunks(rest: seq<Byte>, chunks: seq<seq<Byte>>)
    requires Extract(rest) == Split([], rest)
    ensures Feed(rest, chunks) == Extract(rest + Flat(chunks))
    decreases |chunks|
  {
    hide Extract;
    if chunks == [] {
      assert rest + Flat(chunks) == rest;
    } else {
      var x := Extract(rest + chunks[0]);
      RestIsSettled(rest + chunks[0]);
      AnyChunks(x.rest, chunks[1..]);
      ChunkIndependent(rest + chunks[0], Flat(chunks[1..]));
      assert rest + Flat(chunks) == (rest + chunks[0]) + Flat(chunks[1..]);
    }
  }

  /** A stream of whole frames is extracted whole. */
  lemma {:induction false} WholeFrames(fs: seq<seq<Byte>>)
    requires forall i :: 0 <= i < |fs| ==> IsFrame(fs[i])
    ensures Extract(Flat(fs)) == Split(fs, [])
    decreases |fs|
  {
    hide Extract, IsFrame;
    if fs == [] {
      NothingToExtract();
    } else {
      WholeFrames(fs[1..]);
      FrameFirst(fs[0], Flat(fs[1..]));
      assert fs == [fs[0]] + fs[1..];
    }
  }

  lemma NothingToExtract()
    ensures Extract([]) == Split([], [])
  {
  }

  /** A whole frame at the front is extracted first. */
  lemma FrameFirst(f: seq<Byte>, p: seq<Byte>)
    requires IsFrame(f)
    ensures Extract(f + p) == Split([f] + Extract(p).frames, Extract(p).rest)
  {
    hide ParseFrameLength, Extract;
    var q := f + p;
    MoreBytes(f, p);
    assert FrameAt(q, 0) == FrameAt(f, 0) == Some(|f|);
    NextHeaderIs(q, 0, 0);
    ExtractFirst(q, 0);
    assert q[0..|f|] == f && q[|f|..] == p;
  }

  /** So extracting twice changes nothing. */
  lemma {:induction false} ExtractAgain(p: seq<Byte>)
    ensures Extract(Flat(Extract(p).frames)) == Split(Extract(p).frames, [])
  {
    FramesAreFrames(p);
    WholeFrames(Extract(p).frames);
  }

  // ---- the method ----

  /** `_extract_complete_mp3_frames`; `dropped` is the count that it logs. */
  method ExtractCompleteFrames(payload: seq<Byte>) returns (complete: seq<Byte>, remainder: seq<Byte>, dropped: nat)
    ensures complete == Flat(Extract(payload).frames) && remainder == Extract(payload).rest
    ensures |payload| == dropped + |complete| + |remainder|
  {
    hide Extract, FrameAt, Flat, Before;
    var parts: seq<seq<Byte>> := [];
    var cursor: nat, lastGoodEnd: nat := 0, 0;
    dropped := 0;
    NothingYet(payload);
    while cursor + 4 <= |payload|
      invariant lastGoodEnd <= cursor && lastGoodEnd <= |payload|
      invariant Extract(payload) == Before(parts, Extract(payload[lastGoodEnd..]))
      invariant NoneBetween(payload, lastGoodEnd, cursor)
      invariant lastGoodEnd == dropped + |Flat(parts)|
      decreases |payload| - cursor
    {
      Parsed(payload, cursor);
      if payload[cursor] != 0xFF || payload[cursor + 1] / 32 != 7 {
        cursor := cursor + 1;
        continue;
      }
      var frameLength := ParseFrameLength(payload[cursor], payload[cursor + 1], payload[cursor + 2]);
      if frameLength == None {
        cursor := cursor + 1;
        continue;
      }
      var frameEnd := cursor + frameLength.value;
      HeaderFound(payload, lastGoodEnd, cursor);
      if frameEnd > |payload| {
        break;
      }
      if cursor > lastGoodEnd {
        dropped := dropped + (cursor - lastGoodEnd);
      }
      BeforeMore(parts, payload[cursor..frameEnd], Extract(payload[frameEnd..]));
      parts := parts + [payload[cursor..frameEnd]];
      lastGoodEnd := frameEnd;
      cursor := frameEnd;
    }
    NoFrameLeft(payload, lastGoodEnd, cursor);
    NothingMore(parts, payload[lastGoodEnd..]);
    complete := Flat(parts);
    remainder := payload[lastGoodEnd..];
  }

  function Before(parts: seq<seq<Byte>>, s: Split): Split { Split(parts + s.frames, s.rest) }

  lemma NothingYet(p: seq<Byte>)
    ensures Extract(p) == Before([], Extract(p[0..])) && Flat([]) == []
  {
    assert p[0..] == p && [] + Extract(p).frames == Extract(p).frames;
  }

  lemma NothingMore(parts: seq<seq<Byte>>, rest: seq<Byte>)
    ensures Before(parts, Split([], rest)) == Split(parts, rest)
  {
    assert parts + [] == parts;
  }

  lemma BeforeMore(parts: seq<seq<Byte>>, f: seq<Byte>, s: Split)
    ensures Before(parts, Split([f] + s.frames, s.rest)) == Before(parts + [f], s)
    ensures Flat(parts + [f]) == Flat(parts) + f
  {
    FlatMore(parts, f);
    assert parts + ([f] + s.frames) == parts + [f] + s.frames;
  }

  /** The test of the first two bytes skips nothing that parses. */
  lemma Parsed(p: seq<Byte>, i: nat)
    requires i + 4 <= |p|
    ensures FrameAt(p, i) == if p[i] == 0xFF && p[i + 1] / 32 == 7 then ParseFrameLength(p[i], p[i + 1], p[i + 2]) else None
    ensures FrameAt(p, i).Some? ==> End(p, i) == i + FrameAt(p, i).value
  {
  }

  /** The scan has stopped: at a frame that is not complete, or at the end. */
  lemma NoFrameLeft(p: seq<Byte>, last: nat, cursor: nat)
    requires last <= cursor && last <= |p| && NoneBetween(p, last, cursor)
    requires cursor + 4 > |p| || (FrameAt(p, cursor).Some? && !Whole(p, cursor))
    ensures Extract(p[last..]) == Split([], p[last..])
  {
    hide ParseFrameLength;
    if cursor + 4 > |p| {
      NothingFound(p, last);
    } else {
      HeaderFound(p, last, cursor);
    }
  }
}
