/** The audio sender of baidu_realtime_translation.py: packets of any size come in through
    a bounded queue, frames of one size go out, and silence fills long pauses. */
module AudioSender {
  import opened Basics

  datatype Frame = Real(bytes: seq<Byte>) | Silence(bytes: seq<Byte>)

  const MAX_QUEUE := 500
  const CHUNK_MS := 120

  /** Bytes of 16 bit samples in one chunk. */
  function ChunkLen(sampleRate: nat, channels: nat): nat {
    sampleRate * 2 * channels * CHUNK_MS / 1000
  }

  /** At the rate of the service a chunk fills its buffer of 3840 bytes, and in general it
      holds 120 ms: 6 bytes for every 25 samples a second and channel. */
  lemma ChunkIs(sampleRate: nat, channels: nat)
    ensures ChunkLen(16000, 1) == 3840
    ensures 25 * ChunkLen(sampleRate, channels) <= 6 * (sampleRate * channels) < 25 * (ChunkLen(sampleRate, channels) + 1)
  {
    assert sampleRate * 2 * channels * CHUNK_MS == 240 * (sampleRate * channels);
  }

  /** The real audio among the frames. */
  function RealBytes(frames: seq<Frame>): seq<Byte> {
    if frames == [] then []
    else
      var f := frames[|frames| - 1];
      RealBytes(frames[..|frames| - 1]) + if f.Real? then f.bytes else []
  }

  lemma RealMore(frames: seq<Frame>, f: Frame)
    ensures RealBytes(frames + [f]) == RealBytes(frames) + if f.Real? then f.bytes else []
  {
    assert (frames + [f])[..|frames|] == frames;
  }

  /** Every silence stands where all packets begun before it have been sent to their end. */
  ghost predicate SilenceBetweenPackets(sent: seq<Frame>, taken: seq<seq<Byte>>) {
    forall i :: 0 <= i < |sent| && sent[i].Silence? ==> Boundary(RealBytes(sent[..i]), taken)
  }

  ghost predicate Boundary(bytes: seq<Byte>, taken: seq<seq<Byte>>) {
    exists k :: 0 <= k <= |taken| && bytes == Flat(taken[..k])
  }

  lemma MoreTaken(sent: seq<Frame>, taken: seq<seq<Byte>>, p: seq<Byte>)
    requires SilenceBetweenPackets(sent, taken)
    ensures SilenceBetweenPackets(sent, taken + [p])
  {
    forall i | 0 <= i < |sent| && sent[i].Silence?
      ensures Boundary(RealBytes(sent[..i]), taken + [p])
    {
      var k :| 0 <= k <= |taken| && RealBytes(sent[..i]) == Flat(taken[..k]);
      assert (taken + [p])[..k] == taken[..k];
    }
  }

  lemma MoreSent(sent: seq<Frame>, taken: seq<seq<Byte>>, f: Frame)
    requires SilenceBetweenPackets(sent, taken) && (f.Silence? ==> RealBytes(sent) == Flat(taken))
    ensures SilenceBetweenPackets(sent + [f], taken)
  {
    forall i | 0 <= i < |sent + [f]| && (sent + [f])[i].Silence?
      ensures Boundary(RealBytes((sent + [f])[..i]), taken)
    {
      assert (sent + [f])[..i] == sent[..i];
      if i == |sent| {
        assert sent[..i] == sent && taken[..|taken|] == taken;
      }
    }
  }

  lemma Regroup(a: seq<Byte>, b: seq<Byte>, c: seq<Byte>)
    ensures a + [] + (b + c) == a + b + c == a + b + [] + c
  {
  }

  /** What the other threads and the network do around one turn of the loop: calls of
      `add_audio`, a stop, a failing send, a failing write of the local copy. */
  datatype Trouble = Nothing | SendFails | SaveFails
  datatype Turn = Turn(puts: seq<seq<Byte>>, stop: bool, trouble: Trouble)

  /** Somebody stops the sender in one of the first n turns. */
  predicate Stopped(script: seq<Turn>, n: nat)
    requires n <= |script|
  {
    exists k :: 0 <= k < n && script[k].stop
  }

  lemma StoppedMore(script: seq<Turn>, n: nat)
    requires n < |script|
    ensures Stopped(script, n + 1) == (Stopped(script, n) || script[n].stop)
  {
  }

  // ---- pauses ----

  /** What the loop did: took a packet, found the queue empty, sent a frame, lost one. */
  datatype Did = Got | Empty | Sent(frame: Frame) | Lost

  /** How often the queue was found empty since the last packet or silence. */
  function Pause(log: seq<Did>): nat {
    if log == [] then 0
    else
      var last, before := log[|log| - 1], log[..|log| - 1];
      if last.Empty? then Pause(before) + 1 else if last.Lost? || (last.Sent? && last.frame.Real?) then Pause(before) else 0
  }

  /** Silence fills only long pauses. */
  ghost predicate LongPauses(log: seq<Did>) {
    forall i :: 0 <= i < |log| && log[i].Sent? && log[i].frame.Silence? ==> Pause(log[..i]) > 50
  }

  function Frames(log: seq<Did>): seq<Frame> {
    if log == [] then []
    else Frames(log[..|log| - 1]) + if log[|log| - 1].Sent? then [log[|log| - 1].frame] else []
  }

  /** The turns of the loop: each takes a packet, finds none, or sends a chunk or loses it.
      A silence is sent in a turn that finds no packet. */
  function Turns(log: seq<Did>): nat {
    if log == [] then 0
    else Turns(log[..|log| - 1]) + if log[|log| - 1].Sent? && log[|log| - 1].frame.Silence? then 0 else 1
  }

  function Takes(log: seq<Did>): nat {
    if log == [] then 0 else Takes(log[..|log| - 1]) + if log[|log| - 1].Got? then 1 else 0
  }

  lemma NothingLogged()
    ensures Turns([]) == Takes([]) == Pause([]) == 0
  {
  }

  lemma Logged(log: seq<Did>, d: Did)
    requires LongPauses(log) && (d.Sent? && d.frame.Silence? ==> Pause(log) > 50)
    ensures LongPauses(log + [d]) && Frames(log + [d]) == Frames(log) + if d.Sent? then [d.frame] else []
    ensures Pause(log + [d]) == if d.Empty? then Pause(log) + 1 else if d.Lost? || (d.Sent? && d.frame.Real?) then Pause(log) else 0
    ensures Turns(log + [d]) == Turns(log) + if d.Sent? && d.frame.Silence? then 0 else 1
    ensures Takes(log + [d]) == Takes(log) + if d.Got? then 1 else 0
  {
    assert (log + [d])[..|log|] == log;
    forall i | 0 <= i < |log + [d]| && (log + [d])[i].Sent? && (log + [d])[i].frame.Silence?
      ensures Pause((log + [d])[..i]) > 50
    {
      assert (log + [d])[..i] == if i < |log| then log[..i] else log;
    }
  }

  /** Where the loop began. */
  datatype Origin = Origin(running: bool, accepted: seq<seq<Byte>>, sent: seq<Frame>, taken: nat, script: seq<Turn>)

  class Sender {
    var isRunning: bool
    var queue: seq<seq<Byte>>
    var accumulated: seq<Byte>
    var sent: seq<Frame>
    const chunkLen: nat
    const saveEnabled: bool
    ghost var accepted: seq<seq<Byte>>  // the packets that add_audio has put into the queue
    ghost var taken: seq<seq<Byte>>     // those that the loop has taken out
    ghost var lost: seq<Byte>           // a frame whose sending failed
    ghost var log: seq<Did>

    ghost predicate FrameOk(f: Frame) {
      |f.bytes| == chunkLen && (f.Silence? ==> forall k :: 0 <= k < chunkLen ==> f.bytes[k] == 0)
    }

    ghost predicate Valid()
      reads this
    {
      && accepted == taken + queue && |queue| <= MAX_QUEUE
      && RealBytes(sent) + lost + accumulated == Flat(taken)
      && (forall f :: f in sent ==> FrameOk(f))
      && (lost == [] || |lost| == chunkLen)
      && SilenceBetweenPackets(sent, taken) && LongPauses(log) && Frames(log) == sent
    }

    constructor (sampleRate: nat, channels: nat, save: bool)
      ensures Valid() && isRunning && accepted == [] && sent == [] && lost == [] && log == []
      ensures chunkLen == ChunkLen(sampleRate, channels)
    {
      isRunning, queue, accumulated, sent := true, [], [], [];
      chunkLen, saveEnabled := ChunkLen(sampleRate, channels), save;
      accepted, taken, lost, log := [], [], [], [];
    }

    /** `add_audio` */
    method AddAudio(data: seq<Byte>)
      requires Valid()
      modifies this`queue, this`accepted
      ensures Valid()
      ensures accepted == old(accepted) + if isRunning && |old(queue)| < MAX_QUEUE then [data] else []
    {
      if isRunning && |queue| < MAX_QUEUE {
        queue := queue + [data];
        accepted := accepted + [data];
      }
    }

    /** The calls of other threads between two turns of the loop. */
    method Interfere(turn: Turn)
      requires Valid()
      modifies this`queue, this`accepted, this`isRunning
      ensures Valid() && old(accepted) <= accepted && isRunning == (old(isRunning) && !turn.stop)
    {
      var i := 0;
      while i < |turn.puts|
        invariant 0 <= i && Valid() && old(accepted) <= accepted && isRunning == old(isRunning)
      {
        AddAudio(turn.puts[i]);
        i := i + 1;
      }
      if turn.stop {
        isRunning := false;
      }
    }

    /** `ws.send` of one frame. */
    method Send(f: Frame, ok: bool)
      requires SilenceBetweenPackets(sent, taken) && LongPauses(log) && Frames(log) == sent
      requires f.Silence? ==> RealBytes(sent) == Flat(taken) && Pause(log) > 50
      modifies this`sent, this`log
      ensures sent == old(sent) + if ok then [f] else []
      ensures SilenceBetweenPackets(sent, taken) && LongPauses(log) && Frames(log) == sent
      ensures RealBytes(sent) == RealBytes(old(sent)) + if ok && f.Real? then f.bytes else []
      ensures Pause(log) == if ok && f.Silence? then 0 else Pause(old(log))
      ensures Turns(log) == Turns(old(log)) + (if f.Real? then 1 else 0) && Takes(log) == Takes(old(log))
    {
      hide RealBytes, Flat, SilenceBetweenPackets, Pause, LongPauses, Frames, Turns, Takes;
      if ok {
        MoreSent(sent, taken, f);
        RealMore(sent, f);
        Logged(log, Sent(f));
        sent := sent + [f];
        log := log + [Sent(f)];
      } else if f.Real? {
        Logged(log, Lost);
        log := log + [Lost];
      }
    }

    /** Trouble that ends the loop if it meets the sending of a chunk. */
    predicate Fatal(trouble: Trouble) {
      trouble == SendFails || (trouble == SaveFails && saveEnabled)
    }

    /** The loop has made so many turns since o, and the last one failed or not. */
    ghost predicate Went(o: Origin, turns: nat, failed: bool)
      reads this
    {
      && Valid() && o.accepted <= accepted && o.sent <= sent
      && turns == Turns(log) <= |o.script| && |taken| == o.taken + Takes(log)
      && isRunning == (o.running && !Stopped(o.script, turns))
      && (failed ==> turns > 0 && Fatal(o.script[turns - 1].trouble))
      && (lost != [] ==> failed && o.script[turns - 1].trouble == SendFails)
    }

    /** `_send_audio_thread`, as long as the script of its surroundings lasts.  It ends when
        stopped or when a send or a local write fails; each turn does something; and nothing
        is lost unless sending a frame fails, and then only that frame. */
    method SendAudioThread(script: seq<Turn>) returns (failed: bool, turns: nat)
      requires Valid() && lost == [] && log == []
      modifies this
      ensures Valid() && old(accepted) <= accepted && old(sent) <= sent
      ensures turns == Turns(log) <= |script| && |taken| == |old(taken)| + Takes(log)
      ensures isRunning == (old(isRunning) && !Stopped(script, turns))
      ensures failed ==> turns > 0 && Fatal(script[turns - 1].trouble)
      ensures lost != [] ==> failed && script[turns - 1].trouble == SendFails
      ensures !failed ==> !isRunning || turns == |script|
    {
      failed, turns := false, 0;
      ghost var o := Origin(isRunning, accepted, sent, |taken|, script);
      var consecutiveEmpty: nat := 0;
      Begins(o);
      while isRunning && turns < |script|
        invariant turns <= |script| && !failed && Went(o, turns, false) && consecutiveEmpty == Pause(log)
        decreases |script| - turns
      {
        hide Went, Pause;
        failed, consecutiveEmpty := Round(script[turns], consecutiveEmpty, turns, o);
        turns := turns + 1;
        if failed {
          break;
        }
      }
    }

    lemma Begins(o: Origin)
      requires Valid() && lost == [] && log == [] && o.running == isRunning && o.accepted == accepted && o.sent == sent && o.taken == |taken|
      ensures Went(o, 0, false) && Pause(log) == 0
    {
      NothingLogged();
    }

    /** What the surroundings do, and a turn of the loop. */
    method Round(turn: Turn, empties: nat, ghost turns: nat, ghost o: Origin) returns (failed: bool, consecutiveEmpty: nat)
      requires turns < |o.script| && turn == o.script[turns] && Went(o, turns, false) && empties == Pause(log)
      modifies this
      ensures Went(o, turns + 1, failed) && (!failed ==> consecutiveEmpty == Pause(log))
    {
      hide Valid, Pause, Turns, Takes, Stopped, Fatal;
      StoppedMore(o.script, turns);
      Interfere(turn);
      failed, consecutiveEmpty := LoopTurn(turn.trouble, empties);
    }

    /** One frame of zeros has been sent. */
    ghost predicate IsSilenceAfter(before: seq<Frame>, after: seq<Frame>) {
      && |after| == |before| + 1 && after[..|before|] == before && after[|before|].Silence?
      && |after[|before|].bytes| == chunkLen && forall k :: 0 <= k < chunkLen ==> after[|before|].bytes[k] == 0
    }

    /** One turn, after what the surroundings have done. */
    method LoopTurn(trouble: Trouble, empties: nat) returns (failed: bool, consecutiveEmpty: nat)
      requires Valid() && lost == [] && empties == Pause(log)
      modifies this`accumulated, this`queue, this`taken, this`sent, this`lost, this`log
      ensures Valid() && old(sent) <= sent && Turns(log) == Turns(old(log)) + 1
      ensures |taken| - Takes(log) == |old(taken)| - Takes(old(log))
      ensures (failed ==> Fatal(trouble)) && (lost != [] ==> failed && trouble == SendFails)
      ensures !failed ==> consecutiveEmpty == Pause(log)
      ensures |old(accumulated)| >= chunkLen ==>
                && failed == Fatal(trouble) && accumulated == old(accumulated)[chunkLen..] && queue == old(queue)
                && sent == old(sent) + (if trouble == SendFails then [] else [Real(old(accumulated)[..chunkLen])])
                && consecutiveEmpty == empties
      ensures |old(accumulated)| < chunkLen && old(queue) != [] ==>
                && !failed && accumulated == old(accumulated) + old(queue)[0] && queue == old(queue)[1..]
                && sent == old(sent) && consecutiveEmpty == 0
      ensures |old(accumulated)| < chunkLen && old(queue) == [] ==>
                var due := old(accumulated) == [] && empties + 1 > 50;
                && accumulated == old(accumulated) && queue == [] && failed == (due && trouble == SendFails)
                && (if due && !failed then IsSilenceAfter(old(sent), sent) && consecutiveEmpty == 0
                    else sent == old(sent) && (!failed ==> consecutiveEmpty == empties + 1))
    {
      hide RealBytes, Flat, SilenceBetweenPackets, LongPauses, Frames, Pause, Turns, Takes;
      failed, consecutiveEmpty := false, empties;
      if |accumulated| >= chunkLen {
        failed := SendChunk(trouble);
        return;
      }
      if queue == [] {
        consecutiveEmpty := consecutiveEmpty + 1;
        Logged(log, Empty);
        log := log + [Empty];
        if |accumulated| > 0 {
          return;
        } else if consecutiveEmpty > 50 {
          Send(Silence(seq(chunkLen, _ => 0)), trouble != SendFails);
          if trouble == SendFails {
            failed := true;
            return;
          }
          consecutiveEmpty := 0;
        }
        return;
      }
      consecutiveEmpty := 0;
      TakePacket();
    }

    /** One chunk leaves the accumulated bytes. */
    method SendChunk(trouble: Trouble) returns (failed: bool)
      requires Valid() && lost == [] && |accumulated| >= chunkLen
      modifies this`accumulated, this`sent, this`lost, this`log
      ensures Valid() && Pause(log) == Pause(old(log)) && Turns(log) == Turns(old(log)) + 1 && Takes(log) == Takes(old(log))
      ensures failed == Fatal(trouble)
      ensures var chunk := old(accumulated)[..chunkLen];
              && accumulated == old(accumulated)[chunkLen..]
              && sent == old(sent) + (if trouble == SendFails then [] else [Real(chunk)])
              && lost == if trouble == SendFails then chunk else []
    {
      hide RealBytes, Flat, SilenceBetweenPackets, Pause, LongPauses, Frames, Turns, Takes;
      var toSend := accumulated[..chunkLen];
      accumulated := accumulated[chunkLen..];
      Send(Real(toSend), trouble != SendFails);
      failed := trouble == SendFails || (trouble == SaveFails && saveEnabled);
      if trouble == SendFails {
        lost := toSend;
      }
      assert toSend + accumulated == old(accumulated);
      Regroup(RealBytes(old(sent)), toSend, accumulated);
    }

    /** The next packet joins the accumulated bytes. */
    method TakePacket()
      requires Valid() && queue != []
      modifies this`accumulated, this`queue, this`taken, this`log
      ensures Valid() && Pause(log) == 0 && Turns(log) == Turns(old(log)) + 1 && Takes(log) == Takes(old(log)) + 1
      ensures |taken| == |old(taken)| + 1 && accumulated == old(accumulated) + old(queue)[0] && queue == old(queue)[1..]
    {
      hide RealBytes, Flat, SilenceBetweenPackets, Pause, LongPauses, Frames, Turns, Takes;
      MoreTaken(sent, taken, queue[0]);
      FlatMore(taken, queue[0]);
      accumulated := accumulated + queue[0];
      Logged(log, Got);
      log := log + [Got];
      taken := taken + [queue[0]];
      queue := queue[1..];
    }

    /** The real bytes sent, then a frame that failed, then the bytes waiting for a full
        chunk, then the packets still queued, are the packets accepted, in order. */
    lemma NothingIsLost()
      requires Valid()
      ensures RealBytes(sent) + lost + accumulated + Flat(queue) == Flat(accepted)
    {
      FlatConcat(taken, queue);
    }

    /** Silence is sent only where no packet has been begun and not finished. */
    lemma SilenceSplitsNothing(i: nat)
      requires Valid() && i < |sent| && sent[i].Silence?
      ensures exists k :: 0 <= k <= |accepted| && RealBytes(sent[..i]) == Flat(accepted[..k])
    {
      var k :| 0 <= k <= |taken| && RealBytes(sent[..i]) == Flat(taken[..k]);
      assert accepted[..k] == taken[..k];
    }
  }
}
