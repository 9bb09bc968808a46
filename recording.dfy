/** The recording session of `TalkingLLM` as a pure state machine: the
    `is_recording` flag and the `audio_data` frame buffer, driven by hotkey
    toggles and by the chunks the audio input stream delivers. */
module Recording {

  /** One mono frame of 16-bit signed PCM (the stream is opened with
      `channels = 1` and `dtype = 'int16'`). */
  newtype Int16 = x: int | -0x8000 <= x < 0x8000
  type Frame = Int16

  /** `is_recording` and `audio_data`. */
  datatype Recorder = Recorder(recording: bool, buffer: seq<Frame>)

  /** A freshly constructed object: not recording, empty buffer. */
  const Idle := Recorder(false, [])

  /** What can happen to the session: a hotkey toggle or a chunk of frames
      from the input-stream callback. A toggle that stops a session runs the
      save step between lowering the flag and emptying the buffer; `raised`
      says that the save step raised (a transcript but no agent), so the
      buffer was never emptied. A toggle that starts a session runs no save
      step, and `raised` has no effect on it. */
  datatype Input = Toggle(raised: bool) | Chunk(frames: seq<Frame>)

  /** One input. Starting clears the buffer before raising the flag. Stopping
      lowers the flag and empties the buffer, unless the save step raised, in
      which case the frames stay. A chunk is appended only while the flag is
      up. */
  function Apply(r: Recorder, e: Input): Recorder
  {
    match e
    case Toggle(raised) =>
      if r.recording then Recorder(false, if raised then r.buffer else [])
      else Recorder(true, [])
    case Chunk(fs) => if r.recording then r.(buffer := r.buffer + fs) else r
  }

  /** The state after a run of inputs, starting from a fresh object. */
  function Replay(es: seq<Input>): Recorder
  {
    if es == [] then Idle else Apply(Replay(es[..|es| - 1]), es[|es| - 1])
  }

  // ---------------------------------------------------------------------
  // An independent description of the same state: the flag is up after an
  // odd number of toggles. While it is up, the buffer holds exactly the
  // frames that arrived after the last toggle. While it is down, the buffer
  // is empty, unless the last toggle was a stop whose save step raised: then
  // it holds the frames of the session that toggle closed.

  /** Number of toggles in `es`. */
  function Toggles(es: seq<Input>): nat
  {
    if es == [] then 0
    else Toggles(es[..|es| - 1]) + (if es[|es| - 1].Toggle? then 1 else 0)
  }

  /** Index of the last toggle in `es`, or -1 when there is none. */
  function LastToggle(es: seq<Input>): (k: int)
    ensures -1 <= k < |es|
    ensures k >= 0 ==> es[k].Toggle?
    ensures forall i :: k < i < |es| ==> es[i].Chunk?
  {
    if es == [] then -1
    else if es[|es| - 1].Toggle? then |es| - 1
    else LastToggle(es[..|es| - 1])
  }

  /** All frames delivered by the chunks of `es`, in arrival order. */
  function Frames(es: seq<Input>): seq<Frame>
  {
    if es == [] then []
    else Frames(es[..|es| - 1]) + (if es[|es| - 1].Chunk? then es[|es| - 1].frames else [])
  }

  /** Parity, counted down so that the solver never reasons about `%`. */
  predicate Odd(n: nat)
  {
    if n == 0 then false else !Odd(n - 1)
  }

  /** The recorder state as the reference description gives it. */
  function Expected(es: seq<Input>): Recorder
  {
    var on := Odd(Toggles(es));
    var k := LastToggle(es);
    if on then Recorder(true, Frames(es[k + 1..]))
    else if k >= 0 && es[k].raised then Recorder(false, Frames(es[LastToggle(es[..k]) + 1..k]))
    else Idle
  }

  /** The four recursive definitions, unfolded at a run's last input. */
  lemma Unfold(p: seq<Input>, e: Input)
    ensures Replay(p + [e]) == Apply(Replay(p), e)
    ensures Toggles(p + [e]) == Toggles(p) + (if e.Toggle? then 1 else 0)
    ensures LastToggle(p + [e]) == if e.Toggle? then |p| else LastToggle(p)
    ensures Frames(p + [e]) == Frames(p) + (if e.Chunk? then e.frames else [])
  {
    assert (p + [e])[..|p|] == p;
  }

  /** The state machine agrees with the reference description on every run:
      the flag is up exactly between a start and a stop, and no frame survives
      from before the most recent toggle or arrives while the flag is down. */
  lemma {:induction false} ReplayIsExpected(es: seq<Input>)
    ensures Replay(es) == Expected(es)
  {
    if es != [] {
      ReplayIsExpected(es[..|es| - 1]);
      StepIsExpected(es);
    }
  }

  /** Induction step of ReplayIsExpected: one more input at the end. */
  lemma StepIsExpected(es: seq<Input>)
    requires es != []
    requires Replay(es[..|es| - 1]) == Expected(es[..|es| - 1])
    ensures Replay(es) == Expected(es)
  {
    if es[|es| - 1].Toggle? {
      ToggleStepIsExpected(es);
    } else {
      ChunkStepIsExpected(es);
    }
  }

  /** The step for a toggle: the parity flips; a start leaves an empty
      buffer, a stop an empty one or, when its save step raised, the frames of
      the session it closed. */
  lemma ToggleStepIsExpected(es: seq<Input>)
    requires es != [] && es[|es| - 1].Toggle?
    requires Replay(es[..|es| - 1]) == Expected(es[..|es| - 1])
    ensures Replay(es) == Expected(es)
  {
    var n := |es| - 1;
    var p := es[..n];
    assert Toggles(es) == Toggles(p) + 1;
    assert LastToggle(es) == n;
    if Odd(Toggles(p)) && es[n].raised {
      var j := LastToggle(p);
      assert es[j + 1..n] == p[j + 1..];
    } else {
      assert es[n + 1..] == [];
    }
  }

  /** The step for a chunk: the toggles are as before, and the chunk's frames
      join the buffer exactly when a session is open. */
  lemma ChunkStepIsExpected(es: seq<Input>)
    requires es != [] && es[|es| - 1].Chunk?
    requires Replay(es[..|es| - 1]) == Expected(es[..|es| - 1])
    ensures Replay(es) == Expected(es)
  {
    var n := |es| - 1;
    var p := es[..n];
    assert Toggles(es) == Toggles(p);
    assert LastToggle(es) == LastToggle(p);
    var k := LastToggle(p);
    if Odd(Toggles(p)) {
      var tail := es[k + 1..];
      assert tail[..|tail| - 1] == p[k + 1..];
      assert tail[|tail| - 1] == es[n];
      assert Frames(tail) == Frames(p[k + 1..]) + es[n].frames;
      assert Replay(es).buffer == Replay(p).buffer + es[n].frames;
    } else {
      assert Replay(es) == Replay(p);
      if k >= 0 {
        assert es[k] == p[k];
        assert es[..k] == p[..k];
        assert es[LastToggle(es[..k]) + 1..k] == p[LastToggle(p[..k]) + 1..k];
      }
    }
  }

  /** Chunks never change the number of toggles, nor which toggle is last. */
  lemma {:induction false} ChunksKeepToggles(es: seq<Input>, chunks: seq<Input>)
    requires forall i :: 0 <= i < |chunks| ==> chunks[i].Chunk?
    ensures Toggles(es + chunks) == Toggles(es)
    ensures LastToggle(es + chunks) == LastToggle(es)
  {
    if chunks == [] {
      assert es + chunks == es;
    } else {
      var n := |chunks| - 1;
      assert es + chunks == (es + chunks[..n]) + [chunks[n]];
      assert chunks[n].Chunk?;
      ChunksKeepToggles(es, chunks[..n]);
      Unfold(es + chunks[..n], chunks[n]);
    }
  }

  /** Once a session has started, the buffer is exactly the frames delivered
      since the start, whatever the earlier sessions recorded, including the
      frames a raising stop left behind. */
  lemma SessionBufferIsFreshChunks(before: seq<Input>, start: Input, chunks: seq<Input>)
    requires !Odd(Toggles(before)) && start.Toggle?
    requires forall i :: 0 <= i < |chunks| ==> chunks[i].Chunk?
    ensures Replay(before + [start] + chunks) == Recorder(true, Frames(chunks))
  {
    var started := before + [start];
    var es := started + chunks;
    Unfold(before, start);
    ChunksKeepToggles(started, chunks);
    var x := Toggles(before);
    assert Toggles(es) == x + 1;
    assert LastToggle(es) + 1 == |started|;
    assert es[|started|..] == chunks;
    ReplayIsExpected(es);
  }

  /** A stop whose save step returns normally leaves an empty buffer behind,
      and the object is back in its initial state. */
  lemma StopEmptiesBuffer(es: seq<Input>)
    requires Odd(Toggles(es))
    ensures Replay(es + [Toggle(false)]) == Idle
  {
    ReplayIsExpected(es);
    Unfold(es, Toggle(false));
  }

  /** A stop whose save step raised lowers the flag but keeps every frame of
      the session it closed. */
  lemma RaisingStopKeepsBuffer(es: seq<Input>)
    requires Odd(Toggles(es))
    ensures Replay(es + [Toggle(true)]) == Recorder(false, Replay(es).buffer)
  {
    ReplayIsExpected(es);
    Unfold(es, Toggle(true));
  }
}
