/** The `TalkingLLM` object: the recording flag and frame buffer, the tabular
    agent, the reply queue and the speech worker loop. The services it drives
    (Whisper transcription, the pandas agent's `invoke`, text to speech, the
    WAV file, the audio devices) are outside the model: their results arrive
    as parameters, and the calls made to them are kept, in order, in the ghost
    log `calls`. */
module TalkingLlm {
  import opened Options
  import opened Recording
  import Speech

  /** Constructor defaults and the fixed settings of the recording. */
  const DefaultModel := "gpt-3.5-turbo-0613"
  const DefaultDataset := "df_rent.csv"
  const WavPath := "test.wav"
  const SampleRate: nat := 44100
  const Channels: nat := 1
  const SampleWidth: nat := 2

  /** The pandas dataframe agent, known only by the chat model it uses and the
      CSV file its dataframe was read from. */
  datatype Agent = PandasAgent(llm: string, dataset: string)

  /** A call into a service outside the model. `WriteWav` also records whether
      the recording flag was up when the buffer was written. */
  datatype Call =
    | ReadCsv(path: string)
    | WriteWav(path: string, channels: nat, sampleWidth: nat, frameRate: nat,
               frames: seq<Frame>, recording: bool)
    | Transcribe(path: string)
    | Invoke(agent: Agent, text: string)
    | Display(userText: string, reply: string)

  /** How a call ends: normally, or with the `AttributeError` raised when the
      agent is used before any dataset was ever loaded. */
  datatype Exit = Returned | NoAgent

  /** Whether the save step raises: a transcript was obtained but there is no
      agent to ask. */
  predicate Raises(agent: Option<Agent>, heard: Option<string>)
  {
    heard.Some? && agent.None?
  }

  /** The replies the save step puts on the speech queue. */
  function Replies(agent: Option<Agent>, heard: Option<string>, answer: (Agent, string) -> string): seq<string>
  {
    if heard.Some? && agent.Some? then [answer(agent.value, heard.value)] else []
  }

  /** The calls the save step makes, in order: write the WAV file, transcribe
      it, and, given a transcript and an agent, ask the agent and show the
      exchange when a display callback is set. */
  ghost function SaveCalls(frames: seq<Frame>, recording: bool, agent: Option<Agent>,
                           heard: Option<string>, answer: (Agent, string) -> string,
                           display: bool): seq<Call>
  {
    [WriteWav(WavPath, Channels, SampleWidth, SampleRate, frames, recording), Transcribe(WavPath)]
    + if heard.Some? && agent.Some? then
        [Invoke(agent.value, heard.value)]
        + (if display then [Display(heard.value, answer(agent.value, heard.value))] else [])
      else []
  }

  class TalkingLLM {
    var isRecording: bool
    var audioData: seq<Frame>
    const model: string
    /** `None` until a dataset has been read successfully. */
    var agent: Option<Agent>
    /** Whether a display callback has been set. */
    var displayCallback: bool
    /** Every reply put on the speech queue, in order. */
    var llmQueue: seq<string>
    ghost var calls: seq<Call>

    /** The recording session as the pure state machine sees it. */
    function Session(): Recorder
      reads this
    {
      Recorder(isRecording, audioData)
    }

    /** A fresh object is not recording, has an empty buffer and an empty
        queue, and holds an agent exactly when the default dataset could be
        read. */
    constructor (model: string := DefaultModel, disk: set<string>)
      ensures Session() == Idle
      ensures this.model == model && !displayCallback && llmQueue == []
      ensures agent == if DefaultDataset in disk then Some(PandasAgent(model, DefaultDataset)) else None
      ensures calls == [ReadCsv(DefaultDataset)]
    {
      isRecording := false;
      audioData := [];
      this.model := model;
      agent := None;
      displayCallback := false;
      llmQueue := [];
      calls := [];
      new;
      CreateAgent(DefaultDataset, disk);
    }

    method SetDisplayCallback(present: bool)
      modifies this`displayCallback
      ensures displayCallback == present
    {
      displayCallback := present;
    }

    /** Read the CSV at `dfPath` (`disk` holds the paths that exist)
        and, only if that succeeds, bind a new agent to it. A missing file
        returns normally and keeps the previous agent. */
    method CreateAgent(dfPath: string := DefaultDataset, disk: set<string>)
      modifies this`agent, this`calls
      ensures calls == old(calls) + [ReadCsv(dfPath)]
      ensures dfPath in disk ==> agent == Some(PandasAgent(model, dfPath))
      ensures dfPath !in disk ==> agent == old(agent)
    {
      calls := calls + [ReadCsv(dfPath)];
      if dfPath !in disk {
        return;
      }
      agent := Some(PandasAgent(model, dfPath));
    }

    method LoadNewDataframe(dfPath: string, disk: set<string>)
      modifies this`agent, this`calls
      ensures calls == old(calls) + [ReadCsv(dfPath)]
      ensures dfPath in disk ==> agent == Some(PandasAgent(model, dfPath))
      ensures dfPath !in disk ==> agent == old(agent)
    {
      CreateAgent(dfPath, disk);
    }

    /** Write the buffer to the WAV file, transcribe it (`heard` is the
        transcript, `None` when transcription fails for a missing file), ask
        the agent (`answer` stands for its replies), queue the reply and show
        the exchange. */
    method SaveAndTranscribe(heard: Option<string>, answer: (Agent, string) -> string)
      returns (exit: Exit)
      modifies this`llmQueue, this`calls
      ensures exit == if Raises(agent, heard) then NoAgent else Returned
      ensures llmQueue == old(llmQueue) + Replies(agent, heard, answer)
      ensures calls == old(calls) + SaveCalls(audioData, isRecording, agent, heard, answer, displayCallback)
    {
      calls := calls + [WriteWav(WavPath, Channels, SampleWidth, SampleRate, audioData, isRecording)];
      calls := calls + [Transcribe(WavPath)];
      if heard.None? {
        return Returned;
      }
      var userText := heard.value;
      if agent.None? {
        return NoAgent;
      }
      var reply := answer(agent.value, userText);
      calls := calls + [Invoke(agent.value, userText)];
      llmQueue := llmQueue + [reply];
      if displayCallback {
        calls := calls + [Display(userText, reply)];
      }
      exit := Returned;
    }

    /** The hotkey toggle. Starting empties the buffer before raising the
        flag; stopping lowers the flag before the save step runs and empties
        the buffer after it, unless the save step raised. */
    method StartOrStopRecording(heard: Option<string>, answer: (Agent, string) -> string)
      returns (exit: Exit)
      modifies this`isRecording, this`audioData, this`llmQueue, this`calls
      ensures !old(isRecording) ==>
        exit == Returned && isRecording && audioData == []
        && llmQueue == old(llmQueue) && calls == old(calls)
      ensures old(isRecording) ==>
        !isRecording
        && exit == (if Raises(agent, heard) then NoAgent else Returned)
        && llmQueue == old(llmQueue) + Replies(agent, heard, answer)
        && calls == old(calls) + SaveCalls(old(audioData), false, agent, heard, answer, displayCallback)
        && audioData == (if exit == NoAgent then old(audioData) else [])
      ensures Session() == Apply(old(Session()), Toggle(exit == NoAgent))
    {
      if isRecording {
        isRecording := false;
        exit := SaveAndTranscribe(heard, answer);
        if exit == NoAgent {
          return;
        }
        audioData := [];
      } else {
        audioData := [];
        isRecording := true;
        exit := Returned;
      }
    }

    /** The input stream's callback: the chunk joins the end of the buffer
        while the flag is up; otherwise nothing changes. */
    method CaptureCallback(indata: seq<Frame>)
      modifies this`audioData
      ensures audioData == if isRecording then old(audioData) + indata else old(audioData)
      ensures Session() == Apply(old(Session()), Chunk(indata))
    {
      if isRecording {
        audioData := audioData + indata;
      }
    }

    /** The speech worker run over every reply queued so far: the texts handed
        to synthesis, in order, and the pending text left at the top of the
        next iteration. */
    method ConvertAndPlay() returns (spoken: seq<string>, ttsText: string)
      ensures Speech.Drained(spoken, ttsText) == Speech.Run("", llmQueue)
      ensures Speech.Concat(spoken) + ttsText == Speech.Concat(llmQueue)
      ensures !Speech.HasTerminator(ttsText)
      ensures forall i :: 0 <= i < |spoken| ==> Speech.HasTerminator(spoken[i])
    {
      ttsText := "";
      spoken := [];
      var i := 0;
      while i < |llmQueue|
        invariant 0 <= i <= |llmQueue|
        invariant Speech.Drained(spoken, ttsText) == Speech.Run("", llmQueue[..i])
      {
        assert llmQueue[..i + 1][..i] == llmQueue[..i];
        var said;
        said, ttsText := Speech.Feed(ttsText, llmQueue[i]);
        if said.Some? {
          spoken := spoken + [said.value];
        }
        i := i + 1;
      }
      assert llmQueue[..i] == llmQueue;
      Speech.RunConservesText("", llmQueue);
      assert "" + Speech.Concat(llmQueue) == Speech.Concat(llmQueue);
    }
  }
}
