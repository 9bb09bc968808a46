# Jarvas voice assistant: the `TalkingLLM` core in Dafny

Jarvas records microphone audio while a hotkey toggle is on, has Whisper
transcribe it, asks a pandas-dataframe agent about the transcript, and speaks
the agent's reply through text to speech. Everything outside the `TalkingLLM`
class in `talking_llm.py` is glue around external services. This project
models the state that class keeps and the three state machines it runs:

- **Recording session** (`recording.dfy`, module `Recording`). The
  `is_recording` flag and the `audio_data` frame buffer form a pure state
  machine driven by hotkey toggles and input-stream chunks. The lemmas prove
  that it agrees with an independent description on every run of inputs.
  The flag is up after an odd number of toggles. While it is up, the buffer
  holds exactly the frames delivered since the last toggle. While it is down,
  the buffer is empty, unless the last stop's save step raised; then it still
  holds the frames of the session that stop closed.
- **Sentence accumulator** (`speech.dfy`, module `Speech`). One iteration of
  the `convert_and_play` loop is `Step` (specification) and `Feed` (code). A
  run over the queued replies is `Run`. The lemmas show that no text is dropped
  or reordered. Synthesis happens exactly when the pending text holds `.`, `?`
  or `!`, and it receives the whole pending text. Replies without a terminator
  wait, and replies that each end a sentence are spoken one by one.
- **The object** (`talking_llm.dfy`, module `TalkingLlm`). The class
  `TalkingLLM` has the source's fields: `isRecording`, `audioData`, `agent`,
  `displayCallback` and `llmQueue`. Its methods have `modifies` clauses that
  name the fields they change. A ghost log `calls` records, with their
  arguments and in order, the CSV reads, the WAV write, the transcription,
  the agent's `invoke` and the display callback. Text to speech is not in
  that log: each text handed to synthesis is an element of the `spoken`
  result of `ConvertAndPlay`, and the synthesised audio is dropped rather
  than passed in. The recording methods are tied to `Recording.Apply`, and `ConvertAndPlay` is tied to `Speech.Run`.

External services are parameters:
- `heard: Option<string>` is Whisper's transcript. `None` means transcription
  raised `FileNotFoundError`, for example because FFmpeg is missing.
- `answer: (Agent, string) -> string` stands for the agent's replies.
- `disk: set<string>` is the set of paths that exist. Any other path is a
  `FileNotFoundError` for `pd.read_csv`.

`options.dfy` holds the `Option` type.

Behaviour of the source worth knowing:
- Synthesis receives the entire pending text (talking_llm.py:126-129). When
  several sentences, or text after a terminator, arrive together, they are
  spoken in one synthesis, not once per sentence
  (`Speech.WholePendingTextIsSpoken`, `Speech.WholePendingTextExample`).
- A dataset that fails to load leaves the previous agent in place
  (talking_llm.py:66-80): `self.agent` is assigned only after `pd.read_csv`
  returns, and a `FileNotFoundError` returns before that.
- Stopping a recording hands the buffer to the save step and then empties it
  (talking_llm.py:53-54). If the save step raises because no agent was ever
  created (talking_llm.py:106), line 54 is skipped: the flag is down and the
  buffer keeps the session's frames (`Recording.RaisingStopKeepsBuffer`).

## Model

| member | source | states |
|---|---|---|
| `Recording.ReplayIsExpected` | talking_llm.py:49-58 | After any sequence of toggles and capture chunks, the flag is up exactly after an odd number of toggles. While it is up, the buffer is exactly the frames that arrived after the last toggle. While it is down, the buffer is empty, unless the last toggle was a stop whose save step raised; then it holds the frames of the session that stop closed. |
| `Recording.SessionBufferIsFreshChunks` | talking_llm.py:55-58 | Once a session has started, the buffer holds only the frames captured since the start, in arrival order. No frame survives from an earlier session, not even frames a raising stop left behind. |
| `Recording.StopEmptiesBuffer` | talking_llm.py:51-54 | A stop whose save step returns normally leaves the flag down and the buffer empty, which is the state of a fresh object. |
| `Recording.RaisingStopKeepsBuffer` | talking_llm.py:51-54 | A stop whose save step raised lowers the flag but keeps every frame of the session it closed, because line 54 is never reached. |
| `Speech.Step` | talking_llm.py:120-141 | One loop iteration. Synthesis happens if and only if pending text plus reply holds `.`, `?` or `!`. It then gets that whole text, and the pending text becomes `''`. Spoken text followed by pending text equals old pending text followed by the reply. The pending text carried over never holds a terminator. |
| `Speech.Feed` | talking_llm.py:120-141 | The loop body as code: appending, the terminator test, and the reset to `''` after synthesis produce exactly `Step`'s result. |
| `Speech.Run` | talking_llm.py:117-141 | Over a run of replies, at most one synthesis per reply, and every spoken text holds a terminator. After at least one reply, the pending text at the top of the loop holds none. |
| `Speech.RunConservesText` | talking_llm.py:118-120 | The spoken texts followed by the pending text equal the starting text followed by all dequeued replies. No reply is dropped or reordered. |
| `Speech.RunSplits` | talking_llm.py:117-141 | The worker's only state between iterations is the pending text. Running `a` and then `b` equals running `b` from what `a` left pending. |
| `Speech.UnterminatedRepliesWait` | talking_llm.py:122 | Replies without a terminator, arriving while the pending text has none, cause no synthesis. They accumulate in the pending text. |
| `Speech.TerminatedRepliesSpokenAlone` | talking_llm.py:122-141 | From an empty pending text, replies that each hold a terminator are each spoken exactly as queued, and nothing stays pending. |
| `Speech.WholePendingTextIsSpoken` | talking_llm.py:122-141 | Whenever a reply brings a terminator into the pending text, that iteration synthesises the entire pending text with the reply appended, including text after the terminator. It is not cut at the sentence end, and nothing stays pending. |
| `Speech.WholePendingTextExample` | talking_llm.py:126-129 | A concrete run: the replies `"Ok"` and `". Next"` give a single synthesis of `"Ok. Next"`, not one per sentence. |
| `TalkingLlm.TalkingLLM.constructor` | talking_llm.py:25-40 | A new object, whose model defaults to `gpt-3.5-turbo-0613`, is not recording and has an empty buffer and an empty queue. It has an agent bound to `df_rent.csv` exactly when that file exists. |
| `TalkingLlm.TalkingLLM.SetDisplayCallback` | talking_llm.py:45-47 | Sets whether a display callback is present and changes nothing else. |
| `TalkingLlm.TalkingLLM.CreateAgent` | talking_llm.py:60-80 | Reads the CSV. A readable path replaces the agent with one bound to that path and the object's model. A missing file returns normally and leaves the previous agent, including none, in place. |
| `TalkingLlm.TalkingLLM.LoadNewDataframe` | talking_llm.py:82-84 | Same contract as `CreateAgent` for the given path. |
| `TalkingLlm.TalkingLLM.SaveAndTranscribe` | talking_llm.py:86-115 | Writes the buffer as a mono 16-bit 44100 Hz WAV to `test.wav`, then transcribes it. A failed transcription returns normally with nothing queued. With a transcript and an agent, the agent is asked and exactly its reply is queued. The exchange is displayed only if a callback is set. With a transcript but no agent, the call raises and nothing is queued. |
| `TalkingLlm.TalkingLLM.StartOrStopRecording` | talking_llm.py:49-58 | Starting empties the buffer, raises the flag and calls nothing external. Stopping lowers the flag first, so the WAV is written with the flag down and holds the old buffer. Stopping then empties the buffer, unless the save step raised. On every exit, the new recording state is the pure machine's toggle, with `raised` set exactly when the call raised. |
| `TalkingLlm.TalkingLLM.CaptureCallback` | talking_llm.py:148-150 | While the flag is up, the chunk is appended at the end of the buffer. While it is down, the buffer is unchanged. This is exactly the pure machine's chunk step. |
| `TalkingLlm.TalkingLLM.ConvertAndPlay` | talking_llm.py:117-141 | Over every queued reply, the loop gives exactly `Speech.Run` from `''`. The spoken texts and the final pending text rebuild all replies in order. The pending text holds no terminator, and each spoken text holds one. |

## Left out

- The GUI (`talking_llm_gui.py`): Tk widgets, dialogs and matplotlib plotting are user interface, not state of the core. Its plot path reads `df`, an attribute `TalkingLLM` never sets.
- Whisper, the pandas/LangChain agent, OpenAI text to speech: external services. The ghost log `calls` records the arguments and order of the CSV reads, the WAV write, transcription, `invoke` and the display callback, and the transcript and the agent's answers are parameters. Each text-to-speech input is an element of `ConvertAndPlay`'s `spoken`; the synthesised audio is not modelled. The text-to-speech call's fixed settings (`tts-1`, voice `alloy`, `opus`) are not recorded.
- WAV file contents, deleting the old `test.wav`, decoding the Opus stream and playback: file and audio I/O. Playback is blocking in the source, so a spoken text is simply the next element of `spoken`.
- Threads, the hotkey listener and the input stream: concurrency and OS event delivery. The toggle and the callback are sequential method calls, so a callback racing with a stop is not modelled.
- The queue's blocking `get`: the queue is the sequence of everything put on it, and `ConvertAndPlay` consumes that sequence in order instead of waiting forever.
- `print` calls, `load_model`, `ChatOpenAI` construction and the agent prompt prefix: console output and service set-up.
- Exceptions other than `FileNotFoundError` from transcription and the `AttributeError` of a missing agent: network and parse failures propagate out of the source unhandled and have no specified behaviour.
