# Voice chat client and voice selection, modelled in Dafny

This project models the core of a browser voice assistant. The client listens through a speech
detector and sends each finished utterance to the server as a WAV file over a WebSocket. It then
shows the transcript as the server streams it, and plays the server's audio clips in order. On the
server side, the model covers the part of the speech synthesiser that picks a voice from the
language of the reply.

Modules, one per file:

- `Wrappers` (`wrappers.dfy`): the `Option` type, used for nullable refs and omitted arguments.
- `Wav` (`wav.dfy`): `encodeWAV` and `writeStr`. The buffer is an `array<byte>` filled in place by
  DataView-style setters, and the loop writes one Int16 per sample. A pure `WavImage` states the
  result, and a reference decoder (`ParseWav`, `ReadSamples`) gives the round trips.
- `Tts` (`tts.py`'s logic, `tts.dfy`): `detect_language` as a priority chain of substring and
  code-point-range tests, the `VOICES` table, and the voice choice of `text_to_speech`. Python's
  `str.lower` is a parameter.
- `Transport` (`transport.dfy`): `useWebSocket` as a `Connection` class holding the current
  `Socket?` and the handler slots. The browser socket is a small class holding `readyState` and the
  frames it has sent.
- `Vad` (`vad.dfy`): `useVAD` as a `SpeechGate` class holding the current `Detector?`, with
  null-safe `pause`/`resume` and an idempotent `stop`. A ghost counter records every `resume` call.
- `VoiceChat` (`voicechat.dfy`): `useVoiceChat` as one class, `VoiceChat`. Its fields are the
  hook's state and refs, and each event is one method that runs to completion. The events are the
  JSON and binary frames, the socket close, speech start and end, a clip ending or failing, the
  watchdog firing, the error banner expiring, and the user's toggle.

`VoiceChat` also stands in for the platform state its callbacks touch: the watchdog timers
scheduled, the `Audio` elements playing, the object URLs not yet revoked, and the
`crypto.randomUUID` and timer-handle counters. `Valid()` is the class invariant, and every event
method preserves it. It says:

- At most the slot's own watchdog timer is outstanding.
- The elements playing hold live URLs, and `audioRef`, when set, is one of them.
- Transcript ids are distinct and fresh, and `aiMessageIdRef` names an `'ai'` entry.
- Nothing is queued unless `isPlayingRef` is set, and `isPlayingRef` is set exactly when `audioRef`
  is. Neither says that no element is audible: see the stale completion below.

The model follows the code as written. Some of its behaviours are easy to miss:

- A `speaking` event never creates a message. Only `ai_chunk` does.
- Speech end does not arm the watchdog.
- A socket close does not stop the detector or the audio queue.
- A failed start leaves the new socket referenced.
- A string frame that `JSON.parse` rejects throws out of `onmessage`; it is not turned into a
  recoverable error.
- An element can report completion twice, through `onerror` and then a rejected `play()`. The
  second report is handled like the first, while the next clip's element already plays:
  - when that was the last queued clip, the report finds the queue empty and clears `audioRef` and
    `isPlayingRef` though that element is still audible, so nothing tracks it any more
    (`StaleCompletionThenIdle`);
  - when more clips are queued, the report dequeues the next one and starts yet another element
    while the previous one still plays, so two elements are audible at once and the clips no longer
    play one after another (`StaleCompletionOverlaps`).
- The detector is not always paused during playback. `DetectorQuiet` says that the detector is
  paused whenever `isPlayingRef` is set. Every event keeps it except two (the events that touch
  neither the detector nor `isPlayingRef` keep it by their `modifies` clauses):
  - the watchdog firing in `processing` while a clip plays;
  - a start while clips from an earlier session still play.

  It says nothing about an element left untracked by a stale completion. A later `idle` resumes
  the detector while that element plays, and `DetectorQuiet` still holds.

  The contract of each method that touches the detector or `isPlayingRef` states a condition
  under which `DetectorQuiet` is kept.

## Model

| member | source | states |
|---|---|---|
| Wav.Uint32Le | frontend/src/utils/audioUtils.js:11 | `setUint32(.., true)`'s four bytes, least significant first, of the value modulo 2^32; read back by `Uint32RoundTrip` |
| Wav.Uint16Le | frontend/src/utils/audioUtils.js:16 | `setUint16(.., true)`'s two bytes, least significant first, of the value modulo 2^16; read back by `Uint16RoundTrip` |
| Wav.Uint32RoundTrip | frontend/src/utils/audioUtils.js:11 | the four bytes `setUint32(.., true)` stores read back, little-endian, as the value modulo 2^32 |
| Wav.Uint16RoundTrip | frontend/src/utils/audioUtils.js:16 | the two bytes `setUint16(.., true)` stores read back as the value modulo 2^16 |
| Wav.Int16RoundTrip | frontend/src/utils/audioUtils.js:30 | on the signed 16-bit range, the `setInt16` bytes read back (two's complement) as exactly the value stored |
| Wav.AsciiBytes | frontend/src/utils/audioUtils.js:37-41 | one byte per character; every character below 256 is stored as its own code |
| Wav.Clamp | frontend/src/utils/audioUtils.js:29 | the result lies in [-1, 1], equals the input inside that range, and is the nearer bound outside it |
| Wav.TruncToZero | frontend/src/utils/audioUtils.js:30 | ToInt16's truncation: within one below a non-negative input, within one above a negative input |
| Wav.Scale | frontend/src/utils/audioUtils.js:30 | the factor 0x8000 for a negative clamped sample and 0x7fff otherwise |
| Wav.Quantize | frontend/src/utils/audioUtils.js:29-30 | clamp, scale by the sign's factor, truncate toward zero; its range, error and sign are stated by the three lemmas below |
| Wav.QuantizeInRange | frontend/src/utils/audioUtils.js:29-30 | every stored sample lies in [-32768, 32767], so the Int16 wrap-around never applies |
| Wav.QuantizeError | frontend/src/utils/audioUtils.js:29-30 | the stored value is within one quantization step of the scaled clamped sample, on the side of zero |
| Wav.QuantizeSign | frontend/src/utils/audioUtils.js:29-30 | negative samples store non-positive values and the rest non-negative ones; inputs at or beyond ±1 store 32767 and -32768 |
| Wav.Header | frontend/src/utils/audioUtils.js:10-24 | the 44-byte header for n samples at a rate: the RIFF descriptor, the "fmt " sub-chunk and the "data" sub-chunk header, in that order |
| Wav.Pcm | frontend/src/utils/audioUtils.js:27-32 | the payload: two bytes per sample, each sample's quantized value in order |
| Wav.WavImage | frontend/src/utils/audioUtils.js:1-35 | the whole encoded buffer: the header followed by the payload; its length, layout and round trips are stated by the lemmas below |
| Wav.HeaderLayout | frontend/src/utils/audioUtils.js:10-24 | every header field's bytes sit at its offset: tags, RIFF size 36+2n, chunk size 16, format 1, channels 1, rate, byte rate 2·rate, block align 2, 16 bits, data size 2n |
| Wav.WavLength | frontend/src/utils/audioUtils.js:6-7 | the encoded image is exactly 44 + 2n bytes for n samples |
| Wav.WavTags | frontend/src/utils/audioUtils.js:10-23 | "RIFF", "WAVE", "fmt " and "data" sit at offsets 0, 8, 12 and 36 as ASCII codes |
| Wav.WavFields | frontend/src/utils/audioUtils.js:11-24 | a little-endian reader sees the RIFF size, 16, 1, 1, the rate, rate·2, 2, 16 and the data size at offsets 4 to 40, each reduced as the setter reduces it |
| Wav.WavSampleAt | frontend/src/utils/audioUtils.js:27-32 | sample i occupies bytes 44+2i and 45+2i and reads back as its quantized value |
| Wav.ParseWavAccepts | frontend/src/utils/audioUtils.js:10-24 | a buffer with the tags, PCM mono 16-bit format and a fitting even data length decodes to its rate and sample count |
| Wav.WavHeaderRoundTrip | frontend/src/utils/audioUtils.js:1-24 | decoding an encoded buffer's header recovers the sample rate and the sample count exactly, for every rate and length that fit in 32 bits |
| Wav.WavSamplesRoundTrip | frontend/src/utils/audioUtils.js:27-32 | decoding an encoded buffer's payload recovers every quantized sample, in order |
| Wav.WriteStr | frontend/src/utils/audioUtils.js:37-41 | after `writeStr(off, s)` the buffer holds its earlier prefix followed by the string's bytes; every byte after them is unchanged |
| Wav.SetBytes | frontend/src/utils/audioUtils.js:11-24 | a DataView store at `off`: the earlier prefix is kept, the value's bytes follow it, and every byte after them is unchanged |
| Wav.WriteRiffDescriptor | frontend/src/utils/audioUtils.js:10-12 | bytes 0-11 become "RIFF", the RIFF size, "WAVE"; bytes from 12 on are unchanged |
| Wav.WriteFmtChunk | frontend/src/utils/audioUtils.js:14-21 | bytes 12-35 become the "fmt " sub-chunk for mono 16-bit PCM at the rate; bytes 0-11 and bytes from 36 on are unchanged |
| Wav.WriteDataChunkHeader | frontend/src/utils/audioUtils.js:23-24 | bytes 36-43 become "data" and the data size; bytes 0-35 and bytes from 44 on are unchanged |
| Wav.WriteHeader | frontend/src/utils/audioUtils.js:10-24 | the header writes, in the source's order, leave the canonical 44-byte header in place and leave the bytes from 44 on unchanged |
| Wav.WriteSample | frontend/src/utils/audioUtils.js:29-31 | one loop iteration stores the clamped, scaled, truncated sample at the offset and keeps every byte before and after those two |
| Wav.EncodeWav | frontend/src/utils/audioUtils.js:1-35 | the filled buffer is exactly the WAV image of the samples (header, then one Int16 per sample); the rate defaults to 16000 |
| Tts.Contains | backend/services/tts.py:21-49 | Python's `w in s` on strings, by recursion on the first position; characterised by `ContainsIff` |
| Tts.ContainsAny | backend/services/tts.py:25 | Python's `any(w in s for w in words)`: some word of the list occurs in the text |
| Tts.AnyInRange | backend/services/tts.py:29-46 | Python's `any(lo <= c <= hi for c in text)`: some character lies in the closed code-point range |
| Tts.ContainsIff | backend/services/tts.py:21 | Python's `w in s` on strings holds exactly when some position of `s` starts a copy of `w` |
| Tts.ContainsChar | backend/services/tts.py:49 | a one-character substring test holds exactly when the character occurs |
| Tts.ContainsTrans | backend/services/tts.py:25 | a substring of a substring of the text is a substring of the text |
| Tts.DetectLanguage | backend/services/tts.py:17-52 | every code `detect_language` returns is a key of `VOICES` |
| Tts.AzerbaijaniFirst | backend/services/tts.py:21-22 | the code is "az" if and only if the lower-cased text contains "ə" or "ğ", whatever else it contains |
| Tts.TurkishKeywordSecond | backend/services/tts.py:25-26 | without the Azerbaijani letters, any Turkish keyword in the lower-cased text gives "tr" |
| Tts.DegilShadowed | backend/services/tts.py:21-26 | text containing the keyword "değil" is always "az": its "ğ" triggers the earlier rule |
| Tts.ScriptPriority | backend/services/tts.py:29-46 | when the two lower-case rules do not apply, the first matching script of Cyrillic, Han, kana, Hangul and Arabic decides ru, zh, ja, ko or ar |
| Tts.CyrillicCharGivesRu | backend/services/tts.py:29-30 | once the lower-case rules do not apply, a single character in U+0400..U+04FF gives "ru" |
| Tts.TurkishLettersLast | backend/services/tts.py:49-52 | when no earlier rule applies, any of ı ö ü ç ş gives "tr" and nothing else does; the "ə" guard is always true there |
| Tts.EnglishDefault | backend/services/tts.py:52 | the code is "en" if and only if no rule applies |
| Tts.ChooseVoice | backend/services/tts.py:54-57 | an explicit voice is used as given; an omitted one is looked up in `VOICES` under the detected code, with "en-US-JennyNeural" for a missing key |
| Tts.VoiceChoice | backend/services/tts.py:54-57 | an explicit voice is used as given; an omitted one is the detected code's own `VOICES` entry, so the `.get` fallback never decides |
| Transport.AfterClose | frontend/src/hooks/useWebSocket.js:29 | `close()` leaves a socket closing or closed, and a closed one closed |
| Transport.Connection.constructor | frontend/src/hooks/useWebSocket.js:4-5 | no socket and an empty handler set |
| Transport.Connection.Connect | frontend/src/hooks/useWebSocket.js:7-14 | the new socket, still connecting, replaces any earlier reference at once; the handlers are kept |
| Transport.Connection.Disconnect | frontend/src/hooks/useWebSocket.js:28-31 | the socket, if any, is closed and the reference cleared; with none it is a no-op |
| Transport.Connection.SendBinary | frontend/src/hooks/useWebSocket.js:33-37 | the frame is appended to what the socket sent exactly when a socket exists and is OPEN, and dropped otherwise |
| Transport.Connection.SetHandlers | frontend/src/hooks/useWebSocket.js:39-41 | the handler set becomes exactly the new one; nothing of the old set survives |
| Transport.Connection.Route | frontend/src/hooks/useWebSocket.js:16-22 | string frames reach the JSON slot as parsed data (or throw) only when that slot is filled; other frames reach the binary slot unchanged only when it is filled; otherwise the frame is dropped |
| Transport.Connection.SocketClosed | frontend/src/hooks/useWebSocket.js:24 | any socket's close event is forwarded exactly when the current set has an `onClose` slot |
| Vad.SpeechGate.constructor | frontend/src/hooks/useVAD.js:4 | no detector referenced |
| Vad.SpeechGate.Start | frontend/src/hooks/useVAD.js:6-24 | a detector is recorded only after it was created and started; on failure the reference is unchanged |
| Vad.SpeechGate.Stop | frontend/src/hooks/useVAD.js:26-30 | the detector is paused, destroyed and forgotten; with none, nothing changes, so a second stop is a no-op |
| Vad.Paused | frontend/src/hooks/useVAD.js:32 | what the gate's callers see after `pause()`: the same detector, no longer classifying, with its destroyed flag and the resume count unchanged |
| Vad.Resumed | frontend/src/hooks/useVAD.js:33 | what the gate's callers see after `resume()`: the same detector, classifying again if there is one, its destroyed flag unchanged, one more resume counted |
| Vad.SpeechGate.Pause | frontend/src/hooks/useVAD.js:32 | the same detector, if any, stops classifying; with none it is a no-op |
| Vad.SpeechGate.Resume | frontend/src/hooks/useVAD.js:33 | the same detector instance, never a new one, classifies again; with none it is a no-op |
| VoiceChat.ChatUrl | frontend/src/hooks/useVoiceChat.js:189-190 | the address is `wss://` on https pages and `ws://` otherwise, then the host, then `/api/ws/chat` |
| VoiceChat.AppendChunk | frontend/src/hooks/useVoiceChat.js:117 | one chunk joins the streaming text, after a single space unless the text so far is empty |
| VoiceChat.Accumulated | frontend/src/hooks/useVoiceChat.js:114-117 | the streaming text after a run of chunks from a reset, one `AppendChunk` per chunk in arrival order |
| VoiceChat.AccumulatedIsJoin | frontend/src/hooks/useVoiceChat.js:117 | the streaming text after any run of chunks is the chunks joined by single spaces, once leading empty chunks are dropped |
| VoiceChat.AccumulatedNonEmptyChunks | frontend/src/hooks/useVoiceChat.js:117 | with no empty chunk the streaming text is exactly the chunks joined by single spaces |
| VoiceChat.WithText | frontend/src/hooks/useVoiceChat.js:131-133 | an update by id keeps the transcript's length, ids and roles |
| VoiceChat.WithTextHitsOnlyItsId | frontend/src/hooks/useVoiceChat.js:131-133 | with unique ids, an update by id changes exactly the entry holding that id, wherever it is, and no other |
| VoiceChat.WithTextAbsentId | frontend/src/hooks/useVoiceChat.js:140-145 | an update by an id not in the transcript changes nothing |
| VoiceChat.AppendFresh | frontend/src/hooks/useVoiceChat.js:108-111 | appending an entry with the next fresh id keeps the ids distinct and below the counter |
| VoiceChat.VoiceChat.constructor | frontend/src/hooks/useVoiceChat.js:8-21 | the initial state: `idle`, empty transcript and queue, all refs reset, no socket, no detector |
| VoiceChat.VoiceChat.AtMostOneWatchdog | frontend/src/hooks/useVoiceChat.js:36-52 | at most one watchdog timer is ever outstanding, and only the one in the slot |
| VoiceChat.VoiceChat.UpdateStatus | frontend/src/hooks/useVoiceChat.js:23-26 | the status becomes the given one |
| VoiceChat.VoiceChat.ClearProcessingTimeout | frontend/src/hooks/useVoiceChat.js:36-41 | the slot is empty and no watchdog timer is outstanding |
| VoiceChat.VoiceChat.StartProcessingTimeout | frontend/src/hooks/useVoiceChat.js:43-52 | any earlier timer is cancelled and exactly one new one is outstanding, held in the slot |
| VoiceChat.VoiceChat.PlayNext | frontend/src/hooks/useVoiceChat.js:54-81 | an empty queue ends playback and resumes listening (status and one detector resume) exactly when `idle` has arrived; otherwise the head leaves the queue and a new element with its own URL plays |
| VoiceChat.VoiceChat.StopAudio | frontend/src/hooks/useVoiceChat.js:83-90 | the queue is empty, nothing is marked playing, the current element is paused; its URL stays live |
| VoiceChat.VoiceChat.OnTranscribing | frontend/src/hooks/useVoiceChat.js:98-101 | status `processing` and exactly one fresh watchdog timer |
| VoiceChat.VoiceChat.OnThinking | frontend/src/hooks/useVoiceChat.js:103-112 | streaming text, AI id and `idleReceived` are reset, and exactly one user entry with a new id is appended |
| VoiceChat.VoiceChat.OnAiChunk | frontend/src/hooks/useVoiceChat.js:114-136 | the chunk is accumulated; with no AI id one `'ai'` entry with a new id is appended, otherwise only that id's text changes and the length stays |
| VoiceChat.VoiceChat.OnSpeaking | frontend/src/hooks/useVoiceChat.js:138-146 | the AI entry's text is overwritten by id; with no AI id the transcript is unchanged |
| VoiceChat.VoiceChat.OnServerError | frontend/src/hooks/useVoiceChat.js:148-151 | the fixed banner text is shown and the status does not change |
| VoiceChat.VoiceChat.OnServerIdle | frontend/src/hooks/useVoiceChat.js:153-161 | the watchdog is disarmed, the arrival recorded, and listening resumes (the same detector runs again, one resume counted) only if `isPlayingRef` is clear; the transcript, the banner and the playback state stay |
| VoiceChat.VoiceChat.OnJson | frontend/src/hooks/useVoiceChat.js:96-163 | each recognised status has exactly its handler's effect, field by field, with every field it does not write kept (the case rows above, collected in `JsonEffect`); an unknown status changes nothing; only `idle` touches the detector; only `idle` and `transcribing` change the status; no message touches the queue or the playback state |
| VoiceChat.VoiceChat.OnBinary | frontend/src/hooks/useVoiceChat.js:165-176 | watchdog disarmed, detector paused (nothing else about it changes), status `playing`; the clip joins the queue's tail, and playback starts only if `isPlayingRef` was clear; the transcript, the banner and `idleReceivedRef` stay |
| VoiceChat.VoiceChat.QueueClip | frontend/src/hooks/useVoiceChat.js:166-171 | the first four steps of `onBinary`: watchdog disarmed, detector paused, status `playing`, the clip at the queue's tail |
| VoiceChat.VoiceChat.OnClose | frontend/src/hooks/useVoiceChat.js:178-181 | the watchdog is disarmed and the status is `idle`; the detector and the queue are left alone |
| VoiceChat.VoiceChat.OnSocketMessage | frontend/src/hooks/useWebSocket.js:16-22 | a string frame routed to the JSON slot has that status's whole handler effect (`JsonEffect`), a binary frame routed to the binary slot has `onBinary`'s whole effect (`BinaryEffect`), each stating every field of the hook it keeps, and a frame that is dropped, or whose parse throws, changes nothing |
| VoiceChat.VoiceChat.OnSocketClosed | frontend/src/hooks/useWebSocket.js:24 | the socket is closed and its sent frames are kept; `onClose` runs only if the current handler set has it, and otherwise nothing changes |
| VoiceChat.VoiceChat.OnSpeechStart | frontend/src/hooks/useVoiceChat.js:194-196 | status `recording` |
| VoiceChat.VoiceChat.OnSpeechEnd | frontend/src/hooks/useVoiceChat.js:197-202 | detector paused with nothing else about it changed, status `processing`, and the 16 kHz WAV image of the utterance sent exactly when the socket is open; no watchdog is armed |
| VoiceChat.VoiceChat.ClipDone | frontend/src/hooks/useVoiceChat.js:72-80 | the element's URL is revoked and it stops counting as playing; with clips queued the head starts on one new element with its own URL, otherwise playback ends and listening resumes exactly when `idle` has arrived; the detector changes only by that resume; the element counter and the URL and playing sets change by exactly that |
| VoiceChat.VoiceChat.WatchdogFired | frontend/src/hooks/useVoiceChat.js:45-50 | only in `processing` does the expiry set `listening` and resume the same detector (its destroyed flag kept); otherwise only the timer is gone |
| VoiceChat.VoiceChat.ErrorExpired | frontend/src/hooks/useVoiceChat.js:28-32 | the banner is cleared |
| VoiceChat.VoiceChat.SetupWsHandlers | frontend/src/hooks/useVoiceChat.js:94-95 | all three handler slots are installed on the current connection |
| VoiceChat.VoiceChat.StartConversation | frontend/src/hooks/useVoiceChat.js:187-211 | a fresh socket to the chat address is referenced; a failed connect or a failed detector start shows the banner and sets `idle` without disconnecting; success sets `listening` with a fresh running, undestroyed detector, which is then quiet exactly when `isPlayingRef` is clear; on failure the detector state and `DetectorQuiet` are unchanged |
| VoiceChat.VoiceChat.ResetSession | frontend/src/hooks/useVoiceChat.js:214-218 | no timer, empty queue, `isPlayingRef` and `audioRef` cleared, `idleReceived`, streaming text and AI id reset |
| VoiceChat.VoiceChat.EndConversation | frontend/src/hooks/useVoiceChat.js:213-222 | from any state: no timer, empty queue, `isPlayingRef` and `audioRef` cleared (only the element `audioRef` held is paused), reset flags, the detector stopped, destroyed and forgotten, the socket closed with its sent frames kept and forgotten, status `idle` |
| VoiceChat.VoiceChat.IdleThenLastClipDone | frontend/src/hooks/useVoiceChat.js:55-63 | `idle` arriving during the last clip, then the clip ending, gives exactly one detector resume and status `listening` |
| VoiceChat.VoiceChat.LastClipDoneThenIdle | frontend/src/hooks/useVoiceChat.js:153-160 | the last clip ending, then `idle` arriving, gives exactly one detector resume and status `listening` |
| VoiceChat.VoiceChat.StaleCompletionThenIdle | frontend/src/hooks/useVoiceChat.js:72-80 | a second completion from the playing element, while the last queued clip's element plays, leaves that element audible with `audioRef` and `isPlayingRef` clear; `idle` then resumes the detector, and `DetectorQuiet` still holds |
| VoiceChat.VoiceChat.StaleCompletionOverlaps | frontend/src/hooks/useVoiceChat.js:72-80 | with two clips queued, a second completion from the playing element starts the last clip's element while the previous one still plays: both are audible, `isPlayingRef` stays set, the queue is empty, `audioRef` holds only the newest element and the detector state is unchanged |
| VoiceChat.VoiceChat.Toggle | frontend/src/hooks/useVoiceChat.js:224-227 | from `idle` it has all of `startConversation`'s effect, keeps the timers, the playback state and the streaming refs, and leaves a socket referenced before untouched; from any other status it has all of `endConversation`'s effect, the old socket closed with its sent frames kept; the transcript, the counters and the live object URLs stay in both; a paused detector stays paused while `isPlayingRef` is set unless a start happens then |

## Left out

- Asynchrony: `connect` and `vad.start` are awaited promises, and `wav.arrayBuffer().then` is a
  later send. Each is modelled as happening atomically. `StartConversation` takes the outcomes of
  its two awaits as parameters. Events that could interleave between awaits are not modelled.
- React specifics: state batching, the functional `setMessages` updates (applied at once), the
  `useCallback` dependency lists, and the unmount effect (`useVoiceChat.js:229-232`, which calls
  `endConversation`). `status` and `statusRef` are one field in the model.
- Platform objects are reduced to abstract state and events:
  - the browser `WebSocket`, reduced to `readyState` and the frames sent;
  - `MicVAD.new` and its model loading, reduced to a success flag and a running/destroyed detector;
  - `Audio` elements, `play()`, `pause()`, `Blob`, and `createAudioURL`/`revokeObjectURL`, reduced
    to numbered elements and a set of live URLs.
- Clip contents: which bytes an element plays is not recorded. Playback order is stated per
  method: `PlayNext` takes the queue's head, and `OnBinary` appends at the tail.
- `JSON.parse` is a parameter of `OnSocketMessage`; a `None` result stands for a throw. The
  payload fields `user_text`, `text`, `ai_text` and `message` arrive as already-parsed strings.
- `console.warn`/`console.error` logging.
- Timer durations (15 s watchdog, 4 s banner): expiries are the `WatchdogFired` and `ErrorExpired`
  events. Which banner timer belongs to which error is not tracked.
- IEEE floats: samples are reals. NaN, infinities and the float rounding of `s * 0x8000` are not
  modelled; truncation toward zero is exact.
- Python's `str.lower` is a parameter; full Unicode case folding is not modelled.
- The `edge_tts` call and the file save in `text_to_speech` (`tts.py:59-60`).
- The backend services, the UI components and the build configuration are not part of this model.
- VoiceChat.VoiceChat.DetectorQuiet: the detector is not proved paused during all playback, because
  the code does not guarantee it. There are three ways it can run while a clip is audible:
  - `WatchdogFired` in `processing` while a clip plays resumes it.
  - `StartConversation` while clips from an ended socket still play starts one.
  - After a stale completion an untracked element keeps playing, and a later `idle` resumes the
    detector during it. `DetectorQuiet` speaks of `isPlayingRef` and does not see this case.

  Each method that touches the detector or `isPlayingRef` states a condition under which
  `DetectorQuiet` is kept.
- VoiceChat.VoiceChat.ClipDone: an element can report completion twice, through `onerror` and a
  rejected `play()`. The model accepts any earlier element and does not check that it is the
  current one. The source does not check this either. A second report that arrives while the next
  element plays acts on the queue again. If the queue is empty it clears `audioRef`, so that
  element plays untracked: the detector can resume during it, and `stopAudio` (and so
  `endConversation`) cannot pause it. If clips are still queued it starts another element beside
  the one playing, so two clips are audible together and the earlier one is no longer referenced.
