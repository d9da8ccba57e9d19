/**
 * The conversation orchestrator of the web client (`useVoiceChat`): an event-driven state machine.
 * Each socket frame, socket close, detector callback, clip completion, timer expiry and user toggle
 * is one method of `VoiceChat` that runs to completion and updates the hook's refs and state.
 */
module VoiceChat {

  import opened Wrappers
  import Wav
  import Transport
  import Vad

  /* ---------- values ---------- */

  datatype Status = Idle | Listening | Recording | Processing | Playing

  /** The two role strings of the transcript: 'user' and 'ai'. */
  datatype Role = User | Ai

  /** One transcript entry; `id` stands for the `crypto.randomUUID()` string. */
  datatype Message = Message(id: nat, role: Role, text: string)

  /** A parsed JSON frame, by its `status` field; any other status matches no case of the switch. */
  datatype ServerEvent =
    | Transcribing
    | Thinking(userText: string)
    | AiChunk(text: string)
    | Speaking(aiText: string)
    | ServerError(message: string)
    | ServerIdle
    | Unrecognised(status: string)

  const StartFailedText: string := "Could not start — check microphone permissions."
  const ServerErrorText: string := "Something went wrong. Try again."
  const ChatPath: string := "/api/ws/chat"

  /** The socket address `startConversation` connects to: `wss:` on an https page, `ws:` otherwise. */
  function ChatUrl(secure: bool, host: string): (url: string)
    ensures |url| == (if secure then 6 else 5) + |host| + |ChatPath|
    ensures secure ==> url[..6] == "wss://" && url[6 .. 6 + |host|] == host
    ensures !secure ==> url[..5] == "ws://" && url[5 .. 5 + |host|] == host
    ensures |url| >= |ChatPath| && url[|url| - |ChatPath|..] == ChatPath
  {
    (if secure then "wss:" else "ws:") + "//" + host + ChatPath
  }

  /* ---------- streaming text ---------- */

  /** One `ai_chunk` step: the chunk is appended, after a single space unless the text so far is empty. */
  function AppendChunk(acc: string, chunk: string): string
  {
    acc + (if acc != "" then " " else "") + chunk
  }

  /** The streaming text after a run of chunks, starting from the reset value "". */
  function Accumulated(chunks: seq<string>): string
  {
    if chunks == [] then "" else AppendChunk(Accumulated(chunks[..|chunks| - 1]), chunks[|chunks| - 1])
  }

  /** The chunks joined by single spaces. */
  function JoinSpaces(words: seq<string>): string
  {
    if words == [] then ""
    else if |words| == 1 then words[0]
    else JoinSpaces(words[..|words| - 1]) + " " + words[|words| - 1]
  }

  /** The chunks from the first non-empty one on (empty leading chunks leave the text empty and add no space). */
  function DropLeadingEmpty(chunks: seq<string>): (r: seq<string>)
    ensures |r| <= |chunks|
    ensures r == chunks[|chunks| - |r|..]
    ensures r != [] ==> r[0] != ""
    ensures forall k :: 0 <= k < |chunks| - |r| ==> chunks[k] == ""
  {
    if chunks == [] then []
    else if chunks[0] == "" then DropLeadingEmpty(chunks[1..])
    else chunks
  }

  lemma {:induction false} JoinEmptyIff(words: seq<string>)
    requires words != [] ==> words[0] != ""
    ensures JoinSpaces(words) == "" <==> words == []
  {
    if |words| > 1 {
      assert JoinSpaces(words) == JoinSpaces(words[..|words| - 1]) + " " + words[|words| - 1];
      assert |JoinSpaces(words)| > 0;
    }
  }

  lemma {:induction false} DropLeadingEmptySnoc(chunks: seq<string>, c: string)
    ensures DropLeadingEmpty(chunks + [c]) ==
      if DropLeadingEmpty(chunks) == [] then (if c == "" then [] else [c]) else DropLeadingEmpty(chunks) + [c]
  {
    if chunks == [] {
      assert chunks + [c] == [c];
      assert [c][1..] == [];
    } else {
      assert (chunks + [c])[0] == chunks[0];
      if chunks[0] == "" {
        assert (chunks + [c])[1..] == chunks[1..] + [c];
        DropLeadingEmptySnoc(chunks[1..], c);
      }
    }
  }

  /**
   * The streaming text is the chunks joined by single spaces, once leading empty chunks are
   * dropped: `acc ? " " : ""` adds no separator while the accumulated text is still empty.
   */
  lemma {:induction false} AccumulatedIsJoin(chunks: seq<string>)
    ensures Accumulated(chunks) == JoinSpaces(DropLeadingEmpty(chunks))
  {
    if chunks != [] {
      var init, c := chunks[..|chunks| - 1], chunks[|chunks| - 1];
      assert chunks == init + [c];
      AccumulatedIsJoin(init);
      DropLeadingEmptySnoc(init, c);
      var d := DropLeadingEmpty(init);
      JoinEmptyIff(d);
      if d != [] {
        assert (d + [c])[..|d + [c]| - 1] == d;
      }
    }
  }

  /** With no empty chunk, the streaming text is exactly the chunks joined by single spaces. */
  lemma AccumulatedNonEmptyChunks(chunks: seq<string>)
    requires forall k :: 0 <= k < |chunks| ==> chunks[k] != ""
    ensures Accumulated(chunks) == JoinSpaces(chunks)
  {
    AccumulatedIsJoin(chunks);
    if chunks != [] {
      assert chunks[0] != "";
    }
  }

  /* ---------- the transcript ---------- */

  ghost predicate UniqueIds(messages: seq<Message>)
  {
    forall i, j :: 0 <= i < j < |messages| ==> messages[i].id != messages[j].id
  }

  /** A text update by id: every entry whose id is `id` gets `text`; all others and the order stay. */
  function WithText(messages: seq<Message>, id: nat, text: string): (r: seq<Message>)
    ensures |r| == |messages|
    ensures forall i :: 0 <= i < |r| ==> r[i].id == messages[i].id && r[i].role == messages[i].role
  {
    seq(|messages|, i requires 0 <= i < |messages| =>
      if messages[i].id == id then messages[i].(text := text) else messages[i])
  }

  /**
   * With unique ids, an update by id changes exactly the entry at that id's position, whatever the
   * position is, and leaves every other entry as it was.
   */
  lemma WithTextHitsOnlyItsId(messages: seq<Message>, id: nat, text: string, k: nat)
    requires UniqueIds(messages)
    requires k < |messages| && messages[k].id == id
    ensures WithText(messages, id, text) == messages[k := messages[k].(text := text)]
  {
  }

  /** An update by an id that is not in the transcript changes nothing. */
  lemma WithTextAbsentId(messages: seq<Message>, id: nat, text: string)
    requires forall i :: 0 <= i < |messages| ==> messages[i].id != id
    ensures WithText(messages, id, text) == messages
  {
  }

  /** Appending an entry with the next fresh id keeps the ids distinct and below the counter. */
  lemma AppendFresh(messages: seq<Message>, m: Message, next: nat)
    requires UniqueIds(messages) && forall i :: 0 <= i < |messages| ==> messages[i].id < next
    requires m.id == next
    ensures UniqueIds(messages + [m])
    ensures forall i :: 0 <= i < |messages + [m]| ==> (messages + [m])[i].id < next + 1
  {
  }

  /* ---------- what the orchestrator's refs keep ---------- */

  /** The watchdog slot: at most one outstanding timer, and only the one in the slot. */
  ghost predicate TimerSlotOk(timeout: Option<nat>, pendingTimers: set<nat>)
  {
    && (timeout.None? ==> pendingTimers == {})
    && (timeout.Some? ==> pendingTimers <= {timeout.value})
  }

  /** Playback: the clips start in arrival order; one URL per element, released only on its completion. */
  ghost predicate PlaybackOk(audible: set<nat>, liveUrls: set<nat>, nextElement: nat, audio: Option<nat>)
  {
    && audible <= liveUrls
    && (forall h :: h in liveUrls ==> h < nextElement)
    && (audio.Some? ==> audio.value in audible)
  }

  /** The transcript: fresh, distinct ids; the AI id names the 'ai' entry at `aiIndex`. */
  ghost predicate TranscriptOk(messages: seq<Message>, nextUuid: nat, aiMessageId: Option<nat>, aiIndex: nat)
  {
    && UniqueIds(messages)
    && (forall i :: 0 <= i < |messages| ==> messages[i].id < nextUuid)
    && (aiMessageId.Some? ==>
          aiIndex < |messages| && messages[aiIndex].id == aiMessageId.value && messages[aiIndex].role == Ai)
  }

  /** Nothing is queued unless something plays, and something plays exactly when `audioRef` is set. */
  ghost predicate PlayLinked(isPlaying: bool, queue: seq<Transport.Bytes>, audio: Option<nat>)
  {
    && (!isPlaying ==> queue == [])
    && (isPlaying <==> audio.Some?)
  }

  /* ---------- the orchestrator ---------- */

  class VoiceChat {
    // React state
    var status: Status
    var messages: seq<Message>
    var error: Option<string>

    // refs
    var queue: seq<Transport.Bytes>   // audioQueueRef
    var isPlaying: bool               // isPlayingRef
    var idleReceived: bool            // idleReceivedRef
    var streamingText: string         // streamingTextRef
    var aiMessageId: Option<nat>      // aiMessageIdRef
    var timeout: Option<nat>          // timeoutRef: the watchdog's handle, kept even after it fired
    var audio: Option<nat>            // audioRef: the Audio element last started

    // platform state the callbacks touch
    var pendingTimers: set<nat>       // watchdog timers scheduled, not yet fired or cleared
    var nextTimer: nat                // the next `setTimeout` handle
    var nextUuid: nat                 // the next `crypto.randomUUID()` value
    var nextElement: nat              // the handle of the next Audio element; element h plays object URL h
    var audible: set<nat>             // elements playing now
    var liveUrls: set<nat>            // object URLs created and not yet revoked

    ghost var aiIndex: nat                    // the position of the entry `aiMessageIdRef` names

    const ws: Transport.Connection
    const vad: Vad.SpeechGate

    /** Everything the handlers keep, except the link between the queue, `isPlayingRef` and `audioRef`. */
    ghost predicate Core()
      reads this
    {
      && TimerSlotOk(timeout, pendingTimers)
      && PlaybackOk(audible, liveUrls, nextElement, audio)
      && TranscriptOk(messages, nextUuid, aiMessageId, aiIndex)
    }

    ghost predicate Valid()
      reads this
    {
      Core() && PlayLinked(isPlaying, queue, audio)
    }

    /**
     * The detector is paused whenever `isPlayingRef` is set. This speaks of the ref, not of what is
     * audible: after a stale completion an element can play while the ref is clear.
     */
    ghost predicate DetectorQuiet()
      reads this`isPlaying, vad, vad.detector
    {
      isPlaying ==> vad.detector == null || !vad.detector.running
    }

    /** The watchdog slot, the timers outstanding and the timer-handle counter stay as they were. */
    twostate predicate TimerKept()
      reads this
    {
      timeout == old(timeout) && pendingTimers == old(pendingTimers) && nextTimer == old(nextTimer)
    }

    /** The transcript, the id counter and the streaming refs stay as they were. */
    twostate predicate TranscriptKept()
      reads this
    {
      && messages == old(messages) && nextUuid == old(nextUuid)
      && streamingText == old(streamingText) && aiMessageId == old(aiMessageId) && aiIndex == old(aiIndex)
    }

    /** The audio queue, `isPlayingRef`, `audioRef`, the elements and the object URLs stay as they were. */
    twostate predicate PlaybackKept()
      reads this
    {
      && queue == old(queue) && isPlaying == old(isPlaying) && audio == old(audio)
      && nextElement == old(nextElement) && audible == old(audible) && liveUrls == old(liveUrls)
    }

    /**
     * What the handler of one server message does to the refs, the state and the detector, from
     * the state before it ran, field by field: what it writes and that everything else stays.
     */
    twostate predicate JsonEffect(ev: ServerEvent)
      reads this, vad, vad.detector
    {
      match ev
      case Transcribing =>
        && status == Processing
        && timeout == Some(old(nextTimer)) && pendingTimers == {old(nextTimer)} && nextTimer == old(nextTimer) + 1
        && idleReceived == old(idleReceived) && error == old(error)
        && TranscriptKept() && PlaybackKept() && vad.State() == old(vad.State())
      case Thinking(userText) =>
        && streamingText == "" && aiMessageId == None && !idleReceived
        && messages == old(messages) + [Message(old(nextUuid), User, userText)] && nextUuid == old(nextUuid) + 1
        && aiIndex == old(aiIndex) && status == old(status) && error == old(error)
        && TimerKept() && PlaybackKept() && vad.State() == old(vad.State())
      case AiChunk(chunk) =>
        && streamingText == AppendChunk(old(streamingText), chunk)
        && (old(aiMessageId).None? ==>
             (aiMessageId == Some(old(nextUuid)) && nextUuid == old(nextUuid) + 1
              && messages == old(messages) + [Message(old(nextUuid), Ai, streamingText)]))
        && (old(aiMessageId).Some? ==>
             (aiMessageId == old(aiMessageId) && nextUuid == old(nextUuid)
              && messages == WithText(old(messages), old(aiMessageId).value, streamingText)))
        && idleReceived == old(idleReceived) && status == old(status) && error == old(error)
        && TimerKept() && PlaybackKept() && vad.State() == old(vad.State())
      case Speaking(aiText) =>
        && messages == (if old(aiMessageId).Some? then WithText(old(messages), old(aiMessageId).value, aiText) else old(messages))
        && nextUuid == old(nextUuid) && streamingText == old(streamingText)
        && aiMessageId == old(aiMessageId) && aiIndex == old(aiIndex)
        && idleReceived == old(idleReceived) && status == old(status) && error == old(error)
        && TimerKept() && PlaybackKept() && vad.State() == old(vad.State())
      case ServerError(_) =>
        && error == Some(ServerErrorText)
        && idleReceived == old(idleReceived) && status == old(status)
        && TimerKept() && TranscriptKept() && PlaybackKept() && vad.State() == old(vad.State())
      case ServerIdle =>
        && timeout == None && pendingTimers == {} && nextTimer == old(nextTimer) && idleReceived
        && status == (if old(isPlaying) then old(status) else Listening)
        && vad.State() == (if old(isPlaying) then old(vad.State()) else Vad.Resumed(old(vad.State())))
        && error == old(error) && TranscriptKept() && PlaybackKept()
      case Unrecognised(_) =>
        && idleReceived == old(idleReceived) && status == old(status) && error == old(error)
        && TimerKept() && TranscriptKept() && PlaybackKept() && vad.State() == old(vad.State())
    }

    /**
     * What the handler of one audio clip does: the watchdog is disarmed, the detector paused, the
     * status is `playing`, and the clip is queued at the tail or, when nothing plays, started; the
     * transcript, the banner and `idleReceivedRef` stay.
     */
    twostate predicate BinaryEffect(data: Transport.Bytes)
      reads this, vad, vad.detector
    {
      && timeout == None && pendingTimers == {} && nextTimer == old(nextTimer) && status == Playing
      && vad.State() == Vad.Paused(old(vad.State()))
      && idleReceived == old(idleReceived) && error == old(error) && TranscriptKept()
      && (old(isPlaying) ==>
           (isPlaying && queue == old(queue) + [data] && audio == old(audio)
            && nextElement == old(nextElement) && audible == old(audible) && liveUrls == old(liveUrls)))
      && (!old(isPlaying) ==>
           (isPlaying && queue == [] && audio == Some(old(nextElement))
            && nextElement == old(nextElement) + 1
            && audible == old(audible) + {old(nextElement)} && liveUrls == old(liveUrls) + {old(nextElement)}))
    }

    constructor ()
      ensures Valid() && fresh(ws) && fresh(vad)
      ensures status == Idle && messages == [] && error == None
      ensures queue == [] && !isPlaying && !idleReceived && streamingText == "" && aiMessageId == None
      ensures timeout == None && audio == None && pendingTimers == {} && audible == {} && liveUrls == {}
      ensures nextTimer == 0 && nextUuid == 0 && nextElement == 0
      ensures ws.socket == null && ws.handlers == Transport.NoHandlers && vad.detector == null
    {
      status, messages, error := Idle, [], None;
      queue, isPlaying, idleReceived := [], false, false;
      streamingText, aiMessageId, timeout, audio := "", None, None, None;
      pendingTimers, nextTimer, nextUuid, nextElement := {}, 0, 0, 0;
      audible, liveUrls := {}, {};
      aiIndex := 0;
      ws := new Transport.Connection();
      vad := new Vad.SpeechGate();
    }

    /** At most one watchdog timer is ever outstanding. */
    lemma AtMostOneWatchdog()
      requires TimerSlotOk(timeout, pendingTimers)
      ensures |pendingTimers| <= 1
      ensures pendingTimers != {} ==> timeout.Some? && pendingTimers == {timeout.value}
    {
      if timeout.Some? && pendingTimers != {} {
        assert pendingTimers == {timeout.value};
      }
    }

    /* ---------- helpers ---------- */

    /** `updateStatus`. */
    method UpdateStatus(s: Status)
      modifies this`status
      ensures status == s
    {
      status := s;
    }

    /** `clearProcessingTimeout`: cancels the slot's timer, if any, and empties the slot. */
    method ClearProcessingTimeout()
      requires TimerSlotOk(timeout, pendingTimers)
      modifies this`timeout, this`pendingTimers
      ensures timeout == None && pendingTimers == {}
    {
      if timeout.Some? {
        pendingTimers, timeout := pendingTimers - {timeout.value}, None;
      }
    }

    /** `startProcessingTimeout`: clears first, then arms one new timer. */
    method StartProcessingTimeout()
      requires TimerSlotOk(timeout, pendingTimers)
      modifies this`timeout, this`pendingTimers, this`nextTimer
      ensures timeout == Some(old(nextTimer)) && pendingTimers == {old(nextTimer)} && nextTimer == old(nextTimer) + 1
    {
      ClearProcessingTimeout();
      pendingTimers, timeout, nextTimer := pendingTimers + {nextTimer}, Some(nextTimer), nextTimer + 1;
    }

    /**
     * `playNext`: with an empty queue, marks playback finished and resumes listening if `idle` has
     * already arrived; otherwise takes the head of the queue and starts an element for it.
     */
    method PlayNext()
      requires Core() && audio.None?
      modifies this`isPlaying, this`status, this`queue, this`nextElement, this`liveUrls,
        this`audible, this`audio, vad, vad.detector
      ensures Valid()
      ensures old(queue) == [] ==>
        (!isPlaying && queue == [] && audio.None?
         && nextElement == old(nextElement) && liveUrls == old(liveUrls) && audible == old(audible)
         && status == (if old(idleReceived) then Listening else old(status)))
      ensures vad.State() == if old(queue) == [] && old(idleReceived) then Vad.Resumed(old(vad.State())) else old(vad.State())
      ensures old(queue) != [] ==>
        (isPlaying && queue == old(queue)[1..] && audio == Some(old(nextElement))
         && nextElement == old(nextElement) + 1
         && audible == old(audible) + {old(nextElement)} && liveUrls == old(liveUrls) + {old(nextElement)}
         && status == old(status))
    {
      if queue == [] {
        isPlaying := false;
        if idleReceived {
          UpdateStatus(Listening);
          vad.Resume();
        }
        return;
      }
      var h := nextElement;   // a new object URL and a new element for the head clip, which starts playing
      isPlaying, queue := true, queue[1..];
      nextElement, liveUrls, audible, audio := nextElement + 1, liveUrls + {h}, audible + {h}, Some(h);
    }

    /** `stopAudio`: empties the queue and pauses the current element; its object URL is not revoked. */
    method StopAudio()
      requires Valid()
      modifies this`queue, this`isPlaying, this`audible, this`audio
      ensures Valid()
      ensures queue == [] && !isPlaying && audio.None?
      ensures audible == if old(audio).Some? then old(audible) - {old(audio).value} else old(audible)
    {
      queue, isPlaying := [], false;
      if audio.Some? {
        audible, audio := audible - {audio.value}, None;
      }
    }

    /* ---------- socket events ---------- */

    /** `transcribing`: status `processing`, and the watchdog is (re-)armed. */
    method OnTranscribing()
      requires Valid()
      modifies this`status, this`timeout, this`pendingTimers, this`nextTimer
      ensures Valid() && JsonEffect(Transcribing)
    {
      UpdateStatus(Processing);
      StartProcessingTimeout();
    }

    /** `thinking`: resets the streaming state and `idleReceived`, and appends one user entry with a new id. */
    method OnThinking(userText: string)
      requires Valid()
      modifies this`streamingText, this`aiMessageId, this`idleReceived, this`nextUuid, this`messages
      ensures Valid() && JsonEffect(Thinking(userText))
    {
      AppendFresh(messages, Message(nextUuid, User, userText), nextUuid);
      streamingText, aiMessageId, idleReceived, nextUuid, messages :=
        "", None, false, nextUuid + 1, messages + [Message(nextUuid, User, userText)];
    }

    /**
     * `ai_chunk`: accumulates the text; the first chunk after a reset appends one 'ai' entry with a
     * new id, later ones rewrite that entry's text only.
     */
    method OnAiChunk(chunk: string)
      requires Valid()
      modifies this`streamingText, this`aiMessageId, this`nextUuid, this`messages, this`aiIndex
      ensures Valid() && JsonEffect(AiChunk(chunk))
    {
      var text := AppendChunk(streamingText, chunk);
      if aiMessageId.None? {
        AppendFresh(messages, Message(nextUuid, Ai, text), nextUuid);
        streamingText, nextUuid, aiMessageId, aiIndex, messages :=
          text, nextUuid + 1, Some(nextUuid), |messages|, messages + [Message(nextUuid, Ai, text)];
      } else {
        streamingText, messages := text, WithText(messages, aiMessageId.value, text);
      }
    }

    /** `speaking`: overwrites the text of the AI entry, if there is one; otherwise nothing happens. */
    method OnSpeaking(aiText: string)
      requires Valid()
      modifies this`messages
      ensures Valid() && JsonEffect(Speaking(aiText))
    {
      if aiMessageId.Some? {
        messages := WithText(messages, aiMessageId.value, aiText);
      }
    }

    /** `error`: shows the fixed banner text; the status does not change. */
    method OnServerError(message: string)
      requires Valid()
      modifies this`error
      ensures Valid() && JsonEffect(ServerError(message))
    {
      error := Some(ServerErrorText);
    }

    /** `idle`: disarms the watchdog, records the arrival, and resumes listening only if nothing is playing. */
    method OnServerIdle()
      requires Valid()
      modifies this`timeout, this`pendingTimers, this`idleReceived, this`status, vad, vad.detector
      ensures Valid() && JsonEffect(ServerIdle)
      ensures old(DetectorQuiet()) ==> DetectorQuiet()
    {
      ClearProcessingTimeout();
      idleReceived := true;
      if !isPlaying {
        UpdateStatus(Listening);
        vad.Resume();
      }
    }

    /** `onJson`: the switch on `data.status`. */
    method OnJson(ev: ServerEvent)
      requires Valid()
      modifies this`status, this`timeout, this`pendingTimers, this`nextTimer, this`streamingText,
        this`aiMessageId, this`idleReceived, this`nextUuid, this`messages, this`aiIndex, this`error,
        vad, vad.detector
      ensures Valid() && JsonEffect(ev)
      ensures ev.Unrecognised? ==> unchanged(this)
      ensures !ev.ServerIdle? ==> vad.State() == old(vad.State())
      ensures !(ev.ServerIdle? || ev.Transcribing?) ==> status == old(status)
      ensures old(DetectorQuiet()) ==> DetectorQuiet()
    {
      match ev
      case Transcribing => OnTranscribing();
      case Thinking(u) => OnThinking(u);
      case AiChunk(c) => OnAiChunk(c);
      case Speaking(t) => OnSpeaking(t);
      case ServerError(m) => OnServerError(m);
      case ServerIdle => OnServerIdle();
      case Unrecognised(_) =>
    }

    /**
     * The first half of `onBinary`: disarms the watchdog, pauses the detector, sets `playing` and
     * queues the clip at the tail. Until playback starts, a clip may sit in the queue with nothing
     * playing, so only `Core()` is kept.
     */
    method QueueClip(data: Transport.Bytes)
      requires Valid()
      modifies this`timeout, this`pendingTimers, this`status, this`queue, vad.detector
      ensures Core() && (isPlaying ==> Valid())
      ensures timeout == None && pendingTimers == {} && status == Playing && queue == old(queue) + [data]
      ensures vad.State() == Vad.Paused(old(vad.State()))
    {
      ClearProcessingTimeout();
      vad.Pause();
      UpdateStatus(Playing);
      queue := queue + [data];
    }

    /**
     * `onBinary`: disarms the watchdog, pauses the detector, sets `playing`, queues the clip at the
     * tail, and starts playback only if nothing is playing.
     */
    method OnBinary(data: Transport.Bytes)
      requires Valid()
      modifies this`timeout, this`pendingTimers, this`status, this`isPlaying, this`queue,
        this`nextElement, this`liveUrls, this`audible, this`audio, vad, vad.detector
      ensures Valid() && DetectorQuiet() && BinaryEffect(data)
    {
      QueueClip(data);
      if !isPlaying {
        PlayNext();
      }
    }

    /** `onClose`: disarms the watchdog and sets `idle`; the detector and the audio queue are left alone. */
    method OnClose()
      requires Valid()
      modifies this`timeout, this`pendingTimers, this`status
      ensures Valid()
      ensures timeout == None && pendingTimers == {} && status == Idle
    {
      ClearProcessingTimeout();
      if status != Idle {
        UpdateStatus(Idle);
      }
    }

    /** A frame arrives on the socket: the transport's dispatch rule routes it to `onJson` or `onBinary`. */
    method OnSocketMessage(frame: Transport.Frame, parse: string -> Option<ServerEvent>)
      requires Valid()
      modifies this, vad, vad.detector
      ensures Valid()
      ensures ws.Route(frame, parse).ToJson? ==> JsonEffect(ws.Route(frame, parse).value)
      ensures ws.Route(frame, parse).ToBinary? ==> BinaryEffect(ws.Route(frame, parse).data)
      ensures ws.Route(frame, parse).Dropped? || ws.Route(frame, parse).ParseThrows? ==>
        unchanged(this) && vad.State() == old(vad.State())
      ensures old(DetectorQuiet()) ==> DetectorQuiet()
    {
      var d := ws.Route(frame, parse);
      match d
      case ToJson(ev) => OnJson(ev);
      case ToBinary(data) => OnBinary(data);
      case Dropped =>
      case ParseThrows =>
    }

    /** Socket `s` (the current one or an earlier one) closed: `onClose` runs if that slot is filled. */
    method OnSocketClosed(s: Transport.Socket)
      requires Valid()
      modifies this`timeout, this`pendingTimers, this`status, s
      ensures Valid()
      ensures s.readyState == Transport.Closed && s.sent == old(s.sent)
      ensures ws.handlers.onClose ==> timeout == None && pendingTimers == {} && status == Idle
      ensures !ws.handlers.onClose ==> unchanged(this)
    {
      var forward := ws.SocketClosed(s);
      if forward {
        OnClose();
      }
    }

    /* ---------- detector events ---------- */

    /** Speech start: status `recording`. */
    method OnSpeechStart()
      requires Valid()
      modifies this`status
      ensures Valid()
      ensures status == Recording
    {
      UpdateStatus(Recording);
    }

    /**
     * Speech end: pauses the detector, sets `processing`, encodes the utterance at the default 16 kHz
     * and sends it; the send is dropped unless the socket is open. The watchdog is not armed here.
     */
    method OnSpeechEnd(samples: seq<real>)
      requires Valid()
      modifies this`status, vad.detector, ws.socket
      ensures Valid()
      ensures status == Processing
      ensures vad.State() == Vad.Paused(old(vad.State()))
      ensures ws.socket == old(ws.socket)
      ensures ws.socket != null ==> ws.socket.readyState == old(ws.socket.readyState)
      ensures ws.socket != null ==>
        ws.socket.sent == old(ws.socket.sent)
          + (if old(ws.socket.readyState) == Transport.Open then [Wav.WavImage(samples, 16000)] else [])
      ensures old(DetectorQuiet()) ==> DetectorQuiet()
    {
      vad.Pause();
      UpdateStatus(Processing);
      var wav := Wav.EncodeWav(samples);
      ws.SendBinary(wav[..]);
    }

    /* ---------- playback and timer events ---------- */

    /**
     * Element `h` ended, failed, or had its `play()` rejected: its URL is revoked, `audioRef` is
     * cleared and the next clip starts. Nothing checks that `h` is still the current element.
     */
    method ClipDone(h: nat)
      requires Valid() && h < nextElement
      modifies this`isPlaying, this`status, this`queue, this`nextElement, this`liveUrls,
        this`audible, this`audio, vad, vad.detector
      ensures Valid()
      ensures h !in liveUrls && h !in audible
      ensures nextElement == old(nextElement) + (if old(queue) != [] then 1 else 0)
      ensures liveUrls == old(liveUrls) - {h} + (if old(queue) != [] then {old(nextElement)} else {})
      ensures audible == old(audible) - {h} + (if old(queue) != [] then {old(nextElement)} else {})
      ensures old(queue) != [] ==>
        (queue == old(queue)[1..]
         && audio == Some(old(nextElement)) && isPlaying && status == old(status))
      ensures old(queue) == [] ==>
        (!isPlaying && audio.None? && queue == []
         && status == (if old(idleReceived) then Listening else old(status)))
      ensures vad.State() == if old(queue) == [] && old(idleReceived) then Vad.Resumed(old(vad.State())) else old(vad.State())
      ensures old(DetectorQuiet()) ==> DetectorQuiet()
    {
      liveUrls, audible, audio := liveUrls - {h}, audible - {h}, None;   // the element's URL is revoked
      PlayNext();
    }

    /**
     * The watchdog fired (it set no ref to null): only if the status is still `processing` does it
     * set `listening` and resume the detector; otherwise nothing but the timer changes.
     */
    method WatchdogFired(t: nat)
      requires Valid() && t in pendingTimers
      modifies this`pendingTimers, this`status, vad, vad.detector
      ensures Valid() && pendingTimers == {}
      ensures old(status) == Processing ==>
        (status == Listening && vad.State() == Vad.Resumed(old(vad.State())))
      ensures old(status) != Processing ==> status == old(status) && vad.State() == old(vad.State())
      ensures old(DetectorQuiet()) && !(old(status) == Processing && old(isPlaying)) ==> DetectorQuiet()
    {
      AtMostOneWatchdog();
      pendingTimers := pendingTimers - {t};
      if status == Processing {
        UpdateStatus(Listening);
        vad.Resume();
      }
    }

    /** The error banner's 4-second timer fired. */
    method ErrorExpired()
      requires Valid()
      modifies this`error
      ensures Valid()
      ensures error == None
    {
      error := None;
    }

    /* ---------- user events ---------- */

    /** `setupWSHandlers`: installs all three slots. */
    method SetupWsHandlers()
      modifies ws
      ensures ws.handlers == Transport.Handlers(true, true, true) && ws.socket == old(ws.socket)
    {
      ws.SetHandlers(Transport.Handlers(true, true, true));
    }

    /**
     * `startConversation`, with the outcomes of its two awaits as parameters: `connectOk` (the socket
     * opened) and `detectorOk` (the detector was created and started). On either failure the banner
     * is shown and the status is `idle`; the new socket stays referenced and is not disconnected.
     */
    method StartConversation(secure: bool, host: string, connectOk: bool, detectorOk: bool)
      requires Valid()
      modifies this`error, this`status, ws, vad
      ensures Valid()
      ensures ws.socket != null && fresh(ws.socket) && ws.socket.url == ChatUrl(secure, host) && ws.socket.sent == []
      ensures !connectOk ==>
        (ws.socket.readyState == Transport.Closed && ws.handlers == old(ws.handlers)
         && vad.State() == old(vad.State()) && error == Some(StartFailedText) && status == Idle)
      ensures connectOk ==> ws.socket.readyState == Transport.Open && ws.handlers == Transport.Handlers(true, true, true)
      ensures connectOk && !detectorOk ==>
        (vad.State() == old(vad.State()) && error == Some(StartFailedText) && status == Idle)
      ensures connectOk && detectorOk ==>
        (fresh(vad.detector) && vad.detector.running && !vad.detector.destroyed
         && error == old(error) && status == Listening)
      ensures vad.resumes == old(vad.resumes)
      ensures DetectorQuiet() == if connectOk && detectorOk then !isPlaying else old(DetectorQuiet())
    {
      var s := ws.Connect(ChatUrl(secure, host));
      if !connectOk {
        s.Failed();
        error := Some(StartFailedText);
        UpdateStatus(Idle);
        return;
      }
      s.Opened();
      SetupWsHandlers();
      var ok := vad.Start(detectorOk);
      if !ok {
        error := Some(StartFailedText);
        UpdateStatus(Idle);
        return;
      }
      UpdateStatus(Listening);
    }

    /** The first half of `endConversation`: the watchdog, the playback and the streaming refs are reset. */
    method ResetSession()
      requires Valid()
      modifies this`timeout, this`pendingTimers, this`queue, this`isPlaying, this`audible,
        this`audio, this`idleReceived, this`streamingText, this`aiMessageId
      ensures Valid()
      ensures timeout == None && pendingTimers == {} && queue == [] && !isPlaying && audio.None?
      ensures audible == if old(audio).Some? then old(audible) - {old(audio).value} else old(audible)
      ensures !idleReceived && streamingText == "" && aiMessageId == None
    {
      ClearProcessingTimeout();
      StopAudio();
      idleReceived, streamingText, aiMessageId := false, "", None;
    }

    /**
     * `endConversation`, from any state: no timer, an empty queue, nothing marked playing, reset
     * flags and streaming state, the detector stopped and forgotten, the socket closed and
     * forgotten, status `idle`. The transcript and the banner stay.
     */
    method EndConversation()
      requires Valid()
      modifies this`timeout, this`pendingTimers, this`queue, this`isPlaying, this`audible,
        this`audio, this`idleReceived, this`streamingText, this`aiMessageId, this`status,
        ws, ws.socket, vad, vad.detector
      ensures Valid() && DetectorQuiet()
      ensures timeout == None && pendingTimers == {} && queue == [] && !isPlaying && audio.None?
      ensures audible == if old(audio).Some? then old(audible) - {old(audio).value} else old(audible)
      ensures !idleReceived && streamingText == "" && aiMessageId == None && status == Idle
      ensures vad.detector == null && vad.resumes == old(vad.resumes)
      ensures ws.socket == null && ws.handlers == old(ws.handlers)
      ensures old(vad.detector) != null ==> !old(vad.detector).running && old(vad.detector).destroyed
      ensures old(ws.socket) != null ==>
        old(ws.socket).readyState == Transport.AfterClose(old(ws.socket.readyState))
        && old(ws.socket).sent == old(ws.socket.sent)
    {
      ResetSession();
      vad.Stop();
      ws.Disconnect();
      UpdateStatus(Idle);
    }

    /* ---------- the resume rule, in both arrival orders ---------- */

    /**
     * The turn's last clip is playing when `idle` arrives: `idle` does not resume, the clip's
     * completion does, so listening resumes exactly once.
     */
    method IdleThenLastClipDone()
      requires Valid() && isPlaying && queue == [] && !idleReceived
      modifies this`timeout, this`pendingTimers, this`idleReceived, this`isPlaying, this`status, this`queue,
        this`nextElement, this`liveUrls, this`audible, this`audio, vad, vad.detector
      ensures Valid() && !isPlaying && idleReceived && status == Listening
      ensures vad.State() == Vad.Resumed(old(vad.State()))
    {
      OnServerIdle();
      ClipDone(audio.value);
    }

    /**
     * The turn's last clip ends before `idle` arrives: the completion does not resume, `idle` does,
     * so listening resumes exactly once.
     */
    method LastClipDoneThenIdle()
      requires Valid() && isPlaying && queue == [] && !idleReceived
      modifies this`timeout, this`pendingTimers, this`idleReceived, this`isPlaying, this`status, this`queue,
        this`nextElement, this`liveUrls, this`audible, this`audio, vad, vad.detector
      ensures Valid() && !isPlaying && idleReceived && status == Listening
      ensures vad.State() == Vad.Resumed(old(vad.State()))
    {
      ClipDone(audio.value);
      OnServerIdle();
    }

    /**
     * The playing element reports completion twice (its `onerror`, then its rejected `play()`), the
     * second time while the element started for the last queued clip plays. The second report clears
     * `audioRef` and `isPlayingRef` though that element is still audible, so a later `idle` resumes
     * the detector during the clip, and `DetectorQuiet` still holds.
     */
    method StaleCompletionThenIdle()
      requires Valid() && isPlaying && |queue| == 1 && !idleReceived
      modifies this`timeout, this`pendingTimers, this`idleReceived, this`isPlaying, this`status, this`queue,
        this`nextElement, this`liveUrls, this`audible, this`audio, vad, vad.detector
      ensures Valid() && !isPlaying && audio.None? && queue == [] && old(nextElement) in audible
      ensures vad.State() == Vad.Resumed(old(vad.State())) && DetectorQuiet()
    {
      var h := audio.value;
      ClipDone(h);
      ClipDone(h);
      OnServerIdle();
    }

    /**
     * As above, but with two clips queued: the second report from the first element does not clear
     * `audioRef`; it starts the last clip's element while the previous one still plays, so two
     * elements are audible at once and the clips no longer play one after another.
     */
    method StaleCompletionOverlaps()
      requires Valid() && isPlaying && |queue| == 2
      modifies this`isPlaying, this`status, this`queue, this`nextElement, this`liveUrls,
        this`audible, this`audio, vad, vad.detector
      ensures Valid() && isPlaying && queue == [] && audio == Some(old(nextElement) + 1)
      ensures old(nextElement) in audible && old(nextElement) + 1 in audible
      ensures vad.State() == old(vad.State())
    {
      var h := audio.value;
      ClipDone(h);
      ClipDone(h);
    }

    /**
     * `toggle`: starts when idle, ends otherwise. Each branch has its callee's whole effect; the
     * transcript, the counters and the live object URLs stay in both.
     */
    method Toggle(secure: bool, host: string, connectOk: bool, detectorOk: bool)
      requires Valid()
      modifies this`timeout, this`pendingTimers, this`queue, this`isPlaying, this`audible,
        this`audio, this`idleReceived, this`streamingText, this`aiMessageId, this`status, this`error,
        ws, ws.socket, vad, vad.detector
      ensures Valid()
      // from `idle`: `startConversation`
      ensures old(status) == Idle ==>
        (ws.socket != null && fresh(ws.socket) && ws.socket.url == ChatUrl(secure, host) && ws.socket.sent == [])
      ensures old(status) == Idle && !connectOk ==>
        (ws.socket.readyState == Transport.Closed && ws.handlers == old(ws.handlers)
         && vad.State() == old(vad.State()) && error == Some(StartFailedText) && status == Idle)
      ensures old(status) == Idle && connectOk ==>
        ws.socket.readyState == Transport.Open && ws.handlers == Transport.Handlers(true, true, true)
      ensures old(status) == Idle && connectOk && !detectorOk ==>
        (vad.State() == old(vad.State()) && error == Some(StartFailedText) && status == Idle)
      ensures old(status) == Idle && connectOk && detectorOk ==>
        (fresh(vad.detector) && vad.detector.running && !vad.detector.destroyed
         && error == old(error) && status == Listening)
      ensures old(status) == Idle ==>
        (vad.resumes == old(vad.resumes) && TimerKept() && PlaybackKept()
         && idleReceived == old(idleReceived) && streamingText == old(streamingText) && aiMessageId == old(aiMessageId))
      ensures old(status) == Idle && old(vad.detector) != null ==> unchanged(old(vad.detector))
      ensures old(status) == Idle && old(ws.socket) != null ==> unchanged(old(ws.socket))
      // from any other status: `endConversation`
      ensures old(status) != Idle ==>
        (timeout == None && pendingTimers == {} && queue == [] && !isPlaying && audio.None?
         && audible == (if old(audio).Some? then old(audible) - {old(audio).value} else old(audible))
         && !idleReceived && streamingText == "" && aiMessageId == None && status == Idle && error == old(error)
         && vad.detector == null && vad.resumes == old(vad.resumes)
         && ws.socket == null && ws.handlers == old(ws.handlers))
      ensures old(status) != Idle && old(vad.detector) != null ==>
        !old(vad.detector).running && old(vad.detector).destroyed
      ensures old(status) != Idle && old(ws.socket) != null ==>
        old(ws.socket).readyState == Transport.AfterClose(old(ws.socket.readyState))
        && old(ws.socket).sent == old(ws.socket.sent)
      ensures old(DetectorQuiet()) && !(old(status) == Idle && old(isPlaying)) ==> DetectorQuiet()
    {
      if status == Idle {
        StartConversation(secure, host, connectOk, detectorOk);
      } else {
        EndConversation();
      }
    }
    }
}
