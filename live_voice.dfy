/** The live voice assistant: the connection flags, the transcript and
    playback router run on every server message, the playback cursor and the
    set of playing sources, and the teardown of the five resource slots.

    Each callback is one atomic step. The pure functions below say what a
    step does to a `VoiceState`; the class `VoiceSession` holds the same state
    in fields and updates it in place, each of its methods proved to perform
    the corresponding step. The browser objects are not modelled, only the
    calls the component makes on them: `played` records every `start(t)` of a
    buffer source, `stopped` every source `stop()`ped on an interrupt, and
    `closed` lists the resources closed by the teardown, in order. */
module LiveVoice {
  import opened Wrappers
  import opened Base64
  import opened PcmCodec

  /** The rate of the output audio context and of the decoded chunks. */
  const OutputRate: nat := 24000

  /** A buffer source node, by the order in which it was created. */
  type SourceId = nat

  /** One `start(at)` call: the source, the time it starts and its buffer's
      duration in seconds. */
  datatype Chunk = Chunk(source: SourceId, start: real, duration: real)

  /** The five slots `stopSession` releases. */
  datatype Resource = Session | Processor | Stream | ContextIn | ContextOut

  /** A browser object the component created: what kind of object it is and
      its position in the order of creation. */
  datatype Instance = Instance(kind: Resource, id: nat)

  datatype Flags = Flags(isActive: bool, isConnecting: bool)

  /** What the assistant said and what the user said, this turn. */
  datatype Transcripts = Transcripts(transcription: string, userTranscription: string)

  /** What each ref points at, by creation order, or null: the session, the
      capture processor, the microphone stream, the 16 kHz input and 24 kHz
      output contexts. */
  datatype Slots = Slots(session: Option<nat>, processor: Option<nat>, stream: Option<nat>,
                         contextIn: Option<nat>, contextOut: Option<nat>)

  /** The playback cursor, the tracked sources, the next source to create,
      and the `start`/`stop` calls made so far. */
  datatype Playback = Playback(
    nextStartTime: real,
    sources: set<SourceId>,
    nextSource: SourceId,
    played: seq<Chunk>,
    stopped: set<SourceId>)

  /** `created` lists every object the refs were given, in order, so that
      object `k` is `created[k]`; `closed` lists the objects the teardown
      closed (or disconnected, or whose tracks it stopped), in order. */
  datatype VoiceState = VoiceState(
    flags: Flags,
    text: Transcripts,
    slots: Slots,
    playback: Playback,
    created: seq<Instance>,
    closed: seq<Instance>)

  /** A transcription part; its `text` may be absent. */
  datatype Transcription = Transcription(text: Option<string>)

  /** The model turn of a message as `modelTurn?.parts[0]?.inlineData?.data`
      sees it: absent, present without a `parts` array (indexing undefined
      throws a TypeError), or the inline data of its first part, if any. */
  datatype ModelTurn = NoModelTurn | NoParts | FirstPart(data: Option<string>)

  /** The fields of a server message the router reads. */
  datatype ServerMessage = ServerMessage(
    outputTranscription: Option<Transcription>,
    inputTranscription: Option<Transcription>,
    turnComplete: bool,
    modelTurn: ModelTurn,
    interrupted: bool)

  /** The audio string the router reads, when it reads one. */
  function AudioData(msg: ServerMessage): Option<string> {
    if msg.modelTurn.FirstPart? then msg.modelTurn.data else None
  }

  /** What `prev + part.text` appends: an absent text is converted to the
      string "undefined". */
  function Appended(t: Transcription): string {
    match t.text
    case Some(s) => s
    case None => "undefined"
  }

  function Max(a: real, b: real): real {
    if a >= b then a else b
  }

  const NoSlots := Slots(None, None, None, None, None)

  const Idle := VoiceState(Flags(false, false), Transcripts("", ""), NoSlots,
                           Playback(0.0, {}, 0, [], {}), [], [])

  // ---------------------------------------------------------------------
  // Connection

  /** `startSession` up to the pending connection: set connecting, create both
      contexts and ask for the microphone. The new contexts overwrite the refs
      whatever they held, and a granted stream overwrites the stream ref. A
      refusal lands in the catch, which only clears connecting. */
  function AfterStart(st: VoiceState, micGranted: bool): VoiceState {
    var n := |st.created|;
    var slots := st.slots.(contextIn := Some(n), contextOut := Some(n + 1));
    var created := st.created + [Instance(ContextIn, n), Instance(ContextOut, n + 1)];
    if micGranted then
      st.(flags := st.flags.(isConnecting := true), slots := slots.(stream := Some(n + 2)),
          created := created + [Instance(Stream, n + 2)])
    else st.(flags := st.flags.(isConnecting := false), slots := slots, created := created)
  }

  /** `onopen`: connected. The capture processor is created on the input
      context and overwrites the processor ref; with that context gone,
      calling `createMediaStreamSource` on null throws after the flags are
      set. */
  function AfterOpen(st: VoiceState): VoiceState {
    var n := |st.created|;
    if st.slots.contextIn.Some? then
      st.(flags := Flags(true, false), slots := st.slots.(processor := Some(n)),
          created := st.created + [Instance(Processor, n)])
    else st.(flags := Flags(true, false))
  }

  /** The `await` on the connection: the session is kept, or the catch clears
      connecting. */
  function AfterConnect(st: VoiceState, ok: bool): VoiceState {
    var n := |st.created|;
    if ok then st.(slots := st.slots.(session := Some(n)), created := st.created + [Instance(Session, n)])
    else st.(flags := st.flags.(isConnecting := false))
  }

  // ---------------------------------------------------------------------
  // Message router

  /** The transcript part of a message: output text to the assistant's
      transcript, input text to the user's, then turn-complete clears both. */
  function Transcribe(t: Transcripts, msg: ServerMessage): Transcripts {
    var out := if msg.outputTranscription.Some?
               then t.transcription + Appended(msg.outputTranscription.value)
               else t.transcription;
    var inp := if msg.inputTranscription.Some?
               then t.userTranscription + Appended(msg.inputTranscription.value)
               else t.userTranscription;
    if msg.turnComplete then Transcripts("", "") else Transcripts(out, inp)
  }

  /** A chunk decoded as `decodeAudioData(decodeAudio(data), ctx, 24000, 1)`
      does; `None` when either throws. */
  function DecodedChunk(data: string): Option<AudioBuffer> {
    var bin := Atob(data);
    if bin.None? then None
    else
      var buf := DecodedBuffer(Codes(bin.value), OutputRate, 1);
      if buf.Err? then None else Some(buf.value)
  }

  /** What the router decodes from a message: nothing when it carries no
      audio string. */
  function DecodedAudio(msg: ServerMessage): Option<AudioBuffer> {
    if AudioData(msg).Some? then DecodedChunk(AudioData(msg).value) else None
  }

  /** `buffer.duration`: frames over the sample rate. */
  function Duration(buf: AudioBuffer): real {
    buf.length as real / OutputRate as real
  }

  /** A decoded chunk is never empty: it lasts a positive time. */
  lemma DecodedChunkNotEmpty(data: string)
    requires DecodedChunk(data).Some?
    ensures DecodedChunk(data).value.length > 0
    ensures Duration(DecodedChunk(data).value) > 0.0
  {
    var bin := Atob(data);
    DecodedBufferShape(Codes(bin.value), OutputRate, 1);
  }

  /** Whether the audio part runs: the data is a non-empty string and the
      output context is held. */
  predicate Playable(msg: ServerMessage, contextOut: bool) {
    AudioData(msg).Some? && AudioData(msg).value != "" && contextOut
  }

  /** Whether the handler throws before its interrupt part: reading the
      audio of a model turn without parts, or decoding a chunk that does not
      decode. */
  predicate Throws(msg: ServerMessage, contextOut: bool, decoded: Option<AudioBuffer>) {
    msg.modelTurn.NoParts? || (Playable(msg, contextOut) && decoded.None?)
  }

  /** The audio part: move the cursor up to the clock, then start the decoded
      chunk at the cursor, advance the cursor by its duration and track the
      source. `decoded` is what decoding the data gave. A model turn without
      parts aborts the handler before anything is read, and a chunk that
      fails to decode aborts it with the cursor already moved (the flag is
      false in both). */
  function PlayAudio(p: Playback, msg: ServerMessage, contextOut: bool, now: real,
                     decoded: Option<AudioBuffer>): (Playback, bool) {
    if msg.modelTurn.NoParts? then (p, false)
    else if !Playable(msg, contextOut) then (p, true)
    else
      var cursor := Max(p.nextStartTime, now);
      if decoded.None? then (p.(nextStartTime := cursor), false)
      else
        var d := Duration(decoded.value);
        (Playback(cursor + d, p.sources + {p.nextSource}, p.nextSource + 1,
                  p.played + [Chunk(p.nextSource, cursor, d)], p.stopped), true)
  }

  /** The interrupt part: stop every tracked source, forget them all and reset
      the cursor to 0. */
  function Interrupt(p: Playback, msg: ServerMessage): Playback {
    if msg.interrupted then p.(stopped := p.stopped + p.sources, sources := {}, nextStartTime := 0.0)
    else p
  }

  /** The playback side of `onmessage`: the audio part, then, unless it
      aborted, the interrupt part. */
  function PlaybackStep(p: Playback, msg: ServerMessage, contextOut: bool, now: real,
                        decoded: Option<AudioBuffer>): Playback {
    var (p', ok) := PlayAudio(p, msg, contextOut, now, decoded);
    if ok then Interrupt(p', msg) else p'
  }

  /** `onmessage` with the playback clock reading `now`, the message's audio
      decoding to `decoded` (`DecodedAudio(msg)` in the component). Every
      property below holds whatever the decoder returns. */
  function AfterMessage(st: VoiceState, msg: ServerMessage, now: real, decoded: Option<AudioBuffer>): VoiceState {
    st.(text := Transcribe(st.text, msg),
        playback := PlaybackStep(st.playback, msg, st.slots.contextOut.Some?, now, decoded))
  }

  /** A source's `onended`: it leaves the set. */
  function AfterEnded(st: VoiceState, id: SourceId): VoiceState {
    st.(playback := st.playback.(sources := st.playback.sources - {id}))
  }

  // ---------------------------------------------------------------------
  // Teardown

  /** The object a resource's ref points at, if any. */
  function SlotOf(slots: Slots, r: Resource): Option<nat> {
    match r
    case Session => slots.session
    case Processor => slots.processor
    case Stream => slots.stream
    case ContextIn => slots.contextIn
    case ContextOut => slots.contextOut
  }

  /** Whether a resource's ref is not null. */
  predicate Holds(slots: Slots, r: Resource) {
    SlotOf(slots, r).Some?
  }

  /** The slots with `r`'s set to null. */
  function Without(slots: Slots, r: Resource): Slots {
    match r
    case Session => slots.(session := None)
    case Processor => slots.(processor := None)
    case Stream => slots.(stream := None)
    case ContextIn => slots.(contextIn := None)
    case ContextOut => slots.(contextOut := None)
  }

  /** One slot of the teardown: when held, close its object and null it. */
  function Release(st: VoiceState, r: Resource): VoiceState {
    match SlotOf(st.slots, r)
    case Some(id) => st.(slots := Without(st.slots, r), closed := st.closed + [Instance(r, id)])
    case None => st
  }

  /** `stopSession`: clear both flags, then release the session, the
      processor, the stream, the input context and the output context. */
  function AfterStop(st: VoiceState): VoiceState {
    var s := st.(flags := Flags(false, false));
    Release(Release(Release(Release(Release(s, Session), Processor), Stream), ContextIn), ContextOut)
  }
}

/** What the live voice steps guarantee, one message at a time and over runs
    of messages. */
module LiveVoiceProperties {
  import opened Wrappers
  import opened PcmCodec
  import opened LiveVoice

  // ---------------------------------------------------------------------
  // Properties of one message

  /** A chunk is started at `max(cursor, clock)`: never in the past and never
      before the end of what was scheduled. It is tracked, and unless the same
      message interrupts, the cursor afterwards is the chunk's end. */
  lemma ChunkScheduling(p: Playback, msg: ServerMessage, contextOut: bool, now: real, decoded: Option<AudioBuffer>)
    requires |PlaybackStep(p, msg, contextOut, now, decoded).played| > |p.played|
    ensures var p' := PlaybackStep(p, msg, contextOut, now, decoded);
      && Playable(msg, contextOut) && decoded.Some?
      && p'.played == p.played + [Chunk(p.nextSource, Max(p.nextStartTime, now), Duration(decoded.value))]
      && p'.played[|p.played|].start >= now
      && p'.played[|p.played|].start >= p.nextStartTime
      && p'.nextSource == p.nextSource + 1
      && (!msg.interrupted ==> p'.nextStartTime == End(p'.played[|p.played|]) && p.nextSource in p'.sources)
      && (msg.interrupted ==> p.nextSource in p'.stopped)
  {
  }

  /** Messages without playable audio schedule nothing; without an interrupt
      they leave the playback untouched. */
  lemma NoAudioNoChunk(p: Playback, msg: ServerMessage, contextOut: bool, now: real, decoded: Option<AudioBuffer>)
    requires !Playable(msg, contextOut)
    ensures PlaybackStep(p, msg, contextOut, now, decoded).played == p.played
    ensures PlaybackStep(p, msg, contextOut, now, decoded).nextSource == p.nextSource
    ensures !msg.interrupted ==> PlaybackStep(p, msg, contextOut, now, decoded) == p
  {
  }

  /** A chunk that does not decode aborts the handler: the cursor has moved up
      to the clock, nothing is started and an interrupt in the same message is
      not acted on. */
  lemma UndecodableChunkAborts(p: Playback, msg: ServerMessage, contextOut: bool, now: real)
    requires Playable(msg, contextOut)
    ensures PlaybackStep(p, msg, contextOut, now, None) == p.(nextStartTime := Max(p.nextStartTime, now))
  {
  }

  /** A model turn without parts throws a TypeError once the transcripts are
      updated: the playback is left as it was, interrupt or not. */
  lemma MissingPartsAborts(st: VoiceState, msg: ServerMessage, now: real, decoded: Option<AudioBuffer>)
    requires msg.modelTurn.NoParts?
    ensures AfterMessage(st, msg, now, decoded).playback == st.playback
    ensures AfterMessage(st, msg, now, decoded).text == Transcribe(st.text, msg)
  {
  }

  /** An interrupt stops every tracked source, including a chunk started by
      the same message, empties the set and resets the cursor to 0. */
  lemma InterruptStopsAll(p: Playback, msg: ServerMessage, contextOut: bool, now: real, decoded: Option<AudioBuffer>)
    requires msg.interrupted && !Throws(msg, contextOut, decoded)
    ensures var p' := PlaybackStep(p, msg, contextOut, now, decoded);
      && p'.sources == {}
      && p'.nextStartTime == 0.0
      && p'.stopped == p.stopped + p.sources + (if |p'.played| > |p.played| then {p.nextSource} else {})
  {
  }

  /** After an interrupt the cursor is 0, so the next chunk starts at the
      clock time. */
  lemma NextChunkAfterInterruptStartsNow(p: Playback, msg: ServerMessage, contextOut: bool, now: real,
                                         decoded: Option<AudioBuffer>, next: ServerMessage, later: real,
                                         decodedNext: Option<AudioBuffer>)
    requires msg.interrupted && !Throws(msg, contextOut, decoded)
    requires later >= 0.0
    requires var p' := PlaybackStep(p, msg, contextOut, now, decoded);
      |PlaybackStep(p', next, contextOut, later, decodedNext).played| > |p'.played|
    ensures var p' := PlaybackStep(p, msg, contextOut, now, decoded);
      PlaybackStep(p', next, contextOut, later, decodedNext).played[|p'.played|].start == later
  {
    var p' := PlaybackStep(p, msg, contextOut, now, decoded);
    InterruptStopsAll(p, msg, contextOut, now, decoded);
    ChunkScheduling(p', next, contextOut, later, decodedNext);
  }

  /** A source leaves the set only through its own `onended` or an interrupt:
      every other step keeps the set or adds to it. */
  lemma SourcesLeaveOnlyByEndOrInterrupt(st: VoiceState, msg: ServerMessage, now: real,
                                         decoded: Option<AudioBuffer>, id: SourceId, granted: bool, ok: bool)
    ensures !msg.interrupted ==> st.playback.sources <= AfterMessage(st, msg, now, decoded).playback.sources
    ensures AfterEnded(st, id).playback.sources == st.playback.sources - {id}
    ensures AfterStart(st, granted).playback == st.playback
    ensures AfterOpen(st).playback == st.playback
    ensures AfterConnect(st, ok).playback == st.playback
    ensures AfterStop(st).playback == st.playback
  {
  }

  /** Assistant text reaches only the assistant's transcript and user text
      only the user's; turn-complete is checked after the appends, so it
      empties both even when the same message carries text. */
  lemma TranscriptsSeparate(t: Transcripts, msg: ServerMessage, part: Option<Transcription>)
    ensures Transcribe(t, msg.(outputTranscription := part)).userTranscription == Transcribe(t, msg).userTranscription
    ensures Transcribe(t, msg.(inputTranscription := part)).transcription == Transcribe(t, msg).transcription
    ensures !msg.turnComplete && msg.outputTranscription.Some? ==>
      Transcribe(t, msg).transcription == t.transcription + Appended(msg.outputTranscription.value)
    ensures !msg.turnComplete && msg.inputTranscription.Some? ==>
      Transcribe(t, msg).userTranscription == t.userTranscription + Appended(msg.inputTranscription.value)
    ensures msg.turnComplete ==> Transcribe(t, msg) == Transcripts("", "")
  {
  }

  /** The connection flags: a start sets connecting; `onopen` clears it and
      sets active; a start that fails, at the microphone or at the connection,
      clears connecting without ever setting active. */
  lemma ConnectionFlags(st: VoiceState)
    ensures AfterStart(st, true).flags.isConnecting
    ensures AfterOpen(st).flags == Flags(true, false)
    ensures AfterStart(Idle, false).flags == Flags(false, false)
    ensures AfterConnect(AfterStart(Idle, true), false).flags == Flags(false, false)
  {
  }

  /** The object a ref holds, as a one-entry log, or nothing. */
  function IfHeld(slots: Slots, r: Resource): seq<Instance> {
    match SlotOf(slots, r)
    case Some(id) => [Instance(r, id)]
    case None => []
  }

  /** Every object the refs hold, in the order of the teardown. */
  function HeldObjects(slots: Slots): seq<Instance> {
    IfHeld(slots, Session) + IfHeld(slots, Processor) + IfHeld(slots, Stream)
    + IfHeld(slots, ContextIn) + IfHeld(slots, ContextOut)
  }

  /** Releasing a slot closes its object exactly when it holds one, nulls it,
      and touches no other slot. */
  lemma ReleaseSlot(st: VoiceState, r: Resource)
    ensures Release(st, r).slots == Without(st.slots, r)
    ensures forall other :: other != r ==> SlotOf(Release(st, r).slots, other) == SlotOf(st.slots, other)
    ensures !Holds(Release(st, r).slots, r)
    ensures Release(st, r).closed == st.closed + IfHeld(st.slots, r)
    ensures Release(st, r).flags == st.flags && Release(st, r).playback == st.playback
    ensures Release(st, r).created == st.created
  {
  }

  /** How many refs hold an object. */
  function HeldCount(slots: Slots): nat {
    (if slots.session.Some? then 1 else 0) + (if slots.processor.Some? then 1 else 0)
    + (if slots.stream.Some? then 1 else 0) + (if slots.contextIn.Some? then 1 else 0)
    + (if slots.contextOut.Some? then 1 else 0)
  }

  /** The teardown clears both flags and every ref and appends the held
      objects to the log, in the order session, processor, stream, input
      context, output context. */
  lemma StopClosesHeld(st: VoiceState)
    ensures AfterStop(st).flags == Flags(false, false)
    ensures AfterStop(st).slots == NoSlots
    ensures AfterStop(st).closed == st.closed + HeldObjects(st.slots)
    ensures AfterStop(st).created == st.created && AfterStop(st).playback == st.playback
  {
    var s0 := st.(flags := Flags(false, false));
    var s1 := Release(s0, Session);
    var s2 := Release(s1, Processor);
    var s3 := Release(s2, Stream);
    var s4 := Release(s3, ContextIn);
    ReleaseSlot(s0, Session);
    ReleaseSlot(s1, Processor);
    ReleaseSlot(s2, Stream);
    ReleaseSlot(s3, ContextIn);
    ReleaseSlot(s4, ContextOut);
  }

  /** No object appears twice in a log. */
  predicate Distinct(log: seq<Instance>) {
    forall i, j :: 0 <= i < j < |log| ==> log[i] != log[j]
  }

  /** Whether a ref still points at the object. */
  predicate Reachable(slots: Slots, x: Instance) {
    SlotOf(slots, x.kind) == Some(x.id)
  }

  /** The states the component reaches from `Idle`: object k is the k-th one
      created, only created objects are closed and each at most once, and
      every ref points at a created object that is still open. */
  predicate Valid(st: VoiceState) {
    && (forall k :: 0 <= k < |st.created| ==> st.created[k].id == k)
    && (forall x :: x in st.closed ==> x in st.created)
    && Distinct(st.closed)
    && (forall r :: Holds(st.slots, r) ==>
          Instance(r, SlotOf(st.slots, r).value) in st.created
          && Instance(r, SlotOf(st.slots, r).value) !in st.closed)
  }

  /** The objects that were created, were never closed and that no ref points
      at any more: nothing in the component can close them. */
  function Leaked(st: VoiceState): set<Instance> {
    set x | x in st.created && x !in st.closed && !Reachable(st.slots, x)
  }

  lemma HeldObjectsDistinct(slots: Slots)
    ensures Distinct(HeldObjects(slots))
    ensures |HeldObjects(slots)| == HeldCount(slots)
    ensures forall x :: x in HeldObjects(slots) <==> Reachable(slots, x)
  {
  }

  lemma DistinctAppend(a: seq<Instance>, b: seq<Instance>)
    requires Distinct(a) && Distinct(b)
    requires forall x :: x in b ==> x !in a
    ensures Distinct(a + b)
  {
    forall i, j | 0 <= i < j < |a + b| ensures (a + b)[i] != (a + b)[j] {
      if j < |a| {
        assert (a + b)[j] == a[j] && (a + b)[i] == a[i];
      } else if i < |a| {
        assert (a + b)[j] == b[j - |a|] && (a + b)[i] == a[i];
        assert b[j - |a|] in b;
      } else {
        assert (a + b)[j] == b[j - |a|] && (a + b)[i] == b[i - |a|];
      }
    }
  }

  /** So the teardown closes every held object, nothing else, and each
      exactly once; it keeps the component's states valid, and the objects
      already lost stay open. */
  lemma StopClosesEachHeldOnce(st: VoiceState)
    ensures st.closed <= AfterStop(st).closed
    ensures |AfterStop(st).closed| == |st.closed| + HeldCount(st.slots)
    ensures forall x :: x in AfterStop(st).closed <==> x in st.closed || Reachable(st.slots, x)
    ensures Valid(st) ==> Valid(AfterStop(st)) && Distinct(AfterStop(st).closed)
    ensures Leaked(AfterStop(st)) == Leaked(st)
  {
    StopClosesHeld(st);
    HeldObjectsDistinct(st.slots);
    if Valid(st) {
      forall x | x in HeldObjects(st.slots) ensures x !in st.closed {
        assert Holds(st.slots, x.kind);
      }
      DistinctAppend(st.closed, HeldObjects(st.slots));
    }
  }

  /** A second teardown finds nothing held and changes nothing. */
  lemma StopIdempotent(st: VoiceState)
    ensures AfterStop(AfterStop(st)) == AfterStop(st)
  {
    StopClosesHeld(st);
    StopClosesHeld(AfterStop(st));
  }

  /** Audio that arrives after the teardown starts nothing, since the output
      context is gone; only an interrupt still reaches the tracked sources. */
  lemma AudioAfterStopIgnored(st: VoiceState, msg: ServerMessage, now: real, decoded: Option<AudioBuffer>)
    ensures var st' := AfterMessage(AfterStop(st), msg, now, decoded);
      && st'.playback.played == st.playback.played
      && st'.playback.nextSource == st.playback.nextSource
      && st'.slots == NoSlots
      && (!msg.interrupted ==> st'.playback == st.playback)
  {
    StopClosesHeld(st);
  }

  /** The object a ref holds, as a set. */
  function HeldSet(slots: Slots, r: Resource): set<Instance> {
    match SlotOf(slots, r)
    case Some(id) => {Instance(r, id)}
    case None => {}
  }

  /** The objects whose refs a start overwrites: both contexts, and the
      stream when the microphone is granted. */
  function Overwritten(slots: Slots, micGranted: bool): set<Instance> {
    HeldSet(slots, ContextIn) + HeldSet(slots, ContextOut) + (if micGranted then HeldSet(slots, Stream) else {})
  }

  /** Every object created so far has an id below the next one's. */
  lemma CreatedBelow(st: VoiceState)
    requires Valid(st)
    ensures forall x :: x in st.created ==> x.id < |st.created|
  {
    forall x | x in st.created ensures x.id < |st.created| {
      var k :| 0 <= k < |st.created| && st.created[k] == x;
    }
  }

  /** A start keeps the component's state valid: the new objects are fresh. */
  lemma StartKeepsValid(st: VoiceState, micGranted: bool)
    requires Valid(st)
    ensures Valid(AfterStart(st, micGranted))
  {
    var st' := AfterStart(st, micGranted);
    var n := |st.created|;
    CreatedBelow(st);
    assert forall x :: x in st'.closed ==> x.id < n;
    forall r | Holds(st'.slots, r)
      ensures Instance(r, SlotOf(st'.slots, r).value) in st'.created
      ensures Instance(r, SlotOf(st'.slots, r).value) !in st'.closed
    {
      if r == ContextIn {
        assert st'.created[n] == Instance(r, SlotOf(st'.slots, r).value);
      } else if r == ContextOut {
        assert st'.created[n + 1] == Instance(r, SlotOf(st'.slots, r).value);
      } else if micGranted && r == Stream {
        assert st'.created[n + 2] == Instance(r, SlotOf(st'.slots, r).value);
      } else {
        assert SlotOf(st'.slots, r) == SlotOf(st.slots, r);
      }
    }
  }

  /** A start loses the objects whose refs it overwrites without closing
      them: they join the leaked objects, and nothing else does. */
  lemma StartLeaksOverwritten(st: VoiceState, micGranted: bool)
    requires Valid(st)
    ensures Leaked(AfterStart(st, micGranted)) == Leaked(st) + Overwritten(st.slots, micGranted)
  {
    var st' := AfterStart(st, micGranted);
    CreatedBelow(st);
    forall x | x in Leaked(st') ensures x in Leaked(st) + Overwritten(st.slots, micGranted) {
      assert x in st.created;
    }
    forall x | x in Overwritten(st.slots, micGranted) ensures x in Leaked(st') {
      assert Holds(st.slots, x.kind);
    }
  }

  /** `onopen` loses a processor its ref still held. */
  lemma OpenLeaksProcessor(st: VoiceState)
    requires Valid(st)
    ensures Valid(AfterOpen(st))
    ensures Leaked(AfterOpen(st))
         == Leaked(st) + (if st.slots.contextIn.Some? then HeldSet(st.slots, Processor) else {})
  {
    var st' := AfterOpen(st);
    CreatedBelow(st);
    assert forall x :: x in st'.closed ==> x.id < |st.created|;
    forall r | Holds(st'.slots, r)
      ensures Instance(r, SlotOf(st'.slots, r).value) in st'.created
      ensures Instance(r, SlotOf(st'.slots, r).value) !in st'.closed
    {
      if r == Processor && st.slots.contextIn.Some? {
        assert st'.created[|st.created|] == Instance(r, SlotOf(st'.slots, r).value);
      } else {
        assert SlotOf(st'.slots, r) == SlotOf(st.slots, r);
      }
    }
    forall x | x in Leaked(st') ensures x in Leaked(st) + (if st.slots.contextIn.Some? then HeldSet(st.slots, Processor) else {}) {
      assert x in st.created;
    }
  }

  /** A kept connection loses a session its ref still held. */
  lemma ConnectLeaksSession(st: VoiceState, ok: bool)
    requires Valid(st)
    ensures Valid(AfterConnect(st, ok))
    ensures Leaked(AfterConnect(st, ok)) == Leaked(st) + (if ok then HeldSet(st.slots, Session) else {})
  {
    var st' := AfterConnect(st, ok);
    CreatedBelow(st);
    assert forall x :: x in st'.closed ==> x.id < |st.created|;
    forall r | Holds(st'.slots, r)
      ensures Instance(r, SlotOf(st'.slots, r).value) in st'.created
      ensures Instance(r, SlotOf(st'.slots, r).value) !in st'.closed
    {
      if r == Session && ok {
        assert st'.created[|st.created|] == Instance(r, SlotOf(st'.slots, r).value);
      } else {
        assert SlotOf(st'.slots, r) == SlotOf(st.slots, r);
      }
    }
    forall x | x in Leaked(st') ensures x in Leaked(st) + (if ok then HeldSet(st.slots, Session) else {}) {
      assert x in st.created;
    }
  }

  /** A lost object is never closed: no callback removes one from the leaked
      objects. */
  lemma LeakedStayOpen(st: VoiceState, granted: bool, ok: bool, msg: ServerMessage, now: real,
                       decoded: Option<AudioBuffer>, id: SourceId)
    requires Valid(st)
    ensures Leaked(st) <= Leaked(AfterStart(st, granted))
    ensures Leaked(st) <= Leaked(AfterOpen(st))
    ensures Leaked(st) <= Leaked(AfterConnect(st, ok))
    ensures Leaked(AfterMessage(st, msg, now, decoded)) == Leaked(st)
    ensures Leaked(AfterEnded(st, id)) == Leaked(st)
    ensures Leaked(AfterStop(st)) == Leaked(st)
  {
    StartKeepsValid(st, granted);
    StartLeaksOverwritten(st, granted);
    OpenLeaksProcessor(st);
    ConnectLeaksSession(st, ok);
    StopClosesEachHeldOnce(st);
  }

  /** The microphone is refused, and the start button comes back; a second
      start overwrites both contexts, so the teardown closes only the second
      pair and the first two stay open for good. */
  lemma RestartLeaksContexts()
    ensures var st := AfterStop(AfterStart(AfterStart(Idle, false), false));
      && st.closed == [Instance(ContextIn, 2), Instance(ContextOut, 3)]
      && Instance(ContextIn, 0) in Leaked(st)
      && Instance(ContextOut, 1) in Leaked(st)
  {
    var s2 := AfterStart(AfterStart(Idle, false), false);
    StopClosesHeld(s2);
    assert HeldObjects(s2.slots) == [Instance(ContextIn, 2), Instance(ContextOut, 3)];
    assert s2.created[0] == Instance(ContextIn, 0) && s2.created[1] == Instance(ContextOut, 1);
  }

  /** The microphone is granted but the connection fails; a second start
      with the microphone overwrites the stream ref, so the teardown never
      stops the first stream's tracks and the microphone stays on. */
  lemma RetryLeaksMicrophone()
    ensures var st := AfterStop(AfterStart(AfterConnect(AfterStart(Idle, true), false), true));
      && st.closed == [Instance(Stream, 5), Instance(ContextIn, 3), Instance(ContextOut, 4)]
      && Instance(Stream, 2) in Leaked(st)
  {
    var s3 := AfterStart(AfterConnect(AfterStart(Idle, true), false), true);
    StopClosesHeld(s3);
    assert HeldObjects(s3.slots) == [Instance(Stream, 5), Instance(ContextIn, 3), Instance(ContextOut, 4)];
    assert s3.created[2] == Instance(Stream, 2);
  }

  // ---------------------------------------------------------------------
  // Runs of messages

  /** A message, the clock when it is handled, and what its audio decodes to. */
  datatype Arrival = Arrival(msg: ServerMessage, now: real, decoded: Option<AudioBuffer>)

  /** The playback after messages handled one after another, with the output
      context held or not throughout (no message changes it). */
  function Run(p: Playback, contextOut: bool, arrivals: seq<Arrival>): Playback
    decreases |arrivals|
  {
    if arrivals == [] then p
    else Run(PlaybackStep(p, arrivals[0].msg, contextOut, arrivals[0].now, arrivals[0].decoded),
             contextOut, arrivals[1..])
  }

  /** The component after handling the messages one after another, each
      through the whole `onmessage` step. */
  function Handled(st: VoiceState, arrivals: seq<Arrival>): VoiceState
    decreases |arrivals|
  {
    if arrivals == [] then st
    else Handled(AfterMessage(st, arrivals[0].msg, arrivals[0].now, arrivals[0].decoded), arrivals[1..])
  }

  /** Handling a run of messages, one `onmessage` after another, plays what
      `Run` computes, and leaves the flags, the refs and the object logs as
      they were. */
  lemma {:induction false} RunOfMessages(st: VoiceState, arrivals: seq<Arrival>)
    ensures Handled(st, arrivals).playback == Run(st.playback, st.slots.contextOut.Some?, arrivals)
    ensures Handled(st, arrivals).slots == st.slots && Handled(st, arrivals).flags == st.flags
    ensures Handled(st, arrivals).created == st.created && Handled(st, arrivals).closed == st.closed
    decreases |arrivals|
  {
    if arrivals != [] {
      RunOfMessages(AfterMessage(st, arrivals[0].msg, arrivals[0].now, arrivals[0].decoded), arrivals[1..]);
    }
  }

  function End(c: Chunk): real {
    c.start + c.duration
  }

  /** No chunk starts before the previous one has ended. */
  predicate Gapless(played: seq<Chunk>) {
    forall j :: 0 < j < |played| ==> played[j].start >= End(played[j - 1])
  }

  /** Each chunk starts exactly where the previous one ended. */
  predicate Contiguous(played: seq<Chunk>) {
    forall j :: 0 < j < |played| ==> played[j].start == End(played[j - 1])
  }

  /** The cursor is at or past the end of the last chunk. */
  predicate CursorCovers(p: Playback) {
    |p.played| > 0 ==> p.nextStartTime >= End(p.played[|p.played| - 1])
  }

  predicate NoInterrupt(arrivals: seq<Arrival>) {
    forall k :: 0 <= k < |arrivals| ==> !arrivals[k].msg.interrupted
  }

  /** Every message of the run arrives while the clock is still behind the
      cursor. */
  predicate ArrivesEarly(p: Playback, contextOut: bool, arrivals: seq<Arrival>)
    decreases |arrivals|
  {
    arrivals == [] ||
      (arrivals[0].now <= p.nextStartTime &&
       ArrivesEarly(PlaybackStep(p, arrivals[0].msg, contextOut, arrivals[0].now, arrivals[0].decoded),
                    contextOut, arrivals[1..]))
  }

  /** One message without interrupt keeps the cursor covering the last chunk;
      a new chunk starts no earlier than the previous end, and exactly at the
      cursor when the clock is behind it. */
  lemma StepKeepsGapless(p: Playback, contextOut: bool, a: Arrival)
    requires !a.msg.interrupted && CursorCovers(p)
    ensures var p' := PlaybackStep(p, a.msg, contextOut, a.now, a.decoded);
      && CursorCovers(p')
      && p.played <= p'.played
      && |p'.played| <= |p.played| + 1
      && (|p'.played| > |p.played| > 0 ==> p'.played[|p.played|].start >= End(p.played[|p.played| - 1]))
      && (|p'.played| > |p.played| && a.now <= p.nextStartTime ==>
            p'.played[|p.played|].start == p.nextStartTime && p'.nextStartTime == End(p'.played[|p.played|]))
  {
    var p' := PlaybackStep(p, a.msg, contextOut, a.now, a.decoded);
    if |p'.played| > |p.played| {
      ChunkScheduling(p, a.msg, contextOut, a.now, a.decoded);
    }
  }

  lemma TailNoInterrupt(arrivals: seq<Arrival>)
    requires arrivals != [] && NoInterrupt(arrivals)
    ensures !arrivals[0].msg.interrupted && NoInterrupt(arrivals[1..])
  {
    forall i | 0 <= i < |arrivals[1..]| ensures !arrivals[1..][i].msg.interrupted {
      assert arrivals[1..][i] == arrivals[i + 1];
    }
  }

  /** Without interrupts, the chunks scheduled from the last one played so
      far on never overlap. */
  lemma {:induction false} RunGapless(p: Playback, contextOut: bool, arrivals: seq<Arrival>)
    requires NoInterrupt(arrivals) && CursorCovers(p)
    ensures p.played <= Run(p, contextOut, arrivals).played
    ensures CursorCovers(Run(p, contextOut, arrivals))
    ensures Gapless(Run(p, contextOut, arrivals).played[if |p.played| == 0 then 0 else |p.played| - 1..])
    decreases |arrivals|
  {
    if arrivals != [] {
      var k := if |p.played| == 0 then 0 else |p.played| - 1;
      var p1 := PlaybackStep(p, arrivals[0].msg, contextOut, arrivals[0].now, arrivals[0].decoded);
      TailNoInterrupt(arrivals);
      StepKeepsGapless(p, contextOut, arrivals[0]);
      RunGapless(p1, contextOut, arrivals[1..]);
      var k1 := if |p1.played| == 0 then 0 else |p1.played| - 1;
      var q := Run(p, contextOut, arrivals).played;
      assert q == Run(p1, contextOut, arrivals[1..]).played;
      assert Gapless(q[k1..]);
      forall j | 0 < j < |q[k..]| ensures q[k..][j].start >= End(q[k..][j - 1]) {
        if k + j > k1 {
          assert q[k..][j] == q[k1..][k + j - k1] && q[k..][j - 1] == q[k1..][k + j - k1 - 1];
        } else {
          assert q[k..][j] == p1.played[k + j] && q[k..][j - 1] == p1.played[k + j - 1];
        }
      }
    }
  }

  /** When the cursor sits at the end of the last chunk and every message
      arrives before the cursor, the chunks of the run follow one another
      with no gap: t0, t0 + d1, t0 + d1 + d2, ... */
  lemma {:induction false} RunContiguous(p: Playback, contextOut: bool, arrivals: seq<Arrival>)
    requires NoInterrupt(arrivals) && ArrivesEarly(p, contextOut, arrivals)
    requires |p.played| > 0 && p.nextStartTime == End(p.played[|p.played| - 1])
    ensures p.played <= Run(p, contextOut, arrivals).played
    ensures Run(p, contextOut, arrivals).nextStartTime
         == End(Run(p, contextOut, arrivals).played[|Run(p, contextOut, arrivals).played| - 1])
    ensures Contiguous(Run(p, contextOut, arrivals).played[|p.played| - 1..])
    decreases |arrivals|
  {
    if arrivals != [] {
      var p1 := PlaybackStep(p, arrivals[0].msg, contextOut, arrivals[0].now, arrivals[0].decoded);
      TailNoInterrupt(arrivals);
      StepKeepsGapless(p, contextOut, arrivals[0]);
      RunContiguous(p1, contextOut, arrivals[1..]);
      var k := |p.played| - 1;
      var k1 := |p1.played| - 1;
      var q := Run(p, contextOut, arrivals).played;
      assert q == Run(p1, contextOut, arrivals[1..]).played;
      assert Contiguous(q[k1..]);
      forall j | 0 < j < |q[k..]| ensures q[k..][j].start == End(q[k..][j - 1]) {
        if k + j > k1 {
          assert q[k..][j] == q[k1..][k + j - k1] && q[k..][j - 1] == q[k1..][k + j - k1 - 1];
        } else {
          assert q[k..][j] == p1.played[k + j] && q[k..][j - 1] == p1.played[k + j - 1];
        }
      }
    }
  }
}

/** The component's state, held in fields and updated in place by its
    callbacks, each proved to perform its step. */
module LiveVoiceSession {
  import opened Wrappers
  import opened PcmCodec
  import opened LiveVoice

  class VoiceSession {
    var isActive: bool
    var isConnecting: bool
    var transcription: string
    var userTranscription: string
    var contextIn: Option<nat>
    var contextOut: Option<nat>
    var stream: Option<nat>
    var processor: Option<nat>
    var session: Option<nat>
    var nextStartTime: real
    var sources: set<SourceId>
    var nextSource: SourceId
    var played: seq<Chunk>
    var stopped: set<SourceId>
    var created: seq<Instance>
    var closed: seq<Instance>

    ghost function State(): VoiceState
      reads this
    {
      VoiceState(Flags(isActive, isConnecting), Transcripts(transcription, userTranscription),
                 Slots(session, processor, stream, contextIn, contextOut),
                 Playback(nextStartTime, sources, nextSource, played, stopped), created, closed)
    }

    constructor ()
      ensures State() == Idle
    {
      isActive, isConnecting := false, false;
      transcription, userTranscription := "", "";
      session, processor, stream, contextIn, contextOut := None, None, None, None, None;
      nextStartTime := 0.0;
      sources, nextSource := {}, 0;
      played, stopped, created, closed := [], {}, [], [];
    }

    method StartSession(micGranted: bool)
      modifies this
      ensures State() == AfterStart(old(State()), micGranted)
    {
      ghost var before := State();
      var n := |created|;
      var contexts := [Instance(ContextIn, n), Instance(ContextOut, n + 1)];
      contextIn, contextOut := Some(n), Some(n + 1);
      if micGranted {
        isConnecting := true;
        stream := Some(n + 2);
        created := created + contexts + [Instance(Stream, n + 2)];
      } else {
        isConnecting := false;
        created := created + contexts;
      }
      assert State() == before.(flags := State().flags, slots := State().slots, created := created);
    }

    method OnOpen()
      modifies this
      ensures State() == AfterOpen(old(State()))
    {
      isConnecting := false;
      isActive := true;
      if contextIn.Some? {
        processor := Some(|created|);
        created := created + [Instance(Processor, |created|)];
      }
    }

    method ConnectSettled(ok: bool)
      modifies this
      ensures State() == AfterConnect(old(State()), ok)
    {
      if ok {
        session := Some(|created|);
        created := created + [Instance(Session, |created|)];
      } else {
        isConnecting := false;
      }
    }

    ghost function PlaybackState(): Playback
      reads this
    {
      Playback(nextStartTime, sources, nextSource, played, stopped)
    }

    /** `onmessage`: the transcripts, then the audio part, then, unless the
        audio part threw, the interrupt part. */
    method OnMessage(msg: ServerMessage, now: real)
      modifies this
      ensures State() == AfterMessage(old(State()), msg, now, DecodedAudio(msg))
    {
      ghost var before := State();
      ghost var decoded := DecodedAudio(msg);
      UpdateTranscripts(msg);
      var ok := PlayChunk(msg, now);
      if ok && msg.interrupted {
        StopAllSources();
      }
      assert PlaybackState() == PlaybackStep(before.playback, msg, before.slots.contextOut.Some?, now, decoded);
    }

    /** The transcript part of `onmessage`. */
    method UpdateTranscripts(msg: ServerMessage)
      modifies this`transcription, this`userTranscription
      ensures Transcripts(transcription, userTranscription)
           == Transcribe(old(Transcripts(transcription, userTranscription)), msg)
    {
      if msg.outputTranscription.Some? {
        transcription := transcription + Appended(msg.outputTranscription.value);
      }
      if msg.inputTranscription.Some? {
        userTranscription := userTranscription + Appended(msg.inputTranscription.value);
      }
      if msg.turnComplete {
        transcription := "";
        userTranscription := "";
      }
    }

    /** The audio part; false when decoding threw. */
    method PlayChunk(msg: ServerMessage, now: real) returns (ok: bool)
      modifies this`nextStartTime, this`sources, this`nextSource, this`played
      ensures PlaybackState() == PlayAudio(old(PlaybackState()), msg, contextOut.Some?, now, DecodedAudio(msg)).0
      ensures ok == PlayAudio(old(PlaybackState()), msg, contextOut.Some?, now, DecodedAudio(msg)).1
    {
      if msg.modelTurn.NoParts? {
        return false;
      }
      var data := if msg.modelTurn.FirstPart? then msg.modelTurn.data else None;
      if !(data.Some? && data.value != "" && contextOut.Some?) {
        return true;
      }
      nextStartTime := Max(nextStartTime, now);
      var buffer := DecodeChunk(data.value);
      if buffer.None? {
        return false;
      }
      var id := nextSource;
      var d := Duration(buffer.value);
      played := played + [Chunk(id, nextStartTime, d)];
      nextStartTime := nextStartTime + d;
      sources := sources + {id};
      nextSource := id + 1;
      ok := true;
    }

    /** `decodeAudioData(decodeAudio(data), ctx, 24000, 1)`, with the codec's
        own methods. */
    static method DecodeChunk(data: string) returns (buffer: Option<AudioBuffer>)
      ensures buffer == DecodedChunk(data)
    {
      var bytes := DecodeAudio(data);
      if bytes.Err? {
        return None;
      }
      var decoded := DecodeAudioData(bytes.value, OutputRate, 1);
      if decoded.Err? {
        return None;
      }
      buffer := Some(decoded.value);
    }

    /** The interrupt part: stop the tracked sources one by one, forget them
        and reset the cursor. */
    method StopAllSources()
      modifies this`stopped, this`sources, this`nextStartTime
      ensures stopped == old(stopped) + old(sources)
      ensures sources == {} && nextStartTime == 0.0
    {
      var remaining := sources;
      while remaining != {}
        invariant sources == old(sources)
        invariant remaining <= sources
        invariant stopped == old(stopped) + (sources - remaining)
        decreases |remaining|
      {
        var s :| s in remaining;
        stopped := stopped + {s};
        remaining := remaining - {s};
      }
      sources := {};
      nextStartTime := 0.0;
    }

    method SourceEnded(id: SourceId)
      modifies this
      ensures State() == AfterEnded(old(State()), id)
    {
      sources := sources - {id};
    }

    /** One slot of the teardown. */
    method ReleaseSlot(r: Resource)
      modifies this`closed, this`session, this`processor, this`stream, this`contextIn, this`contextOut
      ensures State() == Release(old(State()), r)
    {
      match r
      case Session =>
        if session.Some? {
          closed := closed + [Instance(Session, session.value)];
          session := None;
        }
      case Processor =>
        if processor.Some? {
          closed := closed + [Instance(Processor, processor.value)];
          processor := None;
        }
      case Stream =>
        if stream.Some? {
          closed := closed + [Instance(Stream, stream.value)];
          stream := None;
        }
      case ContextIn =>
        if contextIn.Some? {
          closed := closed + [Instance(ContextIn, contextIn.value)];
          contextIn := None;
        }
      case ContextOut =>
        if contextOut.Some? {
          closed := closed + [Instance(ContextOut, contextOut.value)];
          contextOut := None;
        }
    }

    method StopSession()
      modifies this
      ensures State() == AfterStop(old(State()))
    {
      isActive := false;
      isConnecting := false;
      ghost var s0 := State();
      assert s0 == old(State()).(flags := Flags(false, false));
      ReleaseSlot(Session);
      ReleaseSlot(Processor);
      ReleaseSlot(Stream);
      ReleaseSlot(ContextIn);
      ReleaseSlot(ContextOut);
    }
  }
}
