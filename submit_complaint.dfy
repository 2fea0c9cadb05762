/** Complaint intake (`views/SubmitComplaint.tsx`): the recording timer's
    `m:ss` label, the voice transcript appended to the description, the
    fields filled from a photographed receipt, and the record a submission
    builds. */
module SubmitComplaint {
  import opened Wrappers
  import opened Strings
  import opened Domain

  // ---------------------------------------------------------- formatTime

  /** `formatTime(seconds)`: whole minutes, a colon, and the remaining
      seconds padded to two digits. */
  function FormatTime(seconds: nat): (r: string)
    ensures |r| >= 4 && r[|r| - 3] == ':'
    ensures AllDigits(r[..|r| - 3]) && AllDigits(r[|r| - 2..])
    ensures DigitsValue(r[..|r| - 3]) == seconds / 60
    ensures DigitsValue(r[|r| - 2..]) == seconds % 60 < 60
  {
    var mins := NatToString(seconds / 60);
    var secs := PadTwo(seconds % 60);
    NatToStringRoundTrip(seconds / 60);
    var r := mins + ":" + secs;
    assert r[..|r| - 3] == mins && r[|r| - 2..] == secs;
    r
  }

  /** Reads an `m:ss` label back into seconds. */
  function ParseTime(s: string): Option<nat> {
    if |s| >= 4 && s[|s| - 3] == ':' && AllDigits(s[..|s| - 3]) && AllDigits(s[|s| - 2..])
       && DigitsValue(s[|s| - 2..]) < 60
    then Some(DigitsValue(s[..|s| - 3]) * 60 + DigitsValue(s[|s| - 2..]))
    else None
  }

  // ---------------------------------------------------------- voice input

  /** `prev + (prev.length > 0 ? '\n' : '') + result`. */
  function AppendTranscript(prev: string, result: string): (r: string)
    ensures prev == [] ==> r == result
    ensures prev != [] ==> r == prev + "\n" + result
  {
    prev + (if |prev| > 0 then "\n" else "") + result
  }

  // ------------------------------------------------------------- auto-fill

  /** The form fields a receipt photograph can fill. */
  datatype Fields = Fields(
    trackingNumber: string,
    postOffice: string,
    senderName: string,
    senderAddress: string,
    senderPin: string,
    receiverName: string,
    receiverAddress: string,
    receiverPin: string)

  /** What `extractDetailsFromImage` returned; absent values are `None`. */
  datatype Details = Details(
    trackingNumber: Option<string>,
    postOffice: Option<string>,
    senderName: Option<string>,
    senderAddress: Option<string>,
    senderPin: Option<string>,
    receiverName: Option<string>,
    receiverAddress: Option<string>,
    receiverPin: Option<string>)

  /** `if (details.f) setF(details.f)` for one field. */
  function Fill(current: string, extracted: Option<string>): (r: string)
    ensures Truthy(extracted) ==> r == extracted.value
    ensures !Truthy(extracted) ==> r == current
  {
    if Truthy(extracted) then extracted.value else current
  }

  /** The eight conditional overwrites of `handleExtractDetails`. */
  function AutoFill(f: Fields, d: Details): Fields {
    Fields(
      Fill(f.trackingNumber, d.trackingNumber),
      Fill(f.postOffice, d.postOffice),
      Fill(f.senderName, d.senderName),
      Fill(f.senderAddress, d.senderAddress),
      Fill(f.senderPin, d.senderPin),
      Fill(f.receiverName, d.receiverName),
      Fill(f.receiverAddress, d.receiverAddress),
      Fill(f.receiverPin, d.receiverPin))
  }

  // -------------------------------------------------------------- submit

  /** `existingComplaints.slice(0, 3).map(c => c.description)`. */
  function FirstDescriptions(existing: seq<Complaint>): (r: seq<string>)
    ensures |r| == if |existing| < 3 then |existing| else 3
    ensures forall i :: 0 <= i < |r| ==> r[i] == existing[i].description
  {
    var n := if |existing| < 3 then |existing| else 3;
    seq(n, i requires 0 <= i < n => existing[i].description)
  }

  /** The context handed to the analysis: those descriptions joined by `\n`. */
  function AnalysisContext(existing: seq<Complaint>): string {
    Join(FirstDescriptions(existing), "\n")
  }

  /** `Math.floor(random * 90000) + 10000` for `0 <= random < 1`. */
  function TicketNumber(random: real): (k: nat)
    requires 0.0 <= random < 1.0
    ensures 10000 <= k <= 99999
  {
    (random * 90000.0).Floor + 10000
  }

  const LoggedUpdate: string := "Complaint Logged."

  /** The form as it stands when the citizen submits. */
  datatype Form = Form(description: string, date: string, image: Option<string>, fields: Fields)

  /** `handleSubmit` after the analysis came back: `None` for the early
      return on a blank description, otherwise the new complaint.
      `random` is the draw of `Math.random()` and `now` the ISO time. */
  function Submit(form: Form, user: User, analysis: Option<Analysis>, random: real, now: string)
    : Option<Complaint>
    requires 0.0 <= random < 1.0
  {
    if Trim(form.description) == "" then None
    else
      var f := form.fields;
      Some(Complaint(
        "PGC-" + NatToString(TicketNumber(random)),
        user.id, user.name, form.description,
        Some(f.trackingNumber), f.postOffice, form.date,
        if Truthy(form.image) then form.image else None,
        New, analysis,
        [TicketUpdate(now, "System", LoggedUpdate, false, Message)],
        0, now, false,
        Party(f.senderName, f.senderAddress, f.senderPin),
        Party(f.receiverName, f.receiverAddress, f.receiverPin),
        None, None))
  }

  // ------------------------------------------------------------- recorder

  /** A chunk `ondataavailable` delivers; only its size matters here. */
  datatype Blob = Blob(id: nat, size: nat)

  /** One `ondataavailable`: the chunk is kept only when it is not empty. */
  function Record(chunks: seq<Blob>, b: Blob): seq<Blob> {
    if b.size > 0 then chunks + [b] else chunks
  }

  /** The chunks kept after a run of deliveries from an emptied list. */
  function Recorded(deliveries: seq<Blob>): seq<Blob>
    decreases |deliveries|
  {
    if deliveries == [] then [] else Record(Recorded(deliveries[..|deliveries| - 1]), deliveries[|deliveries| - 1])
  }
}

/** The intake form's mutable state: the fields, the description and the
    recorder refs, updated in place by the handlers. */
module IntakeForm {
  import opened Wrappers
  import opened Domain
  import opened SubmitComplaint

  const MicrophoneDenied: string := "Microphone access denied or unavailable."
  const VoiceFailed: string := "Could not analyze voice. Please try again."
  const NothingExtracted: string := "Could not extract details from the image."
  const ConnectionFailed: string := "Connection failed."

  /** What the receipt extraction came back with. */
  datatype Extraction = Extracted(details: Details) | Empty | Failed

  class Intake {
    var description: string
    var image: Option<string>
    var trackingNumber: string
    var postOffice: string
    var senderName: string
    var senderAddress: string
    var senderPin: string
    var receiverName: string
    var receiverAddress: string
    var receiverPin: string
    var voiceError: Option<string>
    var extractSuccess: bool
    var isRecording: bool
    var hasRecorder: bool
    var timerRunning: bool
    var recordDuration: nat
    var chunks: seq<Blob>

    /** The timer runs exactly while recording, and recording needs a recorder. */
    ghost predicate Valid()
      reads this
    {
      (isRecording <==> timerRunning) && (isRecording ==> hasRecorder)
    }

    ghost function FieldsOf(): Fields
      reads this
    {
      Fields(trackingNumber, postOffice, senderName, senderAddress, senderPin,
             receiverName, receiverAddress, receiverPin)
    }

    constructor ()
      ensures Valid()
      ensures description == "" && FieldsOf() == Fields("", "", "", "", "", "", "", "")
      ensures !isRecording && recordDuration == 0 && chunks == [] && voiceError == None
    {
      description := "";
      image := None;
      trackingNumber, postOffice := "", "";
      senderName, senderAddress, senderPin := "", "", "";
      receiverName, receiverAddress, receiverPin := "", "", "";
      voiceError := None;
      extractSuccess := false;
      isRecording, hasRecorder, timerRunning := false, false, false;
      recordDuration := 0;
      chunks := [];
    }

    /** `startRecording`: the chunk list is emptied first; with the
        microphone granted, recording starts with the duration at 0. */
    method StartRecording(micGranted: bool)
      requires Valid()
      modifies this`voiceError, this`chunks, this`isRecording, this`hasRecorder,
               this`timerRunning, this`recordDuration
      ensures Valid()
      ensures chunks == []
      ensures micGranted ==> isRecording && timerRunning && recordDuration == 0 && voiceError == None && hasRecorder
      ensures !micGranted ==>
        (voiceError == Some(MicrophoneDenied)
         && isRecording == old(isRecording) && timerRunning == old(timerRunning)
         && recordDuration == old(recordDuration) && hasRecorder == old(hasRecorder))
    {
      voiceError := None;
      chunks := [];
      if micGranted {
        hasRecorder := true;
        isRecording := true;
        recordDuration := 0;
        timerRunning := true;
      } else {
        voiceError := Some(MicrophoneDenied);
      }
    }

    /** `ondataavailable`: non-empty chunks are pushed in arrival order. */
    method DataAvailable(b: Blob)
      modifies this`chunks
      ensures chunks == Record(old(chunks), b)
    {
      if b.size > 0 {
        chunks := chunks + [b];
      }
    }

    /** One firing of the one-second interval. */
    method Tick()
      requires Valid()
      modifies this`recordDuration
      ensures Valid()
      ensures recordDuration == if timerRunning then old(recordDuration) + 1 else old(recordDuration)
    {
      if timerRunning {
        recordDuration := recordDuration + 1;
      }
    }

    /** `stopRecording`: acts only while recording; stops the timer. */
    method StopRecording()
      requires Valid()
      modifies this`isRecording, this`timerRunning
      ensures Valid()
      ensures !isRecording && !timerRunning
      ensures !old(isRecording) ==> timerRunning == old(timerRunning)
    {
      if hasRecorder && isRecording {
        isRecording := false;
        timerRunning := false;
      }
    }

    /** The `onloadend` continuation of `processAudio`: a non-empty result is
        appended to the description, otherwise an error is shown. */
    method VoiceAnalyzed(result: Option<string>)
      modifies this`description, this`voiceError
      ensures Truthy(result) ==>
        (description == AppendTranscript(old(description), result.value) && voiceError == old(voiceError))
      ensures !Truthy(result) ==> description == old(description) && voiceError == Some(VoiceFailed)
    {
      if Truthy(result) {
        description := description + (if |description| > 0 then "\n" else "") + result.value;
      } else {
        voiceError := Some(VoiceFailed);
      }
    }

    /** `handleExtractDetails` once the extraction settled: nothing without
        an image; otherwise each truthy value overwrites its field. */
    method ExtractDetails(outcome: Extraction)
      modifies this`trackingNumber, this`postOffice, this`senderName, this`senderAddress,
               this`senderPin, this`receiverName, this`receiverAddress, this`receiverPin,
               this`voiceError, this`extractSuccess
      ensures !Truthy(image) ==>
        FieldsOf() == old(FieldsOf()) && voiceError == old(voiceError) && extractSuccess == old(extractSuccess)
      ensures Truthy(image) && outcome.Extracted? ==>
        FieldsOf() == AutoFill(old(FieldsOf()), outcome.details) && extractSuccess && voiceError == None
      ensures Truthy(image) && !outcome.Extracted? ==>
        (FieldsOf() == old(FieldsOf()) && extractSuccess == old(extractSuccess)
         && voiceError == Some(if outcome.Empty? then NothingExtracted else ConnectionFailed))
    {
      if !Truthy(image) {
        return;
      }
      voiceError := None;
      match outcome
      case Extracted(d) =>
        ApplyDetails(d);
        extractSuccess := true;
      case Empty =>
        voiceError := Some(NothingExtracted);
      case Failed =>
        voiceError := Some(ConnectionFailed);
    }

    /** The eight `if (details.f) setF(details.f)` statements, in three groups. */
    method ApplyDetails(d: Details)
      modifies this`trackingNumber, this`postOffice, this`senderName, this`senderAddress,
               this`senderPin, this`receiverName, this`receiverAddress, this`receiverPin
      ensures FieldsOf() == AutoFill(old(FieldsOf()), d)
    {
      FillItem(d);
      FillSender(d);
      FillReceiver(d);
    }

    method FillItem(d: Details)
      modifies this`trackingNumber, this`postOffice
      ensures trackingNumber == Fill(old(trackingNumber), d.trackingNumber)
      ensures postOffice == Fill(old(postOffice), d.postOffice)
    {
      if Truthy(d.trackingNumber) { trackingNumber := d.trackingNumber.value; }
      if Truthy(d.postOffice) { postOffice := d.postOffice.value; }
    }

    method FillSender(d: Details)
      modifies this`senderName, this`senderAddress, this`senderPin
      ensures senderName == Fill(old(senderName), d.senderName)
      ensures senderAddress == Fill(old(senderAddress), d.senderAddress)
      ensures senderPin == Fill(old(senderPin), d.senderPin)
    {
      if Truthy(d.senderName) { senderName := d.senderName.value; }
      if Truthy(d.senderAddress) { senderAddress := d.senderAddress.value; }
      if Truthy(d.senderPin) { senderPin := d.senderPin.value; }
    }

    method FillReceiver(d: Details)
      modifies this`receiverName, this`receiverAddress, this`receiverPin
      ensures receiverName == Fill(old(receiverName), d.receiverName)
      ensures receiverAddress == Fill(old(receiverAddress), d.receiverAddress)
      ensures receiverPin == Fill(old(receiverPin), d.receiverPin)
    {
      if Truthy(d.receiverName) { receiverName := d.receiverName.value; }
      if Truthy(d.receiverAddress) { receiverAddress := d.receiverAddress.value; }
      if Truthy(d.receiverPin) { receiverPin := d.receiverPin.value; }
    }
  }
}

/** What the intake promises. */
module SubmitComplaintProperties {
  import opened Wrappers
  import opened Strings
  import opened Lists
  import opened Domain
  import opened SubmitComplaint

  /** Every timer label reads back as the number of seconds it shows, so no
      two durations share a label. */
  lemma FormatTimeRoundTrip(seconds: nat)
    ensures ParseTime(FormatTime(seconds)) == Some(seconds)
  {
  }

  lemma FormatTimeInjective(a: nat, b: nat)
    ensures FormatTime(a) == FormatTime(b) <==> a == b
  {
    FormatTimeRoundTrip(a);
    FormatTimeRoundTrip(b);
  }

  /** The transcript keeps the previous text as a prefix and ends with the
      result; the separator is a line break only after a non-empty text. */
  lemma TranscriptExtends(prev: string, result: string)
    ensures var r := AppendTranscript(prev, result);
      r[..|prev|] == prev && r[|r| - |result|..] == result
      && |r| == |prev| + |result| + (if prev == [] then 0 else 1)
  {
    var r := AppendTranscript(prev, result);
    assert r[|r| - |result|..] == result;
  }

  /** Auto-fill changes a field only when the extraction found a non-empty
      value for it; a second application of the same details changes nothing. */
  lemma AutoFillOverwritesTruthy(f: Fields, d: Details)
    ensures AutoFill(AutoFill(f, d), d) == AutoFill(f, d)
    ensures d == Details(None, None, None, None, None, None, None, None) ==> AutoFill(f, d) == f
    ensures AutoFill(f, d).senderPin == (if Truthy(d.senderPin) then d.senderPin.value else f.senderPin)
    ensures AutoFill(f, d).trackingNumber == (if Truthy(d.trackingNumber) then d.trackingNumber.value else f.trackingNumber)
  {
  }

  /** A blank description is never submitted. */
  lemma BlankNotSubmitted(form: Form, user: User, analysis: Option<Analysis>, random: real, now: string)
    requires 0.0 <= random < 1.0
    ensures Submit(form, user, analysis, random, now).None? <==> IsBlank(form.description)
  {
    TrimEmptyIffBlank(form.description);
  }

  /** The new complaint: id `PGC-` followed by five digits for a number in
      10000..99999, status NEW, one update logged by the System, no
      escalation, SLA running, sender and receiver as entered. */
  lemma NewComplaintShape(form: Form, user: User, analysis: Option<Analysis>, random: real, now: string)
    requires 0.0 <= random < 1.0
    requires !IsBlank(form.description)
    ensures Submit(form, user, analysis, random, now).Some?
    ensures var c := Submit(form, user, analysis, random, now).value;
      && |c.id| == 9 && c.id[..4] == "PGC-" && AllDigits(c.id[4..])
      && 10000 <= DigitsValue(c.id[4..]) <= 99999
      && c.status == New
      && c.updates == [TicketUpdate(now, "System", LoggedUpdate, false, Message)]
      && c.escalationLevel == 0 && !c.slaPaused
      && c.userId == user.id && c.userName == user.name && c.description == form.description
      && c.sender == Party(form.fields.senderName, form.fields.senderAddress, form.fields.senderPin)
      && c.receiver == Party(form.fields.receiverName, form.fields.receiverAddress, form.fields.receiverPin)
  {
    BlankNotSubmitted(form, user, analysis, random, now);
    var k := TicketNumber(random);
    var c := Submit(form, user, analysis, random, now).value;
    NatToStringLength(k, 4);
    NatToStringRoundTrip(k);
    assert c.id[4..] == NatToString(k);
  }

  /** The analysis context reads back, line by line, as the descriptions of
      at most the first three complaints, when none spans several lines. */
  lemma ContextFirstThree(existing: seq<Complaint>)
    requires |existing| > 0
    requires forall i :: 0 <= i < |existing| ==> '\n' !in existing[i].description
    ensures Split(AnalysisContext(existing), '\n') == FirstDescriptions(existing)
    ensures |Split(AnalysisContext(existing), '\n')| == if |existing| < 3 then |existing| else 3
  {
    SplitJoin(FirstDescriptions(existing), '\n');
  }

  /** The recorder keeps exactly the non-empty chunks, in arrival order. */
  lemma {:induction false} RecordedKeepsNonEmpty(deliveries: seq<Blob>)
    ensures Recorded(deliveries) == Filter(deliveries, (b: Blob) => b.size > 0)
    decreases |deliveries|
  {
    if deliveries != [] {
      var n := |deliveries|;
      RecordedKeepsNonEmpty(deliveries[..n - 1]);
      FilterSnoc(deliveries[..n - 1], deliveries[n - 1], (b: Blob) => b.size > 0);
      assert deliveries[..n - 1] + [deliveries[n - 1]] == deliveries;
    }
  }

  lemma {:induction false} FilterSnoc<T(!new)>(s: seq<T>, x: T, p: T -> bool)
    ensures Filter(s + [x], p) == Filter(s, p) + (if p(x) then [x] else [])
    decreases |s|
  {
    if s != [] {
      FilterSnoc(s[1..], x, p);
      assert (s + [x])[1..] == s[1..] + [x];
    }
  }
}
