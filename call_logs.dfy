/** The call-log lifecycle of src/services/callService.js: the restaurant
    lookup, the document written when a call starts, and the update made
    when its recording arrives (download, transcription, booking extraction
    and the automated SMS). The Firestore collection is a map from call SID
    to document held by `CallLogStore`; the download, the transcription, the
    extraction and Twilio are functions passed in. */
module CallLogs {
  import opened Common
  import opened Download
  import opened Extraction
  import opened Sms

  const DefaultRestaurant: string := "default_restaurant"
  const MissingCallSidError: string := "Missing CallSid"

  /** `getRestaurantId(botPhone)`: the restaurant behind the number called. */
  function GetRestaurantId(botPhone: string): (id: string)
    ensures botPhone == "+1234567890" ==> id == "restaurant_A"
    ensures botPhone == "+0987654321" ==> id == "restaurant_B"
    ensures botPhone != "+1234567890" && botPhone != "+0987654321" ==> id == DefaultRestaurant
  {
    if botPhone == "+1234567890" then "restaurant_A"
    else if botPhone == "+0987654321" then "restaurant_B"
    else DefaultRestaurant
  }

  datatype CallStatus = Active | Completed

  /** `smsDetails` without `sentAt`. */
  datatype SmsDetails = SmsDetails(sid: Option<string>, status: Option<string>, error: Option<string>)

  /** A call-log document, without its timestamps. */
  datatype CallLog = CallLog(
    callSid: string,
    customerPhone: string,
    botPhone: string,
    restaurantId: string,
    paymentId: string,
    status: CallStatus,
    recordingUrl: Option<string>,
    localFilePath: Option<string>,
    transcription: Option<string>,
    booking: Booking,
    duration: int,
    smsSent: bool,
    smsDetails: SmsDetails)

  /** The booking stored before, or instead of, an extracted one. */
  const EmptyBooking: Booking := Booking(None, None, None, None, None, None, None, None)

  const NoSmsDetails: SmsDetails := SmsDetails(None, None, None)

  /** The document `createCallLog` writes. */
  function NewCallLog(callSid: string, from: string, to: string, paymentId: string): (log: CallLog)
    ensures log.callSid == callSid && log.customerPhone == from && log.botPhone == to
    ensures log.restaurantId == GetRestaurantId(to) && log.paymentId == paymentId
    ensures log.status == Active && log.duration == 0 && !log.smsSent
    ensures log.booking == EmptyBooking && log.smsDetails == NoSmsDetails
    ensures log.recordingUrl == None && log.localFilePath == None && log.transcription == None
  {
    CallLog(callSid, from, to, GetRestaurantId(to), paymentId, Active, None, None, None,
            EmptyBooking, 0, false, NoSmsDetails)
  }

  /** Where the recording of a call is saved, relative to the working
      directory. */
  function RecordingPath(callSid: string): string {
    "recordings/" + callSid + ".mp3"
  }

  /** What `transcribeAudio` does: returns a transcript (possibly null or
      empty) or throws. */
  datatype Transcribed = Transcript(text: Option<string>) | TranscribeThrew

  /** The three locals after the processing block: the saved path, the
      transcript and the booking, each null when its step failed or did not
      run. */
  datatype Processed = Processed(savedPath: Option<string>, transcript: Option<string>, booking: Option<Booking>)

  /** The processing block, whose failures are all swallowed. `download`
      says whether fetching a URL into a path succeeded; an absent recording
      URL makes the download throw. */
  function Process(recordingUrl: Option<string>, localPath: string,
                   download: (string, string) -> bool,
                   transcribe: string -> Transcribed,
                   extract: string -> Option<Booking>): (p: Processed)
    ensures p.savedPath.None? ==> p.transcript.None?
    ensures p.booking.Some? ==> TruthyStr(p.transcript) && p.booking == extract(p.transcript.value)
    ensures p.savedPath.Some? <==> recordingUrl.Some? && download(DownloadUrl(recordingUrl.value), localPath)
    ensures p.savedPath.Some? ==> p.savedPath == Some(localPath)
    ensures p.savedPath.Some? && transcribe(localPath).Transcript? ==> p.transcript == transcribe(localPath).text
    ensures transcribe(localPath).TranscribeThrew? ==> p.transcript.None?
    ensures TruthyStr(p.transcript) ==> p.booking == extract(p.transcript.value)
  {
    if recordingUrl.None? || !download(DownloadUrl(recordingUrl.value), localPath) then
      Processed(None, None, None)
    else
      match transcribe(localPath)
      case TranscribeThrew => Processed(Some(localPath), None, None)
      case Transcript(t) => Processed(Some(localPath), t, if TruthyStr(t) then extract(t.value) else None)
  }

  /** `smsDetails` recorded from an SMS result; empty strings become null. */
  function DetailsOf(result: SmsResult): SmsDetails {
    match result
    case Sent(sid, status) => SmsDetails(OrNull(Some(sid)), OrNull(Some(status)), None)
    case Failed(error) => SmsDetails(None, None, OrNull(Some(error)))
  }

  /** The booking is complete enough for an SMS. */
  predicate SmsReady(b: Option<Booking>) {
    b.Some? && TruthyStr(b.value.name) && TruthyStr(b.value.phoneNo) && TruthyInt(b.value.guests)
  }

  /** The fields written by the first `update`. */
  function CompletedFields(log: CallLog, recordingUrl: Option<string>, duration: int, p: Processed): CallLog {
    log.(recordingUrl := recordingUrl, localFilePath := p.savedPath, transcription := p.transcript,
         booking := if p.booking.Some? then p.booking.value else EmptyBooking,
         duration := duration, status := Completed)
  }

  /** The effect of `updateCallLog` on the store, its result, and the SMS it
      sent, if any. */
  datatype UpdateOutcome = UpdateOutcome(docs: map<string, CallLog>, result: Result<Option<CallLog>>,
                                         sms: Option<SmsAttempt>)

  function CompleteCall(docs: map<string, CallLog>, callSid: Option<string>, recordingUrl: Option<string>,
                        duration: int, download: (string, string) -> bool,
                        transcribe: string -> Transcribed, extract: string -> Option<Booking>,
                        svc: SmsService, send: SmsRequest -> TwilioReply): (u: UpdateOutcome)
    ensures !TruthyStr(callSid) ==> u == UpdateOutcome(docs, Err(MissingCallSidError), None)
    ensures TruthyStr(callSid) && callSid.value !in docs ==> u == UpdateOutcome(docs, Ok(None), None)
    ensures u.docs.Keys == docs.Keys
    ensures forall k :: k in docs && Some(k) != callSid ==> u.docs[k] == docs[k]
    ensures u.result.Ok? && u.result.value.Some? ==> u.result.value == Some(u.docs[callSid.value])
  {
    if !TruthyStr(callSid) then UpdateOutcome(docs, Err(MissingCallSidError), None)
    else
      var sid := callSid.value;
      var p := Process(recordingUrl, RecordingPath(sid), download, transcribe, extract);
      if sid !in docs then UpdateOutcome(docs, Ok(None), None)
      else
        var existing := docs[sid];
        var completed := CompletedFields(existing, recordingUrl, duration, p);
        if SmsReady(p.booking) then
          var a := SendAutomatedSms(svc, p.booking.value, existing.paymentId, send);
          var final := completed.(smsSent := a.result.Success(), smsDetails := DetailsOf(a.result));
          UpdateOutcome(docs[sid := final], Ok(Some(final)), Some(a))
        else
          UpdateOutcome(docs[sid := completed], Ok(Some(completed)), None)
  }

  /** A completed call keeps its identity and payment id, records the
      recording, the duration and the status, and falls back to the empty
      booking when extraction gave nothing. */
  lemma CompletedDocument(docs: map<string, CallLog>, callSid: Option<string>, recordingUrl: Option<string>,
                          duration: int, download: (string, string) -> bool,
                          transcribe: string -> Transcribed, extract: string -> Option<Booking>,
                          svc: SmsService, send: SmsRequest -> TwilioReply)
    requires TruthyStr(callSid) && callSid.value in docs
    ensures var u := CompleteCall(docs, callSid, recordingUrl, duration, download, transcribe, extract, svc, send);
            var p := Process(recordingUrl, RecordingPath(callSid.value), download, transcribe, extract);
            var before := docs[callSid.value];
            var after := u.docs[callSid.value];
            && u.result == Ok(Some(after))
            && after.status == Completed && after.duration == duration && after.recordingUrl == recordingUrl
            && after.callSid == before.callSid && after.paymentId == before.paymentId
            && after.customerPhone == before.customerPhone && after.botPhone == before.botPhone
            && after.restaurantId == before.restaurantId
            && after.localFilePath == p.savedPath && after.transcription == p.transcript
            && (p.booking.None? ==> after.booking == EmptyBooking)
            && (p.booking.Some? ==> after.booking == p.booking.value)
  {
  }

  /** An SMS is sent for the call's payment id exactly when the extracted
      booking has a truthy name, phone number and guest count, and
      `smsSent` then records whether it succeeded; otherwise the SMS fields
      keep their old values. */
  lemma SmsSentIffBookingComplete(docs: map<string, CallLog>, callSid: Option<string>, recordingUrl: Option<string>,
                                  duration: int, download: (string, string) -> bool,
                                  transcribe: string -> Transcribed, extract: string -> Option<Booking>,
                                  svc: SmsService, send: SmsRequest -> TwilioReply)
    requires TruthyStr(callSid) && callSid.value in docs
    ensures var u := CompleteCall(docs, callSid, recordingUrl, duration, download, transcribe, extract, svc, send);
            var p := Process(recordingUrl, RecordingPath(callSid.value), download, transcribe, extract);
            var before := docs[callSid.value];
            var after := u.docs[callSid.value];
            && (u.sms.Some? <==> SmsReady(p.booking))
            && (u.sms.Some? ==> u.sms.value == SendAutomatedSms(svc, p.booking.value, before.paymentId, send)
                                && after.smsSent == u.sms.value.result.Success())
            && (u.sms.None? ==> after.smsSent == before.smsSent && after.smsDetails == before.smsDetails)
  {
  }

  /** A failed download leaves no saved path, no transcript and no booking;
      a falsy transcript is never handed to the extractor. */
  lemma ProcessingFailuresSwallowed(recordingUrl: Option<string>, localPath: string,
                                    download: (string, string) -> bool,
                                    transcribe: string -> Transcribed,
                                    extract1: string -> Option<Booking>,
                                    extract2: string -> Option<Booking>)
    ensures var p := Process(recordingUrl, localPath, download, transcribe, extract1);
            && (p.savedPath.None? ==> p == Processed(None, None, None))
            && (!TruthyStr(p.transcript) ==>
                  p == Process(recordingUrl, localPath, download, transcribe, extract2) && p.booking.None?)
  {
  }

  /** The Firestore collection `callLogs`, keyed by call SID. */
  class CallLogStore {
    var docs: map<string, CallLog>

    constructor ()
      ensures docs == map[]
    {
      docs := map[];
    }

    /** `createCallLog`: writes, or overwrites, the document of a new call. */
    method CreateCallLog(callSid: string, from: string, to: string, paymentId: string) returns (log: CallLog)
      modifies this
      ensures log == NewCallLog(callSid, from, to, paymentId)
      ensures docs == old(docs)[callSid := log]
    {
      log := NewCallLog(callSid, from, to, paymentId);
      docs := docs[callSid := log];
    }

    /** `updateCallLog`: the locals are filled step by step, then the
        document is updated, and updated again with the SMS outcome. */
    method UpdateCallLog(callSid: Option<string>, recordingUrl: Option<string>, duration: int,
                         download: (string, string) -> bool,
                         transcribe: string -> Transcribed, extract: string -> Option<Booking>,
                         svc: SmsService, send: SmsRequest -> TwilioReply)
      returns (r: Result<Option<CallLog>>, sms: Option<SmsAttempt>)
      modifies this
      ensures var u := CompleteCall(old(docs), callSid, recordingUrl, duration, download,
                                   transcribe, extract, svc, send);
              docs == u.docs && r == u.result && sms == u.sms
    {
      sms := None;
      if !TruthyStr(callSid) {
        return Err(MissingCallSidError), None;
      }
      var sid := callSid.value;
      var localPath := RecordingPath(sid);
      var savedPath: Option<string> := None;
      var transcriptText: Option<string> := None;
      var bookingData: Option<Booking> := None;
      if recordingUrl.Some? && download(DownloadUrl(recordingUrl.value), localPath) {
        savedPath := Some(localPath);
        var t := transcribe(localPath);
        if t.Transcript? {
          transcriptText := t.text;
          if TruthyStr(transcriptText) {
            bookingData := extract(transcriptText.value);
          }
        }
      }
      if sid !in docs {
        return Ok(None), None;
      }
      var existingData := docs[sid];
      var updated := existingData.(recordingUrl := recordingUrl, localFilePath := savedPath,
                                   transcription := transcriptText,
                                   booking := if bookingData.Some? then bookingData.value else EmptyBooking,
                                   duration := duration, status := Completed);
      docs := docs[sid := updated];
      if SmsReady(bookingData) {
        var smsResult := SendAutomatedSms(svc, bookingData.value, existingData.paymentId, send);
        sms := Some(smsResult);
        docs := docs[sid := docs[sid].(smsSent := smsResult.result.Success(),
                                       smsDetails := DetailsOf(smsResult.result))];
      }
      r := Ok(Some(docs[sid]));
    }
  }
}
