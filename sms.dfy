/** The SMS service of src/services/smsService.js: phone formatting to the
    E.164 shape, the payment-link message, and the guards of
    `sendPaymentSms` and `sendAutomatedSms`. The Twilio client is a function
    from the request to Twilio's reply; the `sentAt` timestamps are left out. */
module Sms {
  import opened Common
  import opened Extraction

  const DefaultCountryCode: string := "91"
  const DefaultPaymentBaseUrl: string := "http://localhost:3000"
  const DefaultRestaurantName: string := "Our Restaurant"

  const NoSenderError: string := "TWILIO_PHONE_NUMBER not configured in .env file"
  const InvalidPhoneError: string := "Invalid phone number provided"
  const MissingDataError: string := "Missing required booking data (name, phone, or guests)"

  /** The two settings the service reads from the environment when it is
      created. */
  datatype SmsService = SmsService(fromNumber: Option<string>, paymentBaseUrl: string)

  /** `new SmsService()`: the payment base URL falls back to the local
      frontend when its variable is unset or empty. */
  function NewSmsService(envFromNumber: Option<string>, envPaymentUrl: Option<string>): (s: SmsService)
    ensures s.fromNumber == envFromNumber
    ensures TruthyStr(envPaymentUrl) ==> s.paymentBaseUrl == envPaymentUrl.value
    ensures !TruthyStr(envPaymentUrl) ==> s.paymentBaseUrl == DefaultPaymentBaseUrl
  {
    SmsService(envFromNumber, if TruthyStr(envPaymentUrl) then envPaymentUrl.value else DefaultPaymentBaseUrl)
  }

  /** `s.replace(/\D/g, '')`: the digits of `s`, in order. */
  function OnlyDigits(s: string): (r: string)
    ensures AllDigits(r)
    ensures |r| <= |s|
    ensures AllDigits(s) ==> r == s
    ensures |s| == 1 ==> r == (if IsDigit(s[0]) then s else [])
  {
    if s == [] then []
    else (if IsDigit(s[0]) then [s[0]] else []) + OnlyDigits(s[1..])
  }

  /** The digits of a concatenation are the digits of each part, in order;
      with the one-character case this fixes `OnlyDigits` completely. */
  lemma {:induction false} OnlyDigitsAppend(a: string, b: string)
    ensures OnlyDigits(a + b) == OnlyDigits(a) + OnlyDigits(b)
    decreases |a|
  {
    if a == [] {
      assert a + b == b;
    } else {
      var head := if IsDigit(a[0]) then [a[0]] else [];
      assert (a + b)[1..] == a[1..] + b;
      assert OnlyDigits(a + b) == head + OnlyDigits(a[1..] + b);
      OnlyDigitsAppend(a[1..], b);
      assert OnlyDigits(a) == head + OnlyDigits(a[1..]);
    }
  }

  /** `formatPhoneNumber(phoneNumber, code)`: null for a falsy number,
      otherwise the E.164 form of its digits. */
  function FormatPhoneNumber(phone: Option<string>, code: string): (r: Option<string>)
    ensures r.None? <==> !TruthyStr(phone)
    ensures r.Some? ==> |r.value| > 0 && r.value[0] == '+'
    ensures r.Some? && AllDigits(code) ==> AllDigits(r.value[1..])
  {
    if !TruthyStr(phone) then None else Some(FormatDigits(OnlyDigits(phone.value), code))
  }

  /** The digits, prefixed by '+' when they already begin with the country
      code and go on past it; otherwise stripped of one leading '0' and
      prefixed by '+' and the code. */
  function FormatDigits(cleaned: string, code: string): (r: string)
    ensures |r| > 0 && r[0] == '+'
    ensures AllDigits(code) && AllDigits(cleaned) ==> AllDigits(r[1..])
  {
    if StartsWith(cleaned, code) && |cleaned| > |code| then "+" + cleaned
    else
      var rest := if StartsWith(cleaned, "0") then cleaned[1..] else cleaned;
      var r := "+" + code + rest;
      assert r[1..] == code + rest;
      r
  }

  /** The two ways a formatted number is built. */
  lemma FormatCases(phone: string, code: string)
    requires phone != ""
    ensures var d := OnlyDigits(phone);
            FormatPhoneNumber(Some(phone), code) ==
              if StartsWith(d, code) && |d| > |code| then Some("+" + d)
              else if |d| > 0 && d[0] == '0' then Some("+" + code + d[1..])
              else Some("+" + code + d)
  {
  }

  /** A '+' in front of digits is dropped by the digit filter. */
  lemma DigitsAfterPlus(d: string)
    requires AllDigits(d)
    ensures OnlyDigits("+" + d) == d
  {
    assert ("+" + d)[1..] == d;
  }

  /** The digits of a formatted number that goes on past the country code
      are formatted to the same number. */
  lemma FormatDigitsFixpoint(cleaned: string, code: string)
    requires |FormatDigits(cleaned, code)| > |code| + 1
    ensures FormatDigits(FormatDigits(cleaned, code)[1..], code) == FormatDigits(cleaned, code)
  {
    var x := FormatDigits(cleaned, code);
    var d := x[1..];
    assert x == "+" + d;
    if !(StartsWith(cleaned, code) && |cleaned| > |code|) {
      var rest := if StartsWith(cleaned, "0") then cleaned[1..] else cleaned;
      assert d == code + rest;
      assert d[..|code|] == code;
    }
  }

  /** Formatting a formatted number again changes nothing, as long as it
      carries more digits than the country code. */
  lemma FormatIdempotent(phone: Option<string>, code: string)
    requires AllDigits(code)
    requires FormatPhoneNumber(phone, code).Some?
    requires |FormatPhoneNumber(phone, code).value| > |code| + 1
    ensures FormatPhoneNumber(FormatPhoneNumber(phone, code), code) == FormatPhoneNumber(phone, code)
  {
    var x := FormatPhoneNumber(phone, code).value;
    assert x == FormatDigits(OnlyDigits(phone.value), code);
    assert x == "+" + x[1..];
    DigitsAfterPlus(x[1..]);
    FormatDigitsFixpoint(OnlyDigits(phone.value), code);
  }

  /** Without the length condition formatting is not idempotent: a number
      with no digits becomes the bare code, and formatting that repeats the
      code. */
  lemma FormatNotIdempotentOnBareCode()
    ensures FormatPhoneNumber(Some("n/a"), DefaultCountryCode) == Some("+91")
    ensures FormatPhoneNumber(Some("+91"), DefaultCountryCode) == Some("+9191")
  {
    assert OnlyDigits("a") == "";
    assert OnlyDigits("/a") == "";
    assert OnlyDigits("n/a") == "";
    assert FormatDigits("", "91") == "+91";
    assert FormatPhoneNumber(Some("n/a"), "91") == Some(FormatDigits("", "91"));
    DigitsAfterPlus("91");
    assert !StartsWith("91", "0");
    assert FormatDigits("91", "91") == "+9191";
    assert FormatPhoneNumber(Some("+91"), "91") == Some(FormatDigits("91", "91"));
  }

  /** "person" for exactly one guest, "people" otherwise. */
  function GuestNoun(guests: int): (w: string)
    ensures w == "person" <==> guests == 1
    ensures w == "person" || w == "people"
  {
    if guests == 1 then "person" else "people"
  }

  /** The date and time clauses are present only for a truthy value. */
  function OnClause(date: Option<string>): string {
    if TruthyStr(date) then " on " + date.value else ""
  }

  function AtClause(time: Option<string>): string {
    if TruthyStr(time) then " at " + time.value else ""
  }

  function PaymentLink(baseUrl: string, paymentId: string): (link: string)
    ensures StartsWith(link, baseUrl + "/payment/")
    ensures EndsWith(link, paymentId)
    ensures |link| == |baseUrl| + |"/payment/"| + |paymentId|
  {
    var link := baseUrl + "/payment/" + paymentId;
    assert link[|link| - |paymentId|..] == paymentId;
    link
  }

  function Greeting(name: string): string {
    "Dear " + name + ",\n\n"
  }

  const ThankYou: string := "Thank you for your reservation! We've reserved a table for "

  /** The booking sentence, from the guest count to its full stop. */
  function BookingSentence(guests: int, restaurant: string, date: Option<string>, time: Option<string>): string {
    IntToDecimal(guests) + " " + GuestNoun(guests) + " at " + restaurant + OnClause(date) + AtClause(time) + "."
  }

  const PleasePay: string := "\n\nPlease secure your booking by completing payment here:"

  function Signature(restaurant: string): string {
    "Best regards,\n" + restaurant
  }

  const LookForward: string := "\nWe look forward to serving you!\n\n"

  /** Where the pieces of a seven-piece text sit. */
  lemma SevenPieces(a: string, b: string, c: string, d: string, e: string, f: string, g: string)
    ensures var m := a + b + c + d + e + f + g;
            && StartsWith(m, a)
            && InfixAt(c, m, |a| + |b|)
            && InfixAt(e, m, |a| + |b| + |c| + |d|)
            && EndsWith(m, g)
  {
    var m := a + b + c + d + e + f + g;
    assert m[..|a|] == a;
    assert m[|a| + |b|..|a| + |b| + |c|] == c;
    assert m[|a| + |b| + |c| + |d|..|a| + |b| + |c| + |d| + |e|] == e;
    assert m[|m| - |g|..] == g;
  }

  /** The SMS text: addressed to the customer, carrying the payment link on
      a line of its own, and signed with the restaurant's name. */
  function ComposeMessage(name: string, guests: int, date: Option<string>, time: Option<string>,
                          restaurant: string, link: string): (m: string)
    ensures StartsWith(m, Greeting(name))
    ensures IsInfix(BookingSentence(guests, restaurant, date, time), m)
    ensures IsInfix("\n" + link + "\n", m)
    ensures EndsWith(m, Signature(restaurant))
  {
    var sentence := BookingSentence(guests, restaurant, date, time);
    var line := "\n" + link + "\n";
    var m := Greeting(name) + ThankYou + sentence + PleasePay + line + LookForward + Signature(restaurant);
    SevenPieces(Greeting(name), ThankYou, sentence, PleasePay, line, LookForward, Signature(restaurant));
    m
  }

  /** A falsy date or time leaves the message as if it had not been given:
      the sentence ends right after the restaurant's name. */
  lemma FalsyClausesOmitted(name: string, guests: int, date: Option<string>, time: Option<string>,
                            restaurant: string, link: string)
    requires !TruthyStr(date) && !TruthyStr(time)
    ensures ComposeMessage(name, guests, date, time, restaurant, link)
         == ComposeMessage(name, guests, None, None, restaurant, link)
    ensures BookingSentence(guests, restaurant, date, time)
         == IntToDecimal(guests) + " " + GuestNoun(guests) + " at " + restaurant + "."
  {
  }

  /** The arguments of `sendPaymentSms`; `restaurantName` already carries
      its default. */
  datatype PaymentSmsParams = PaymentSmsParams(
    customerName: string,
    customerPhone: Option<string>,
    numberOfGuests: int,
    bookingDate: Option<string>,
    bookingTime: Option<string>,
    paymentId: string,
    restaurantName: string)

  /** `client.messages.create({ body, from, to })`. */
  datatype SmsRequest = SmsRequest(body: string, from: string, to: string)

  /** What Twilio answers: a created message, or an error with its message. */
  datatype TwilioReply = Created(sid: string, status: string) | Rejected(message: string)

  /** The object the service returns, without `sentAt`. */
  datatype SmsResult = Sent(sid: string, status: string) | Failed(error: string)
  {
    predicate Success() { this.Sent? }
  }

  /** The request sent to Twilio, if any, and the result returned. */
  datatype SmsAttempt = SmsAttempt(request: Option<SmsRequest>, result: SmsResult)

  function ReplyToResult(reply: TwilioReply): SmsResult {
    match reply
    case Created(sid, status) => Sent(sid, status)
    case Rejected(message) => Failed(message)
  }

  /** `sendPaymentSms`: both guards fail without contacting Twilio, and every
      failure is a result, never an exception. */
  function SendPaymentSms(svc: SmsService, p: PaymentSmsParams, send: SmsRequest -> TwilioReply): (a: SmsAttempt)
    ensures a.request.Some? <==> TruthyStr(svc.fromNumber) && TruthyStr(p.customerPhone)
    ensures !TruthyStr(svc.fromNumber) ==> a.result == Failed(NoSenderError)
    ensures TruthyStr(svc.fromNumber) && !TruthyStr(p.customerPhone) ==> a.result == Failed(InvalidPhoneError)
    ensures a.request.Some? ==>
              && a.request.value.from == svc.fromNumber.value
              && Some(a.request.value.to) == FormatPhoneNumber(p.customerPhone, DefaultCountryCode)
              && a.request.value.body == ComposeMessage(p.customerName, p.numberOfGuests, p.bookingDate,
                   p.bookingTime, p.restaurantName, PaymentLink(svc.paymentBaseUrl, p.paymentId))
              && a.result == ReplyToResult(send(a.request.value))
  {
    if !TruthyStr(svc.fromNumber) then SmsAttempt(None, Failed(NoSenderError))
    else
      var formatted := FormatPhoneNumber(p.customerPhone, DefaultCountryCode);
      if formatted.None? then SmsAttempt(None, Failed(InvalidPhoneError))
      else
        var link := PaymentLink(svc.paymentBaseUrl, p.paymentId);
        var body := ComposeMessage(p.customerName, p.numberOfGuests, p.bookingDate, p.bookingTime,
                                   p.restaurantName, link);
        var request := SmsRequest(body, svc.fromNumber.value, formatted.value);
        SmsAttempt(Some(request), ReplyToResult(send(request)))
  }

  /** `x || null` on a nullable string. */
  function OrNull(x: Option<string>): (r: Option<string>)
    ensures TruthyStr(r) == TruthyStr(x)
    ensures r.None? || r == x
  {
    if TruthyStr(x) then x else None
  }

  /** `sendAutomatedSms`: a booking without a truthy name, phone number or
      guest count is refused without sending; otherwise the payment SMS is
      sent with the default restaurant name. */
  function SendAutomatedSms(svc: SmsService, booking: Booking, paymentId: string,
                            send: SmsRequest -> TwilioReply): (a: SmsAttempt)
    ensures !(TruthyStr(booking.name) && TruthyStr(booking.phoneNo) && TruthyInt(booking.guests)) ==>
              a == SmsAttempt(None, Failed(MissingDataError))
    ensures a.request.Some? <==>
              TruthyStr(booking.name) && TruthyStr(booking.phoneNo) && TruthyInt(booking.guests)
              && TruthyStr(svc.fromNumber)
  {
    if !TruthyStr(booking.name) || !TruthyStr(booking.phoneNo) || !TruthyInt(booking.guests) then
      SmsAttempt(None, Failed(MissingDataError))
    else
      SendPaymentSms(svc, PaymentSmsParams(booking.name.value, booking.phoneNo, booking.guests.value,
                                           OrNull(booking.date), OrNull(booking.time), paymentId,
                                           DefaultRestaurantName), send)
  }

  /** An automated SMS succeeds exactly when it was sent and Twilio created
      the message, and it is addressed to the booking's formatted number. */
  lemma AutomatedSmsOutcome(svc: SmsService, booking: Booking, paymentId: string,
                            send: SmsRequest -> TwilioReply)
    ensures var a := SendAutomatedSms(svc, booking, paymentId, send);
            && (a.result.Success() <==> a.request.Some? && send(a.request.value).Created?)
            && (a.request.Some? ==> Some(a.request.value.to) == FormatPhoneNumber(booking.phoneNo, DefaultCountryCode))
  {
  }
}
