/** The M-Pesa gateway adapter: the request timestamp, the password that
    accompanies every request, the Basic credentials of the OAuth request,
    and the bodies of the STK-push and status-query requests. The HTTP
    exchanges themselves are not part of this model; their replies are
    inputs of the payment controller. */
module MpesaService {
  import opened Wrappers
  import opened Text
  import Base64

  /** The adapter's configuration, copied once from the environment. */
  datatype Config = Config(
    consumerKey: string,
    consumerSecret: string,
    baseUrl: string,
    passkey: string,
    shortcode: string,
    callbackUrl: string)

  /** A local date and time as the getters of a JavaScript `Date` report it:
      `month` is `getMonth()`, 0 for January. */
  datatype DateTime = DateTime(year: nat, month: nat, day: nat, hours: nat, minutes: nat, seconds: nat)

  predicate ValidDateTime(d: DateTime) {
    d.month < 12 && 1 <= d.day <= 31 && d.hours < 24 && d.minutes < 60 && d.seconds < 60
  }

  /** `YYYYMMDDHHmmss`: the year, then month (1-based), day, hours, minutes
      and seconds, each padded to two digits. */
  function GetTimestamp(d: DateTime): (ts: string)
    ensures |NatToString(d.year)| <= |ts| && ts[..|NatToString(d.year)|] == NatToString(d.year)
  {
    NatToString(d.year) + Pad2(d.month + 1) + Pad2(d.day) + Pad2(d.hours) + Pad2(d.minutes) + Pad2(d.seconds)
  }

  lemma AllDigitsConcat(a: string, b: string)
    requires AllDigits(a) && AllDigits(b)
    ensures AllDigits(a + b)
  {
    forall i | 0 <= i < |a + b| ensures IsDigit((a + b)[i]) {
      if i >= |a| { assert (a + b)[i] == b[i - |a|]; }
    }
  }

  lemma SliceOfConcat(a: string, b: string, i: nat, j: nat)
    requires i <= j <= |a + b|
    ensures j <= |a| ==> (a + b)[i..j] == a[i..j]
    ensures |a| <= i ==> (a + b)[i..j] == b[i - |a|..j - |a|]
  {
  }

  /** A string followed by five two-character strings: where each piece
      sits in the whole. */
  lemma FieldLayout(y: string, f1: string, f2: string, f3: string, f4: string, f5: string)
    requires |f1| == |f2| == |f3| == |f4| == |f5| == 2
    ensures var n, ts := |y|, y + f1 + f2 + f3 + f4 + f5;
      && |ts| == n + 10
      && ts[..n] == y && ts[n..n + 2] == f1 && ts[n + 2..n + 4] == f2
      && ts[n + 4..n + 6] == f3 && ts[n + 6..n + 8] == f4 && ts[n + 8..n + 10] == f5
  {
    var n := |y|;
    var p1 := y + f1;
    var p2 := p1 + f2;
    var p3 := p2 + f3;
    var p4 := p3 + f4;
    var ts := p4 + f5;
    SliceOfConcat(p4, f5, n + 8, n + 10);
    SliceOfConcat(p4, f5, 0, n + 6);
    SliceOfConcat(p4, f5, n + 6, n + 8);
    SliceOfConcat(p4, f5, n + 4, n + 6);
    SliceOfConcat(p4, f5, n + 2, n + 4);
    SliceOfConcat(p4, f5, n, n + 2);
    SliceOfConcat(p4, f5, 0, n);
    SliceOfConcat(p3, f4, n + 6, n + 8);
    SliceOfConcat(p3, f4, n + 4, n + 6);
    SliceOfConcat(p3, f4, n + 2, n + 4);
    SliceOfConcat(p3, f4, n, n + 2);
    SliceOfConcat(p3, f4, 0, n);
    SliceOfConcat(p2, f3, n + 4, n + 6);
    SliceOfConcat(p2, f3, n + 2, n + 4);
    SliceOfConcat(p2, f3, n, n + 2);
    SliceOfConcat(p2, f3, 0, n);
    SliceOfConcat(p1, f2, n + 2, n + 4);
    SliceOfConcat(p1, f2, n, n + 2);
    SliceOfConcat(p1, f2, 0, n);
    SliceOfConcat(y, f1, n, n + 2);
    SliceOfConcat(y, f1, 0, n);
  }

  /** The timestamp is all digits: the year's digits followed by five
      two-digit fields holding month (1-based), day, hours, minutes and
      seconds. */
  lemma TimestampFields(d: DateTime)
    requires ValidDateTime(d)
    ensures var y := |NatToString(d.year)|;
      var ts := GetTimestamp(d);
      && |ts| == y + 10 && AllDigits(ts)
      && ts[..y] == NatToString(d.year)
      && ts[y..y + 2] == Pad2(d.month + 1)
      && ts[y + 2..y + 4] == Pad2(d.day)
      && ts[y + 4..y + 6] == Pad2(d.hours)
      && ts[y + 6..y + 8] == Pad2(d.minutes)
      && ts[y + 8..y + 10] == Pad2(d.seconds)
  {
    Pad2Shape(d.month + 1);
    Pad2Shape(d.day);
    Pad2Shape(d.hours);
    Pad2Shape(d.minutes);
    Pad2Shape(d.seconds);
    var y, f1, f2, f3, f4, f5 := NatToString(d.year), Pad2(d.month + 1), Pad2(d.day), Pad2(d.hours), Pad2(d.minutes), Pad2(d.seconds);
    FieldLayout(y, f1, f2, f3, f4, f5);
    AllDigitsConcat(y, f1);
    AllDigitsConcat(y + f1, f2);
    AllDigitsConcat(y + f1 + f2, f3);
    AllDigitsConcat(y + f1 + f2 + f3, f4);
    AllDigitsConcat(y + f1 + f2 + f3 + f4, f5);
  }

  /** Reads a fourteen-digit timestamp back into its fields. */
  function ParseTimestamp(ts: string): Option<DateTime> {
    if |ts| != 14 || !AllDigits(ts) then None
    else
      var month := ParseNat(ts[4..6]);
      if month == 0 then None
      else Some(DateTime(ParseNat(ts[..4]), month - 1, ParseNat(ts[6..8]),
                         ParseNat(ts[8..10]), ParseNat(ts[10..12]), ParseNat(ts[12..14])))
  }

  /** The two digits that follow the year are the 1-based month, "01" to "12". */
  lemma MonthField(d: DateTime)
    requires ValidDateTime(d)
    ensures var y := |NatToString(d.year)|;
      var field := GetTimestamp(d)[y..y + 2];
      AllDigits(field) && ParseNat(field) == d.month + 1 && 1 <= ParseNat(field) <= 12
  {
    TimestampFields(d);
    Pad2Digits(d.month + 1);
  }

  lemma FourDigitYear(year: nat)
    requires 1000 <= year <= 9999
    ensures |NatToString(year)| == 4
  {
    assert NatToString(year) == NatToString(year / 10) + [DigitChar(year % 10)];
    assert NatToString(year / 10) == NatToString(year / 100) + [DigitChar(year / 10 % 10)];
    assert NatToString(year / 100) == NatToString(year / 1000) + [DigitChar(year / 100 % 10)];
  }

  /** For a four-digit year the timestamp has fourteen characters and reads
      back as the date it was made from. */
  lemma TimestampRoundTrip(d: DateTime)
    requires ValidDateTime(d) && 1000 <= d.year <= 9999
    ensures |GetTimestamp(d)| == 14
    ensures ParseTimestamp(GetTimestamp(d)) == Some(d)
  {
    FourDigitYear(d.year);
    TimestampFields(d);
    ParseNatToString(d.year);
    Pad2Digits(d.month + 1);
    Pad2Digits(d.day);
    Pad2Digits(d.hours);
    Pad2Digits(d.minutes);
    Pad2Digits(d.seconds);
  }

  /** Base64 of the UTF-8 bytes of shortcode, passkey and timestamp, one
      after the other. */
  function Password(shortcode: string, passkey: string, timestamp: string): (p: string)
    ensures Base64.Decode(p) == Some(Utf8Encode(shortcode + passkey + timestamp))
  {
    Base64.DecodeEncode(Utf8Encode(shortcode + passkey + timestamp));
    Base64.Encode(Utf8Encode(shortcode + passkey + timestamp))
  }

  /** The password is the only Base64 text of shortcode, passkey and
      timestamp: a text that decodes to those bytes is the password. */
  lemma PasswordDetermined(shortcode: string, passkey: string, timestamp: string, s: string)
    requires Base64.Decode(s) == Some(Utf8Encode(shortcode + passkey + timestamp))
    ensures s == Password(shortcode, passkey, timestamp)
  {
    Base64.EncodeDecode(s, Utf8Encode(shortcode + passkey + timestamp));
  }

  /** The credentials of the OAuth request: Base64 of `key:secret`. */
  function BasicCredentials(cfg: Config): (auth: string)
    ensures Base64.Decode(auth) == Some(Utf8Encode(cfg.consumerKey + ":" + cfg.consumerSecret))
  {
    Base64.DecodeEncode(Utf8Encode(cfg.consumerKey + ":" + cfg.consumerSecret));
    Base64.Encode(Utf8Encode(cfg.consumerKey + ":" + cfg.consumerSecret))
  }

  /** The credentials are the only Base64 text of `key:secret`. */
  lemma CredentialsDetermined(cfg: Config, s: string)
    requires Base64.Decode(s) == Some(Utf8Encode(cfg.consumerKey + ":" + cfg.consumerSecret))
    ensures s == BasicCredentials(cfg)
  {
    Base64.EncodeDecode(s, Utf8Encode(cfg.consumerKey + ":" + cfg.consumerSecret));
  }

  datatype StkPushRequest = StkPushRequest(
    businessShortCode: string,
    password: string,
    timestamp: string,
    transactionType: string,
    amount: int,
    partyA: string,
    partyB: string,
    phoneNumber: string,
    callBackUrl: string,
    accountReference: string,
    transactionDesc: string)

  datatype StatusQueryRequest = StatusQueryRequest(
    businessShortCode: string,
    password: string,
    timestamp: string,
    checkoutRequestId: string)

  /** The body of the STK-push request for `amount` from `phoneNumber`,
      labelled with `reference`, sent at `now`. */
  function StkPushBody(cfg: Config, phoneNumber: string, amount: int, reference: string, now: DateTime): (body: StkPushRequest)
    requires ValidDateTime(now)
    ensures body.businessShortCode == cfg.shortcode && body.partyB == cfg.shortcode
    ensures body.partyA == phoneNumber && body.phoneNumber == phoneNumber && body.amount == amount
    ensures body.transactionType == "CustomerPayBillOnline" && body.callBackUrl == cfg.callbackUrl
    ensures body.accountReference == reference && body.transactionDesc == "Payment for " + reference
    ensures body.timestamp == GetTimestamp(now)
    ensures Base64.Decode(body.password) == Some(Utf8Encode(body.businessShortCode + cfg.passkey + body.timestamp))
  {
    var timestamp := GetTimestamp(now);
    StkPushRequest(
      businessShortCode := cfg.shortcode,
      password := Password(cfg.shortcode, cfg.passkey, timestamp),
      timestamp := timestamp,
      transactionType := "CustomerPayBillOnline",
      amount := amount,
      partyA := phoneNumber,
      partyB := cfg.shortcode,
      phoneNumber := phoneNumber,
      callBackUrl := cfg.callbackUrl,
      accountReference := reference,
      transactionDesc := "Payment for " + reference)
  }

  /** The body of the status query for the push identified by `transactionId`. */
  function StatusQueryBody(cfg: Config, transactionId: string, now: DateTime): (body: StatusQueryRequest)
    requires ValidDateTime(now)
    ensures body.businessShortCode == cfg.shortcode && body.checkoutRequestId == transactionId
    ensures body.timestamp == GetTimestamp(now)
    ensures Base64.Decode(body.password) == Some(Utf8Encode(body.businessShortCode + cfg.passkey + body.timestamp))
  {
    var timestamp := GetTimestamp(now);
    StatusQueryRequest(
      businessShortCode := cfg.shortcode,
      password := Password(cfg.shortcode, cfg.passkey, timestamp),
      timestamp := timestamp,
      checkoutRequestId := transactionId)
  }
}
