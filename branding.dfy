/** Branded values: a primitive wrapped in a type of its own, so that values
    of the same representation but different meaning (a user id and a
    product id, dollars and euros) cannot be mixed up. A plain brand
    constructor always succeeds; a smart constructor checks its argument
    and returns it, branded and unchanged, or `None` (the program's
    `null`). A JavaScript `number` is modelled as an `int` where it is an
    identifier and as a `real` where it is a quantity. */
module Branding {

  import opened Wrappers
  import opened JsText

  datatype UserId = UserId(value: int)
  datatype ProductId = ProductId(value: int)
  datatype OrderId = OrderId(value: string)
  datatype Email = Email(address: string)
  datatype Url = Url(href: string)
  datatype SecureUrl = SecureUrl(url: Url)
  datatype Usd = Usd(amount: real)
  datatype Eur = Eur(amount: real)
  datatype Latitude = Latitude(degrees: real)
  datatype Longitude = Longitude(degrees: real)
  datatype PositiveNumber = PositiveNumber(value: real)
  datatype HexColor = HexColor(code: string)

  // ---------------------------------------------------------------------
  // Plain brand constructors
  // ---------------------------------------------------------------------

  function CreateUserId(id: int): (r: UserId)
    ensures r.value == id
  {
    UserId(id)
  }

  function CreateProductId(id: int): (r: ProductId)
    ensures r.value == id
  {
    ProductId(id)
  }

  function CreateOrderId(id: string): (r: OrderId)
    ensures r.value == id
  {
    OrderId(id)
  }

  function ToUsd(amount: real): (r: Usd)
    ensures r.amount == amount
  {
    Usd(amount)
  }

  function ToEur(amount: real): (r: Eur)
    ensures r.amount == amount
  {
    Eur(amount)
  }

  // ---------------------------------------------------------------------
  // Email: /^[^\s@]+@[^\s@]+\.[^\s@]+$/
  // ---------------------------------------------------------------------

  /** The class `[^\s@]`. */
  predicate IsAddressChar(c: char) {
    !IsWhitespace(c) && c != '@'
  }

  /** `[^\s@]+` matches `s[lo..hi]`. */
  predicate AddressRun(s: string, lo: int, hi: int) {
    0 <= lo < hi <= |s| && forall k :: lo <= k < hi ==> IsAddressChar(s[k])
  }

  /** The anchored pattern matches the whole of `s`, with its `@` at index
      `a` and its `\.` at index `d`. */
  predicate AddressMatchesAt(s: string, a: int, d: int) {
    AddressRun(s, 0, a) && a < |s| && s[a] == '@'
    && AddressRun(s, a + 1, d) && d < |s| && s[d] == '.'
    && AddressRun(s, d + 1, |s|)
  }

  /** `emailRegex.test(s)`: some way of splitting `s` matches the pattern. */
  predicate MatchesEmailPattern(s: string) {
    exists a, d | 0 <= a < d < |s| :: AddressMatchesAt(s, a, d)
  }

  /** The shape the pattern describes, in words: no whitespace, exactly one
      `@`, something before it, and a `.` after it that is neither the
      first nor the last character of the part after the `@`. */
  predicate IsSingleAtAddress(s: string) {
    (forall k :: 0 <= k < |s| ==> !IsWhitespace(s[k]))
    && exists a :: 0 < a < |s| && s[a] == '@'
         && (forall k :: 0 <= k < |s| && s[k] == '@' ==> k == a)
         && (exists d :: a + 2 <= d <= |s| - 2 && s[d] == '.')
  }

  lemma EmailPatternMeansSingleAt(s: string)
    ensures MatchesEmailPattern(s) <==> IsSingleAtAddress(s)
  {
    if MatchesEmailPattern(s) {
      var a, d :| 0 <= a < d < |s| && AddressMatchesAt(s, a, d);
      forall k | 0 <= k < |s|
        ensures !IsWhitespace(s[k]) && (s[k] == '@' ==> k == a)
      {
        if k != a && k != d {
          assert IsAddressChar(s[k]);
        }
      }
      assert a + 2 <= d <= |s| - 2 && s[d] == '.';
    }
    if IsSingleAtAddress(s) {
      var a :| 0 < a < |s| && s[a] == '@'
        && (forall k :: 0 <= k < |s| && s[k] == '@' ==> k == a)
        && (exists d :: a + 2 <= d <= |s| - 2 && s[d] == '.');
      var d :| a + 2 <= d <= |s| - 2 && s[d] == '.';
      assert AddressMatchesAt(s, a, d);
    }
  }

  function CreateEmail(s: string): (r: Option<Email>)
    ensures r.Some? <==> IsSingleAtAddress(s)
    ensures r.Some? ==> r.value.address == s
  {
    EmailPatternMeansSingleAt(s);
    if MatchesEmailPattern(s) then Some(Email(s)) else None
  }

  // ---------------------------------------------------------------------
  // Secure URL: url.startsWith('https://')
  // ---------------------------------------------------------------------

  const HttpsScheme: string := "https://"

  /** The argument is already a `Url`; checking that it parses as one is
      the platform's URL parser, which is not modelled. */
  function CreateSecureUrl(u: Url): (r: Option<SecureUrl>)
    ensures r.Some? <==> |u.href| >= 8 && u.href[..8] == "https://"
    ensures r.Some? ==> r.value.url == u
  {
    if StartsWith(u.href, HttpsScheme) then Some(SecureUrl(u)) else None
  }

  // ---------------------------------------------------------------------
  // Range checks
  // ---------------------------------------------------------------------

  function CreateLatitude(lat: real): (r: Option<Latitude>)
    ensures r.Some? <==> -90.0 <= lat <= 90.0
    ensures r.Some? ==> r.value.degrees == lat
  {
    if lat >= -90.0 && lat <= 90.0 then Some(Latitude(lat)) else None
  }

  function CreateLongitude(lng: real): (r: Option<Longitude>)
    ensures r.Some? <==> -180.0 <= lng <= 180.0
    ensures r.Some? ==> r.value.degrees == lng
  {
    if lng >= -180.0 && lng <= 180.0 then Some(Longitude(lng)) else None
  }

  function CreatePositiveNumber(n: real): (r: Option<PositiveNumber>)
    ensures r.Some? <==> n > 0.0
    ensures r.Some? ==> r.value.value == n
  {
    if n > 0.0 then Some(PositiveNumber(n)) else None
  }

  /** The ranges include their end points and nothing beyond them, and
      zero is not positive. */
  lemma RangeEndpoints()
    ensures CreateLatitude(90.0).Some? && CreateLatitude(-90.0).Some?
    ensures CreateLatitude(90.5).None? && CreateLatitude(-90.5).None?
    ensures CreateLongitude(180.0).Some? && CreateLongitude(-180.0).Some?
    ensures CreateLongitude(180.5).None? && CreateLongitude(-180.5).None?
    ensures CreatePositiveNumber(0.0).None?
  {
  }

  /** The sample coordinates of Bangkok are accepted. */
  lemma BangkokAccepted()
    ensures CreateLatitude(13.7563) == Some(Latitude(13.7563))
    ensures CreateLongitude(100.5018) == Some(Longitude(100.5018))
  {
  }

  // ---------------------------------------------------------------------
  // Hex colour: /^#[0-9A-Fa-f]{6}$/
  // ---------------------------------------------------------------------

  /** The class `[0-9A-Fa-f]`. */
  predicate IsHexDigit(c: char) {
    ('0' <= c <= '9') || ('A' <= c <= 'F') || ('a' <= c <= 'f')
  }

  /** `[0-9A-Fa-f]{|s|}` matches `s`. */
  function IsHexDigits(s: string): (b: bool)
    ensures b <==> forall i :: 0 <= i < |s| ==> IsHexDigit(s[i])
  {
    s == [] || (IsHexDigit(s[0]) && IsHexDigits(s[1..]))
  }

  function CreateHexColor(c: string): (r: Option<HexColor>)
    ensures r.Some? <==> |c| == 7 && c[0] == '#' && forall i :: 1 <= i < 7 ==> IsHexDigit(c[i])
    ensures r.Some? ==> r.value.code == c
  {
    if |c| == 7 && c[..1] == "#" && IsHexDigits(c[1..]) then Some(HexColor(c)) else None
  }

  /** The sample colour is accepted and the sample non-colour is not. */
  lemma HexColorSamples()
    ensures CreateHexColor("#FF5733") == Some(HexColor("#FF5733"))
    ensures CreateHexColor("#invalid") == None
  {
  }

  /** The sample address is accepted. */
  lemma EmailSample()
    ensures CreateEmail("user@example.com") == Some(Email("user@example.com"))
  {
    var s := "user@example.com";
    assert s[4] == '@' && s[12] == '.';
    assert AddressMatchesAt(s, 4, 12);
  }
}
