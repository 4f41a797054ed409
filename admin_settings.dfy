/**
 * The settings form of the admin page (public/js/admin.js): the WhatsApp
 * number is saved with Indonesia's country code in front and shown without
 * it; the Telegram username is saved trimmed.
 */
module AdminSettings {
  import opened Wrappers
  import opened Text
  import opened Records
  import opened Jwt
  import AccessGate

  /** The calling code the saved number must start with. */
  const CountryCode := "62"

  /** The number the submit handler sends: trimmed, with "62" put in front unless already there. */
  function NormaliseWhatsApp(input: string): (r: string)
    ensures IsTrimmed(r)
  {
    var number := Trim(input);
    if number != [] && !StartsWith(number, CountryCode) then CountryCode + number else number
  }

  /** What `loadSettings` puts in the form: a missing or empty number as "", otherwise without one leading "62". */
  function DisplayWhatsApp(stored: Option<string>): (r: string)
    ensures stored.None? ==> r == []
    ensures stored.Some? && StartsWith(stored.value, CountryCode) ==> CountryCode + r == stored.value
    ensures stored.Some? && !StartsWith(stored.value, CountryCode) ==> r == stored.value
  {
    match stored
    case None => []
    case Some(s) => if s == [] then [] else if StartsWith(s, CountryCode) then s[|CountryCode|..] else s
  }

  /**
   * The Telegram username the submit handler sends: the input with the white
   * space at both ends taken off and nothing else changed.
   */
  function SaveTelegram(input: string): (r: string)
    ensures IsTrimmed(r)
    ensures var k := LeadingSpace(input);
      && k + |r| <= |input| && r == input[k..k + |r|]
      && AllWhiteSpace(input[..k]) && AllWhiteSpace(input[k + |r|..])
    ensures r == [] <==> AllWhiteSpace(input)
  {
    TrimEmptyIffBlank(input);
    TrimIsInfix(input);
    Trim(input)
  }

  /** What `loadSettings` puts in the Telegram field: the stored name, or "" when it is missing. */
  function DisplayTelegram(stored: Option<string>): (r: string)
    ensures stored.Some? ==> r == stored.value
    ensures stored.None? ==> r == []
  {
    stored.GetOr([])
  }

  /** The body the settings form posts. */
  function SubmittedSettings(whatsappInput: string, telegramInput: string): (s: Settings)
    ensures s.whatsappNumber == NormaliseWhatsApp(whatsappInput)
    ensures s.telegramUsername == SaveTelegram(telegramInput)
  {
    Settings(NormaliseWhatsApp(whatsappInput), SaveTelegram(telegramInput))
  }

  /** A number that is not blank and does not start with the code is saved as "62" followed by the trimmed number. */
  lemma NormalisePrefixes(input: string)
    ensures Trim(input) != [] && !StartsWith(Trim(input), CountryCode) ==> NormaliseWhatsApp(input) == CountryCode + Trim(input)
  {
  }

  /** A number that already starts with "62" is saved as typed (up to trimming), and a blank one stays empty. */
  lemma NormaliseKeepsPrefixed(input: string)
    ensures StartsWith(Trim(input), CountryCode) ==> NormaliseWhatsApp(input) == Trim(input)
    ensures AllWhiteSpace(input) ==> NormaliseWhatsApp(input) == []
  {
    TrimEmptyIffBlank(input);
  }

  /** Every non-empty saved number starts with "62". */
  lemma SavedNumberHasCountryCode(input: string)
    ensures NormaliseWhatsApp(input) != [] ==> StartsWith(NormaliseWhatsApp(input), CountryCode)
  {
  }

  /** Saving a number that was already saved leaves it as it is. */
  lemma NormaliseIdempotent(input: string)
    ensures NormaliseWhatsApp(NormaliseWhatsApp(input)) == NormaliseWhatsApp(input)
  {
    var saved := NormaliseWhatsApp(input);
    TrimOfTrimmed(saved);
    if saved != [] {
      SavedNumberHasCountryCode(input);
    }
  }

  /** Loading what was saved shows what the admin typed, when it had no code of its own. */
  lemma DisplayAfterSave(input: string)
    requires !StartsWith(Trim(input), CountryCode)
    ensures DisplayWhatsApp(Some(NormaliseWhatsApp(input))) == Trim(input)
  {
    var number := Trim(input);
    if number != [] {
      assert (CountryCode + number)[|CountryCode|..] == number;
    }
  }

  /** A number typed with its own leading "62" comes back without it. */
  lemma DisplayAfterSavePrefixed(input: string)
    requires StartsWith(Trim(input), CountryCode)
    ensures DisplayWhatsApp(Some(NormaliseWhatsApp(input))) == Trim(input)[|CountryCode|..]
  {
  }

  /** Showing a stored number and saving the form again gives back the stored number when it carries the code. */
  lemma SaveAfterDisplay(stored: string)
    requires StartsWith(stored, CountryCode) && |stored| > |CountryCode|
    requires IsTrimmed(stored[|CountryCode|..]) && !StartsWith(stored[|CountryCode|..], CountryCode)
    ensures NormaliseWhatsApp(DisplayWhatsApp(Some(stored))) == stored
  {
    var shown := stored[|CountryCode|..];
    assert DisplayWhatsApp(Some(stored)) == shown;
    TrimOfTrimmed(shown);
    NormalisePrefixes(shown);
    assert stored == stored[..|CountryCode|] + shown;
  }

  /**
   * The round trip is lossy for a stored number whose rest starts with "62"
   * again: the form shows the rest, and saving it keeps the rest as it is, so
   * one "62" is lost (for example "62627" comes back as "627").
   */
  lemma SaveAfterDisplayLosesCode(stored: string)
    requires StartsWith(stored, CountryCode)
    requires IsTrimmed(stored[|CountryCode|..]) && StartsWith(stored[|CountryCode|..], CountryCode)
    ensures NormaliseWhatsApp(DisplayWhatsApp(Some(stored))) == stored[|CountryCode|..]
    ensures NormaliseWhatsApp(DisplayWhatsApp(Some(stored))) != stored
  {
    var shown := stored[|CountryCode|..];
    assert DisplayWhatsApp(Some(stored)) == shown;
    TrimOfTrimmed(shown);
  }

  /** The example: "62627" is shown as "627" and saved again as "627". */
  lemma SaveAfterDisplayExample()
    ensures NormaliseWhatsApp(DisplayWhatsApp(Some("62627"))) == "627"
  {
    SaveAfterDisplayLosesCode("62627");
  }

  /** The headers of a `fetch` request, by name. */
  type Headers = map<string, string>

  /** The `Authorization` header of a request, as the gate reads it. */
  function AuthorizationOf(headers: Headers): Option<string> {
    if "Authorization" in headers then Some(headers["Authorization"]) else None
  }

  /** The headers the settings form's POST is sent with as the page is written: the content type alone. */
  function SaveHeadersAsWritten(storedToken: string): (h: Headers)
    ensures AuthorizationOf(h) == None
    ensures "Content-Type" in h && h["Content-Type"] == "application/json"
  {
    map["Content-Type" := "application/json"]
  }

  /** As written, every save from the admin page is refused by the gate with 401, whatever token the admin holds. */
  lemma SaveAsWrittenUnauthorized(verify: Verifier, secret: string, storedToken: string, now: int)
    ensures AccessGate.Gate(verify, secret, AuthorizationOf(SaveHeadersAsWritten(storedToken)), now) == AccessGate.Unauthorized
  {
  }

  /** `authHeaders`: the content type and the stored token as a bearer credential. */
  function AuthHeaders(storedToken: string): (h: Headers)
    ensures AuthorizationOf(h) == Some("Bearer " + storedToken)
    ensures "Content-Type" in h && h["Content-Type"] == "application/json"
  {
    map["Content-Type" := "application/json", "Authorization" := "Bearer " + storedToken]
  }

  /** Sending `authHeaders`, a save made within eight hours of login passes the gate as the admin who logged in. */
  lemma SaveWithTokenAccepted(sign: Signer, verify: Verifier, secret: string, adminId: string, loginAt: int, now: int)
    requires Faithful(sign, verify) && Compact(sign)
    requires loginAt <= now < loginAt + Lifetime
    ensures AccessGate.Gate(verify, secret, AuthorizationOf(AuthHeaders(sign(secret, IssueClaims(adminId, loginAt)))), now)
      == AccessGate.Allow(IssueClaims(adminId, loginAt))
  {
    AccessGate.IssuedTokenLifetime(sign, verify, secret, adminId, loginAt, now);
  }
}
