/**
 * The contact relay of server.js: the `/api/contact` handler, which checks a
 * submitted `{name, email, message}`, builds the outbound e-mail, and turns the
 * e-mail provider's answer into an HTTP response; and `/api/health`.
 *
 * The handler is a chain of early returns, so it is modelled as pure functions.
 * The provider call itself is not modelled: what the provider answers is an input.
 */
module Server {
  import opened Wrappers

  // ---------------------------------------------------------------------------
  // Constants of the handler
  // ---------------------------------------------------------------------------

  const MissingFieldsError := "Name, email, and message are required"
  const InvalidEmailError := "Invalid email address"
  const SentMessage := "Email sent successfully"
  const SendFailedError := "Failed to send email. Please try again later."
  const DefaultFrom := "onboarding@resend.dev"
  const DefaultTo := "ayushsurajpal123@gmail.com"
  const SubjectPrefix := "New Portfolio Contact from "
  const DevelopmentMode := "development"

  // ---------------------------------------------------------------------------
  // Requests, configuration, provider answers and responses
  // ---------------------------------------------------------------------------

  /** The JSON request body; a field that is absent, `null` or `undefined` is `None`. */
  datatype Body = Body(name: Option<string>, email: Option<string>, message: Option<string>)

  /** The environment variables the handler reads (`RESEND_FROM`, `RESEND_TO`, `NODE_ENV`). */
  datatype Env = Env(resendFrom: Option<string>, resendTo: Option<string>, nodeEnv: Option<string>)

  /** A submission whose three fields passed the presence check. */
  datatype Submission = Submission(name: string, email: string, message: string)

  /** The message handed to the provider's `emails.send`. */
  datatype Email = Email(from: string, to: string, subject: string, replyTo: string, html: string, text: string)

  /** The `error` object of a provider answer. */
  datatype ProviderError = ProviderError(statusCode: Option<int>, message: Option<string>)

  /** What the awaited provider call did: it returned `{error, id}`, or it threw. */
  datatype ProviderResult =
    | Returned(error: Option<ProviderError>, id: Option<string>)
    | Threw(message: Option<string>)

  /**
   * An HTTP response of the contact route: its status and the JSON body's keys.
   * Keys whose value is `undefined` are dropped by JSON serialisation, so they are `None`.
   */
  datatype Response = Response(
    status: int,
    success: bool,
    message: Option<string>,
    error: Option<string>,
    id: Option<string>,
    details: Option<string>)

  /** The health route's response: HTTP status and the JSON body's `status` and `message`. */
  datatype HealthReply = HealthReply(code: int, status: string, message: string)

  /** One request handled: the e-mail given to the provider, if any, and the response sent. */
  datatype Exchange = Exchange(sent: Option<Email>, response: Response)

  // ---------------------------------------------------------------------------
  // JavaScript truthiness of strings and status codes
  // ---------------------------------------------------------------------------

  /** A string-valued field is truthy when it is present and not empty. */
  predicate Truthy(v: Option<string>) {
    v.Some? && v.value != ""
  }

  /** `v || fallback` for an optional string. */
  function OrElse(v: Option<string>, fallback: string): (r: string)
    ensures Truthy(v) ==> r == v.value
    ensures !Truthy(v) ==> r == fallback
  {
    if Truthy(v) then v.value else fallback
  }

  /** `code || 500`: an absent status code or 0 falls back to 500. */
  function StatusOr500(code: Option<int>): (r: int)
    ensures code.Some? && code.value != 0 ==> r == code.value
    ensures code.None? || code.value == 0 ==> r == 500
  {
    if code.Some? && code.value != 0 then code.value else 500
  }

  // ---------------------------------------------------------------------------
  // The e-mail pattern ^\S+@\S+\.\S+$
  // ---------------------------------------------------------------------------

  /** The code points ECMAScript's `\s` matches (WhiteSpace and LineTerminator). */
  predicate IsJsSpace(c: char) {
    var n := c as int;
    n == 0x09 || n == 0x0A || n == 0x0B || n == 0x0C || n == 0x0D || n == 0x20 || n == 0xA0
    || n == 0x1680 || (0x2000 <= n <= 0x200A) || n == 0x2028 || n == 0x2029 || n == 0x202F
    || n == 0x205F || n == 0x3000 || n == 0xFEFF
  }

  /** Every character of `s` matches `\S`. */
  predicate NoSpace(s: string) {
    forall k :: 0 <= k < |s| ==> !IsJsSpace(s[k])
  }

  /**
   * The language of `^\S+@\S+\.\S+$`: `s` splits as a + "@" + b + "." + c where a, b
   * and c are non-empty runs of non-space characters (`\S` also matches '@' and '.').
   */
  ghost predicate MatchesServerPattern(s: string) {
    exists i, j ::
      0 < i && i + 1 < j && j + 1 < |s| && s[i] == '@' && s[j] == '.'
      && NoSpace(s[..i]) && NoSpace(s[i + 1..j]) && NoSpace(s[j + 1..])
  }

  /** The first index at or after `from` holding `c`; at least `|s|` when there is none. */
  function IndexOf(s: string, c: char, from: nat): (k: nat)
    ensures from <= k
    ensures k < |s| ==> s[k] == c
    ensures k <= |s| || k == from
    ensures forall m :: from <= m < k && m < |s| ==> s[m] != c
    decreases |s| - from
  {
    if from >= |s| then from
    else if s[from] == c then from
    else IndexOf(s, c, from + 1)
  }

  /**
   * `emailRegex.test(email)`: no whitespace, an '@' after at least one character, then
   * a '.' with at least one character between it and that '@' and at least one after it.
   * Taking the first such '@' and then the first such '.' loses no match.
   */
  predicate EmailRegexTest(s: string) {
    NoSpace(s) &&
    var i := IndexOf(s, '@', 1);
    i < |s| && IndexOf(s, '.', i + 2) + 1 < |s|
  }

  lemma NoSpaceSlice(s: string, a: nat, b: nat)
    requires NoSpace(s) && a <= b <= |s|
    ensures NoSpace(s[a..b])
  {
    forall k | 0 <= k < b - a ensures !IsJsSpace(s[a..b][k]) {
      assert s[a..b][k] == s[a + k];
    }
  }

  /** The three pieces of a match, together with the '@' and the '.', cover the whole string. */
  lemma NoSpaceJoin(s: string, i: nat, j: nat)
    requires 0 < i && i + 1 < j && j + 1 < |s| && s[i] == '@' && s[j] == '.'
    requires NoSpace(s[..i]) && NoSpace(s[i + 1..j]) && NoSpace(s[j + 1..])
    ensures NoSpace(s)
  {
    forall k | 0 <= k < |s| ensures !IsJsSpace(s[k]) {
      if k < i {
        assert s[..i][k] == s[k];
      } else if i < k < j {
        assert s[i + 1..j][k - i - 1] == s[k];
      } else if j < k {
        assert s[j + 1..][k - j - 1] == s[k];
      }
    }
  }

  /** The scanner accepts exactly the strings the regular expression matches. */
  lemma {:induction false} EmailRegexTestMatchesPattern(s: string)
    ensures EmailRegexTest(s) <==> MatchesServerPattern(s)
  {
    if EmailRegexTest(s) {
      var i := IndexOf(s, '@', 1);
      var j := IndexOf(s, '.', i + 2);
      NoSpaceSlice(s, 0, i);
      NoSpaceSlice(s, i + 1, j);
      NoSpaceSlice(s, j + 1, |s|);
      assert s[0..i] == s[..i];
      assert s[j + 1..|s|] == s[j + 1..];
      assert MatchesServerPattern(s);
    }
    if MatchesServerPattern(s) {
      var i', j' :| 0 < i' && i' + 1 < j' && j' + 1 < |s| && s[i'] == '@' && s[j'] == '.'
        && NoSpace(s[..i']) && NoSpace(s[i' + 1..j']) && NoSpace(s[j' + 1..]);
      NoSpaceJoin(s, i', j');
      var i := IndexOf(s, '@', 1);
      assert i <= i';
      var j := IndexOf(s, '.', i + 2);
      assert j <= j';
    }
  }

  /** An e-mail the pattern accepts has no whitespace and contains both '@' and '.'. */
  lemma ServerPatternNeedsAtAndDot(s: string)
    requires MatchesServerPattern(s)
    ensures NoSpace(s) && '@' in s && '.' in s
  {
    var i, j :| 0 < i && i + 1 < j && j + 1 < |s| && s[i] == '@' && s[j] == '.'
      && NoSpace(s[..i]) && NoSpace(s[i + 1..j]) && NoSpace(s[j + 1..]);
    NoSpaceJoin(s, i, j);
  }

  // ---------------------------------------------------------------------------
  // The handler
  // ---------------------------------------------------------------------------

  /** The three fields are all truthy (the negation of `!name || !email || !message`). */
  predicate AllPresent(b: Body) {
    Truthy(b.name) && Truthy(b.email) && Truthy(b.message)
  }

  /** A `400` refusal with the given error text. */
  function BadRequest(error: string): (r: Response)
    ensures r.status == 400 && !r.success && r.error == Some(error)
    ensures r.message.None? && r.id.None? && r.details.None?
  {
    Response(400, false, None, Some(error), None, None)
  }

  /**
   * The two checks in order: the presence check first, then the e-mail pattern.
   * A refusal carries the response to send.
   */
  function Validate(b: Body): (r: Result<Submission, Response>)
    ensures !AllPresent(b) ==> r == Failure(BadRequest(MissingFieldsError))
    ensures AllPresent(b) && !MatchesServerPattern(b.email.value) ==> r == Failure(BadRequest(InvalidEmailError))
    ensures r.Success? <==> AllPresent(b) && MatchesServerPattern(b.email.value)
    ensures r.Success? ==> r.value == Submission(b.name.value, b.email.value, b.message.value)
  {
    if !AllPresent(b) then Failure(BadRequest(MissingFieldsError))
    else
      EmailRegexTestMatchesPattern(b.email.value);
      if !EmailRegexTest(b.email.value) then Failure(BadRequest(InvalidEmailError))
      else Success(Submission(b.name.value, b.email.value, b.message.value))
  }

  /** The pieces of a template, one after another. */
  function Joined(parts: seq<string>): string {
    if parts == [] then "" else parts[0] + Joined(parts[1..])
  }

  /**
   * `s` reads as `parts` in order: it starts with the first part, and what follows it
   * reads as the rest.
   */
  predicate ReadsAs(s: string, parts: seq<string>)
    decreases |parts|
  {
    if parts == [] then s == ""
    else |parts[0]| <= |s| && s[..|parts[0]|] == parts[0] && ReadsAs(s[|parts[0]|..], parts[1..])
  }

  /** The joined pieces read as the pieces, each verbatim at its place. */
  lemma {:induction false} JoinedReadsAs(parts: seq<string>)
    ensures ReadsAs(Joined(parts), parts)
    decreases |parts|
  {
    if parts != [] {
      JoinedReadsAs(parts[1..]);
    }
  }

  /** Reading as the pieces pins the whole string: it is their concatenation. */
  lemma {:induction false} ReadsAsIsJoined(s: string, parts: seq<string>)
    requires ReadsAs(s, parts)
    ensures s == Joined(parts)
    decreases |parts|
  {
    if parts != [] {
      ReadsAsIsJoined(s[|parts[0]|..], parts[1..]);
      assert s == s[..|parts[0]|] + s[|parts[0]|..];
    }
  }

  const TextHead := "New Contact Form Submission\n\nName: "
  const TextEmail := "\nEmail: "
  const TextMessage := "\n\nMessage:\n"

  /**
   * The plain-text body: the fixed heading, the name, the e-mail label, the e-mail,
   * the message label and the message, each verbatim and in that order.
   */
  function TextBody(s: Submission): (t: string)
    ensures ReadsAs(t, [TextHead, s.name, TextEmail, s.email, TextMessage, s.message])
  {
    var parts := [TextHead, s.name, TextEmail, s.email, TextMessage, s.message];
    JoinedReadsAs(parts);
    Joined(parts)
  }

  const HtmlBeforeName :=
    "\n        <div style=\"font-family: Arial, sans-serif; max-width: 600px; margin: 0 auto;\">"
    + "\n          <h2 style=\"color: #7c3aed; border-bottom: 2px solid #7c3aed; padding-bottom: 10px;\">"
    + "\n            New Contact Form Submission"
    + "\n          </h2>"
    + "\n          <div style=\"margin: 20px 0;\">"
    + "\n            <p><strong>Name:</strong> "
  const HtmlBeforeEmail :=
    "</p>"
    + "\n            <p><strong>Email:</strong> "
  const HtmlBeforeMessage :=
    "</p>"
    + "\n          </div>"
    + "\n          <div style=\"background-color: #f3f4f6; padding: 20px; border-radius: 8px; margin-top: 20px;\">"
    + "\n            <h3 style=\"margin-top: 0; color: #374151;\">Message:</h3>"
    + "\n            <p style=\"white-space: pre-wrap; color: #1f2937;\">"
  const HtmlAfterMessage :=
    "</p>"
    + "\n          </div>"
    + "\n          <div style=\"margin-top: 30px; padding-top: 20px; border-top: 1px solid #e5e7eb; color: #6b7280; font-size: 12px;\">"
    + "\n            <p>This email was sent from your portfolio contact form.</p>"
    + "\n          </div>"
    + "\n        </div>"
    + "\n      "

  /**
   * The HTML body: the fixed markup with the name, the e-mail and the message spliced
   * in at their places, verbatim and unescaped.
   */
  function HtmlBody(s: Submission): (h: string)
    ensures ReadsAs(h, [HtmlBeforeName, s.name, HtmlBeforeEmail, s.email, HtmlBeforeMessage, s.message, HtmlAfterMessage])
  {
    var parts := [HtmlBeforeName, s.name, HtmlBeforeEmail, s.email, HtmlBeforeMessage, s.message, HtmlAfterMessage];
    JoinedReadsAs(parts);
    Joined(parts)
  }

  /** The subject line names the submitter. */
  function Subject(name: string): (subject: string)
    ensures |subject| == |SubjectPrefix| + |name|
    ensures subject[..|SubjectPrefix|] == SubjectPrefix && subject[|SubjectPrefix|..] == name
  {
    SubjectPrefix + name
  }

  /** Reads the submitter's name back from a subject line. */
  function NameInSubject(subject: string): Option<string> {
    if |subject| >= |SubjectPrefix| && subject[..|SubjectPrefix|] == SubjectPrefix
    then Some(subject[|SubjectPrefix|..])
    else None
  }

  /** The subject line loses nothing: the name can be read back from it. */
  lemma SubjectRoundTrip(name: string)
    ensures NameInSubject(Subject(name)) == Some(name)
  {
  }

  /** The e-mail given to the provider for an accepted submission. */
  function Compose(s: Submission, env: Env): (e: Email)
    ensures e.from == OrElse(env.resendFrom, DefaultFrom)
    ensures e.to == OrElse(env.resendTo, DefaultTo)
    ensures NameInSubject(e.subject) == Some(s.name)
    ensures e.replyTo == s.email
    ensures e.html == HtmlBody(s) && e.text == TextBody(s)
  {
    SubjectRoundTrip(s.name);
    Email(OrElse(env.resendFrom, DefaultFrom), OrElse(env.resendTo, DefaultTo),
          Subject(s.name), s.email, HtmlBody(s), TextBody(s))
  }

  /** The response built from what the provider did. */
  function Relay(result: ProviderResult, env: Env): (r: Response)
    ensures r.success <==> result.Returned? && result.error.None?
    ensures r.success ==> r.status == 200 && r.message == Some(SentMessage) && r.id == result.id
    ensures r.success ==> r.error.None? && r.details.None?
    ensures result.Returned? && result.error.Some? ==>
      r.status == StatusOr500(result.error.value.statusCode) && r.error == result.error.value.message
    ensures result.Threw? ==> r.status == 500 && r.error == Some(SendFailedError)
    ensures r.details.Some? <==> result.Threw? && result.message.Some? && env.nodeEnv == Some(DevelopmentMode)
    ensures r.details.Some? ==> r.details == result.message
    ensures !r.success ==> r.message.None? && r.id.None?
  {
    match result
    case Returned(Some(err), _) =>
      Response(StatusOr500(err.statusCode), false, None, err.message, None, None)
    case Returned(None, id) =>
      Response(200, true, Some(SentMessage), None, id, None)
    case Threw(m) =>
      Response(500, false, None, Some(SendFailedError),
               None, if env.nodeEnv == Some(DevelopmentMode) then m else None)
  }

  /**
   * `POST /api/contact`. `provider` is what the provider call does when it is made;
   * `sent` records whether it was made and with which e-mail.
   */
  function HandleContact(b: Body, env: Env, provider: ProviderResult): (x: Exchange)
    ensures x.sent.Some? <==> AllPresent(b) && MatchesServerPattern(b.email.value)
    ensures !AllPresent(b) ==> x.response == BadRequest(MissingFieldsError)
    ensures AllPresent(b) && !MatchesServerPattern(b.email.value) ==> x.response == BadRequest(InvalidEmailError)
    ensures x.sent.Some? ==>
      x.sent.value == Compose(Submission(b.name.value, b.email.value, b.message.value), env)
      && x.response == Relay(provider, env)
  {
    match Validate(b)
    case Failure(refusal) => Exchange(None, refusal)
    case Success(s) => Exchange(Some(Compose(s, env)), Relay(provider, env))
  }

  /** `GET /api/health`: answers `200` with status "ok"; it reads no configuration. */
  function Health(): (r: HealthReply)
    ensures r.code == 200 && r.status == "ok" && r.message == "Server is running"
  {
    HealthReply(200, "ok", "Server is running")
  }
}
