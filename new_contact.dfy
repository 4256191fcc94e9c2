/**
 * The contact section of src/pages/NewContact.jsx: the video card's play/pause and
 * mute controls, the form's field rules, and what happens when a submission settles.
 *
 * The play and mute flags are component state flipped by event handlers, and the
 * video element's `muted` property is assigned in place, so the card is a class.
 * The field rules are predicates over the form's values.
 */
module NewContact {
  import opened Wrappers
  import Server

  // ---------------------------------------------------------------------------
  // The video card
  // ---------------------------------------------------------------------------

  /** A call the component makes on the video element. */
  datatype VideoCommand = PlayCall | PauseCall

  /** The icon drawn on the mute button. */
  datatype MuteIcon = VolumeX | Volume2

  /** The `<video>` element: its `muted` property and the play/pause calls it has received. */
  class Video {
    var muted: bool
    var commands: seq<VideoCommand>

    /** The element is rendered with the `muted` attribute. */
    constructor ()
      ensures muted && commands == []
    {
      muted := true;
      commands := [];
    }

    method Play()
      modifies this
      ensures commands == old(commands) + [PlayCall] && muted == old(muted)
    {
      commands := commands + [PlayCall];
    }

    method Pause()
      modifies this
      ensures commands == old(commands) + [PauseCall] && muted == old(muted)
    {
      commands := commands + [PauseCall];
    }
  }

  /** The component's `isPlaying` and `isMuted` state and the video it controls. */
  class VideoCard {
    var isPlaying: bool
    var isMuted: bool
    const video: Video

    /**
     * The mute flag and the element's `muted` property agree, and the playing flag is
     * set exactly when the last call the element received was `play()`.
     */
    ghost predicate Valid()
      reads this, video
    {
      && video.muted == isMuted
      && (isPlaying <==> |video.commands| > 0 && video.commands[|video.commands| - 1] == PlayCall)
    }

    /** `useState(false)` and `useState(true)`, with a freshly rendered muted video. */
    constructor ()
      ensures Valid() && fresh(video)
      ensures !isPlaying && isMuted && video.commands == []
    {
      isPlaying := false;
      isMuted := true;
      video := new Video();
    }

    /** A click on the video: pause if it was playing, play otherwise, and flip `isPlaying`. */
    method HandleVideoClick()
      requires Valid()
      modifies this, video
      ensures Valid()
      ensures isPlaying == !old(isPlaying) && isMuted == old(isMuted)
      ensures video.commands == old(video.commands) + [if old(isPlaying) then PauseCall else PlayCall]
    {
      if isPlaying {
        video.Pause();
      } else {
        video.Play();
      }
      isPlaying := !isPlaying;
    }

    /**
     * A click on the mute button. The handler stops propagation, so the click on the
     * surrounding video area does not fire: playback state and play/pause calls are untouched.
     */
    method ToggleMute()
      requires Valid()
      modifies this, video
      ensures Valid()
      ensures video.muted == !old(isMuted) && isMuted == !old(isMuted)
      ensures isPlaying == old(isPlaying) && video.commands == old(video.commands)
    {
      video.muted := !isMuted;
      isMuted := !isMuted;
    }

    /**
     * The play overlay is drawn while the video is not playing: before any call, or
     * when the element's last call was `pause()`.
     */
    function ShowsPlayOverlay(): (shown: bool)
      reads this, video
      requires Valid()
      ensures shown <==> video.commands == [] || video.commands[|video.commands| - 1] == PauseCall
    {
      !isPlaying
    }

    /** The mute button's icon shows whether the video element itself is muted. */
    function Icon(): (icon: MuteIcon)
      reads this, video
      requires Valid()
      ensures icon == VolumeX <==> video.muted
    {
      if isMuted then VolumeX else Volume2
    }
  }

  /** Two clicks on the video restore the playing flag and issue one play and one pause. */
  method ClickVideoTwice(card: VideoCard)
    requires card.Valid()
    modifies card, card.video
    ensures card.Valid() && card.isPlaying == old(card.isPlaying)
    ensures card.video.commands == old(card.video.commands)
      + (if old(card.isPlaying) then [PauseCall, PlayCall] else [PlayCall, PauseCall])
  {
    card.HandleVideoClick();
    card.HandleVideoClick();
  }

  // ---------------------------------------------------------------------------
  // The form's field rules
  // ---------------------------------------------------------------------------

  /** The values of the form's three inputs; an untouched input holds "". */
  datatype FormValues = FormValues(name: string, email: string, message: string)

  /** The error message shown under each input, if any. */
  datatype FieldErrors = FieldErrors(name: Option<string>, email: Option<string>, message: Option<string>)

  const EmptyForm := FormValues("", "", "")
  const NameRequired := "Name is required"
  const EmailRequired := "Email is required"
  const EmailInvalid := "Invalid email"
  const MessageRequired := "Message is required"

  /**
   * The language of `^\S+@\S+$` (the `i` flag changes nothing here): `s` splits as
   * a + "@" + b with a and b non-empty runs of non-space characters.
   */
  ghost predicate MatchesClientPattern(s: string) {
    exists i :: 0 < i && i + 1 < |s| && s[i] == '@' && Server.NoSpace(s[..i]) && Server.NoSpace(s[i + 1..])
  }

  /** The pattern's test: no whitespace and an '@' with at least one character on each side. */
  predicate ClientPatternTest(s: string) {
    Server.NoSpace(s) && Server.IndexOf(s, '@', 1) + 1 < |s|
  }

  /** The test accepts exactly the strings the client pattern matches. */
  lemma {:induction false} ClientPatternTestMatchesPattern(s: string)
    ensures ClientPatternTest(s) <==> MatchesClientPattern(s)
  {
    if ClientPatternTest(s) {
      var i := Server.IndexOf(s, '@', 1);
      Server.NoSpaceSlice(s, 0, i);
      Server.NoSpaceSlice(s, i + 1, |s|);
      assert s[0..i] == s[..i];
      assert s[i + 1..|s|] == s[i + 1..];
    }
    if MatchesClientPattern(s) {
      var i' :| 0 < i' && i' + 1 < |s| && s[i'] == '@' && Server.NoSpace(s[..i']) && Server.NoSpace(s[i' + 1..]);
      forall k | 0 <= k < |s| ensures !Server.IsJsSpace(s[k]) {
        if k < i' {
          assert s[..i'][k] == s[k];
        } else if i' < k {
          assert s[i' + 1..][k - i' - 1] == s[k];
        }
      }
      assert Server.IndexOf(s, '@', 1) <= i';
    }
  }

  /**
   * The `register` rules: each field is required (an empty value fails); a non-empty
   * e-mail must also match the client pattern. The required rule is reported first.
   */
  function ValidateForm(v: FormValues): (e: FieldErrors)
    ensures e.name == (if v.name == "" then Some(NameRequired) else None)
    ensures e.message == (if v.message == "" then Some(MessageRequired) else None)
    ensures v.email == "" ==> e.email == Some(EmailRequired)
    ensures v.email != "" ==> (e.email.None? <==> MatchesClientPattern(v.email))
    ensures v.email != "" && e.email.Some? ==> e.email == Some(EmailInvalid)
  {
    ClientPatternTestMatchesPattern(v.email);
    FieldErrors(
      if v.name == "" then Some(NameRequired) else None,
      if v.email == "" then Some(EmailRequired)
      else if !ClientPatternTest(v.email) then Some(EmailInvalid)
      else None,
      if v.message == "" then Some(MessageRequired) else None)
  }

  predicate NoErrors(e: FieldErrors) {
    e.name.None? && e.email.None? && e.message.None?
  }

  /** The form submits exactly when every field is filled in and the e-mail matches the client pattern. */
  lemma FormValidIff(v: FormValues)
    ensures NoErrors(ValidateForm(v)) <==>
      v.name != "" && v.message != "" && v.email != "" && MatchesClientPattern(v.email)
  {
  }

  // ---------------------------------------------------------------------------
  // Client pattern against server pattern
  // ---------------------------------------------------------------------------

  /** Every address the server's pattern accepts, the client's pattern accepts too. */
  lemma {:induction false} ServerPatternImpliesClientPattern(s: string)
    requires Server.MatchesServerPattern(s)
    ensures MatchesClientPattern(s)
  {
    var i, j :| 0 < i && i + 1 < j && j + 1 < |s| && s[i] == '@' && s[j] == '.'
      && Server.NoSpace(s[..i]) && Server.NoSpace(s[i + 1..j]) && Server.NoSpace(s[j + 1..]);
    Server.NoSpaceJoin(s, i, j);
    Server.NoSpaceSlice(s, i + 1, |s|);
    assert s[i + 1..|s|] == s[i + 1..];
  }

  /**
   * The converse fails: "a@b" passes the client pattern and fails the server's, so
   * the server, were the form posted to it, could refuse an e-mail the form accepted.
   */
  lemma ClientPatternIsWeaker()
    ensures MatchesClientPattern("a@b") && !Server.MatchesServerPattern("a@b")
  {
    var s := "a@b";
    assert s[..1] == "a" && s[2..] == "b";
    assert Server.NoSpace(s[..1]) && Server.NoSpace(s[2..]);
  }

  /**
   * The form itself sends through the mail widget, not through `/api/contact`. Were a
   * form the client accepts posted there as the request body, it would never get the
   * missing-field answer: the server would either refuse the e-mail or relay the message.
   */
  lemma ClientValidFormPassesPresence(v: FormValues, env: Server.Env, provider: Server.ProviderResult)
    requires NoErrors(ValidateForm(v))
    ensures var x := Server.HandleContact(Server.Body(Some(v.name), Some(v.email), Some(v.message)), env, provider);
      x.sent.Some? || x.response.error == Some(Server.InvalidEmailError)
  {
  }

  // ---------------------------------------------------------------------------
  // Submission
  // ---------------------------------------------------------------------------

  const SuccessAlert := "Message sent successfully!"
  const FailureAlert := "Something went wrong!"
  const SendingLabel := "Sending..."
  const IdleLabel := "Send Message"

  /**
   * The form's current values, the alerts shown so far, the forms handed to the mail
   * widget, and how many of those sends have not settled yet.
   */
  class ContactForm {
    var values: FormValues
    var alerts: seq<string>
    var dispatched: seq<FormValues>
    var pending: nat

    /** Every send still in flight is one of the forms handed to the widget. */
    ghost predicate Valid()
      reads this
    {
      pending <= |dispatched|
    }

    constructor ()
      ensures Valid()
      ensures values == EmptyForm && alerts == [] && dispatched == [] && pending == 0
    {
      values := EmptyForm;
      alerts := [];
      dispatched := [];
      pending := 0;
    }

    /** The user edits the inputs: `register` records their new values. */
    method Input(v: FormValues)
      requires Valid()
      modifies this
      ensures Valid()
      ensures values == v
      ensures alerts == old(alerts) && dispatched == old(dispatched) && pending == old(pending)
    {
      values := v;
    }

    /**
     * `handleSubmit(sendEmail)`: the rules run first; only a form without errors is
     * handed to the widget. Nothing else changes until the send settles.
     */
    method Submit() returns (errors: FieldErrors)
      requires Valid()
      modifies this
      ensures Valid()
      ensures errors == ValidateForm(old(values))
      ensures dispatched == old(dispatched) + (if NoErrors(errors) then [old(values)] else [])
      ensures pending == old(pending) + (if NoErrors(errors) then 1 else 0)
      ensures values == old(values) && alerts == old(alerts)
    {
      errors := ValidateForm(values);
      if NoErrors(errors) {
        dispatched := dispatched + [values];
        pending := pending + 1;
      }
    }

    /**
     * A pending send settles: success alerts and resets the form; failure only alerts.
     * Only a send that `Submit` started can settle.
     */
    method Settle(delivered: bool)
      requires Valid() && pending > 0
      modifies this
      ensures Valid()
      ensures delivered ==> alerts == old(alerts) + [SuccessAlert] && values == EmptyForm
      ensures !delivered ==> alerts == old(alerts) + [FailureAlert] && values == old(values)
      ensures dispatched == old(dispatched) && pending == old(pending) - 1
    {
      pending := pending - 1;
      if delivered {
        alerts := alerts + [SuccessAlert];
        values := EmptyForm;
      } else {
        alerts := alerts + [FailureAlert];
      }
    }
  }

  /**
   * A user fills in a form the rules accept, submits it and the send succeeds: the
   * widget received exactly those values, the success alert is shown and the inputs
   * are empty again.
   */
  method FillSubmitAndDeliver(form: ContactForm, v: FormValues)
    requires form.Valid() && NoErrors(ValidateForm(v))
    modifies form
    ensures form.Valid()
    ensures form.dispatched == old(form.dispatched) + [v] && form.pending == old(form.pending)
    ensures form.alerts == old(form.alerts) + [SuccessAlert] && form.values == EmptyForm
  {
    form.Input(v);
    var errors := form.Submit();
    form.Settle(true);
  }

  /** The submit button's `disabled` flag and its caption. */
  datatype SubmitButton = SubmitButton(disabled: bool, caption: string)

  /** The button is disabled exactly while submitting, and says so. */
  function ButtonFor(isSubmitting: bool): (b: SubmitButton)
    ensures b.disabled == isSubmitting
    ensures b.disabled <==> b.caption == SendingLabel
  {
    if isSubmitting then SubmitButton(true, SendingLabel) else SubmitButton(false, IdleLabel)
  }
}
