/**
  The new-song form: the duration pattern, the validation that runs before any
  request, the payload that is posted, and the `submitting` state of the screen.
*/
module NewSong {
  import opened Wrappers
  import opened JsText
  import opened Dialog

  /** `\d` in a JavaScript regular expression without the `u` flag: an ASCII digit. */
  predicate IsDigit(c: char) {
    '0' <= c <= '9'
  }

  /** `DURATION_REGEX.test(s)` for `/^(\d{1,2}):(\d{2})$/`, character by character. */
  predicate MatchesDuration(s: string) {
    || (|s| == 4 && IsDigit(s[0]) && s[1] == ':' && IsDigit(s[2]) && IsDigit(s[3]))
    || (|s| == 5 && IsDigit(s[0]) && IsDigit(s[1]) && s[2] == ':' && IsDigit(s[3]) && IsDigit(s[4]))
  }

  /** The pattern read group by group: one or two digits of minutes, a colon, two digits of seconds. */
  ghost predicate DurationGroups(s: string) {
    exists minutes: string, seconds: string ::
      && s == minutes + ":" + seconds
      && 1 <= |minutes| <= 2 && |seconds| == 2
      && AllDigits(minutes) && AllDigits(seconds)
  }

  /** Every string the character-level test accepts splits into the two groups. */
  lemma MatchedHasGroups(s: string)
    requires MatchesDuration(s)
    ensures DurationGroups(s)
  {
    var m := if |s| == 4 then 1 else 2;
    var minutes, seconds := s[..m], s[m + 1..];
    assert AllDigits(minutes) && AllDigits(seconds);
    assert s == minutes + ":" + seconds;
  }

  /** Every string made of the two groups passes the character-level test. */
  lemma GroupsAreMatched(s: string, minutes: string, seconds: string)
    requires s == minutes + ":" + seconds
    requires 1 <= |minutes| <= 2 && |seconds| == 2
    requires AllDigits(minutes) && AllDigits(seconds)
    ensures MatchesDuration(s)
  {
    var m := |minutes|;
    assert s[m] == ':' && s[m + 1] == seconds[0] && s[m + 2] == seconds[1];
    assert s[0] == minutes[0] && s[m - 1] == minutes[m - 1];
  }

  /** The character-level test accepts exactly the strings the groups describe. */
  lemma MatchesDurationIff(s: string)
    ensures MatchesDuration(s) <==> DurationGroups(s)
  {
    if MatchesDuration(s) {
      MatchedHasGroups(s);
    }
    if DurationGroups(s) {
      var minutes: string, seconds: string :|
        && s == minutes + ":" + seconds
        && 1 <= |minutes| <= 2 && |seconds| == 2
        && AllDigits(minutes) && AllDigits(seconds);
      GroupsAreMatched(s, minutes, seconds);
    }
  }

  /** The check is purely syntactic: any digits are accepted, so minutes run 0-99 and seconds 00-99. */
  lemma AnyDigitsAccepted(m1: char, m0: char, s1: char, s0: char)
    requires IsDigit(m1) && IsDigit(m0) && IsDigit(s1) && IsDigit(s0)
    ensures MatchesDuration([m0, ':', s1, s0])
    ensures MatchesDuration([m1, m0, ':', s1, s0])
  {
  }

  /** Sample strings the pattern accepts and rejects. */
  lemma DurationExamples()
    ensures MatchesDuration("03:45") && MatchesDuration("3:45") && MatchesDuration("0:99")
    ensures !MatchesDuration("345") && !MatchesDuration("3:4") && !MatchesDuration("abc")
    ensures !MatchesDuration("100:00") && !MatchesDuration(" 3:45") && !MatchesDuration("")
  {
  }

  /** Why a submission is refused before any request. */
  datatype ValidationError =
    | MissingTitleOrArtist  // title or artist empty after trimming
    | InvalidDuration       // a duration was typed but does not match the pattern

  /** The raw values of the four inputs. */
  datatype Form = Form(title: string, duration: string, artist: string, genre: string)

  /** The body of `POST /songs`; there is no `id`, the server assigns it. */
  datatype Payload = Payload(title: string, duration: string, artist: string, genre: string, createdAt: string)

  /** The checks of `handleSave`, then the payload; `createdAt` is the clock reading. */
  function Validate(form: Form, createdAt: string): Result<Payload, ValidationError> {
    if Trim(form.title) == "" || Trim(form.artist) == "" then
      Failure(MissingTitleOrArtist)
    else if form.duration != "" && !MatchesDuration(Trim(form.duration)) then
      Failure(InvalidDuration)
    else
      Success(Payload(Trim(form.title), Trim(form.duration), Trim(form.artist), Trim(form.genre), createdAt))
  }

  /**
    A submission is accepted exactly when title and artist contain a
    non-whitespace character and the duration is either left empty or is,
    once trimmed, minutes, a colon and seconds.
  */
  lemma ValidateAcceptsIff(form: Form, createdAt: string)
    ensures Validate(form, createdAt).Success? <==>
      && !AllWhitespace(form.title) && !AllWhitespace(form.artist)
      && (form.duration == "" || DurationGroups(Trim(form.duration)))
  {
    TrimEmptyIff(form.title);
    TrimEmptyIff(form.artist);
    MatchesDurationIff(Trim(form.duration));
  }

  /** The required-field check comes first: it decides the outcome whatever the duration is. */
  lemma RequiredCheckedFirst(form: Form, createdAt: string)
    requires AllWhitespace(form.title) || AllWhitespace(form.artist)
    ensures Validate(form, createdAt) == Failure(MissingTitleOrArtist)
  {
    TrimEmptyIff(form.title);
    TrimEmptyIff(form.artist);
  }

  /** A duration that was typed but is only whitespace trims to "" and is refused. */
  lemma BlankDurationRejected(form: Form, createdAt: string)
    requires !AllWhitespace(form.title) && !AllWhitespace(form.artist)
    requires form.duration != "" && AllWhitespace(form.duration)
    ensures Validate(form, createdAt) == Failure(InvalidDuration)
  {
    TrimEmptyIff(form.title);
    TrimEmptyIff(form.artist);
    TrimEmptyIff(form.duration);
  }

  /**
    With title and artist filled in, a typed duration whose trim is not
    minutes, a colon and seconds is refused as an invalid duration.
  */
  lemma InvalidDurationRejected(form: Form, createdAt: string)
    requires !AllWhitespace(form.title) && !AllWhitespace(form.artist)
    requires form.duration != "" && !DurationGroups(Trim(form.duration))
    ensures Validate(form, createdAt) == Failure(InvalidDuration)
  {
    TrimEmptyIff(form.title);
    TrimEmptyIff(form.artist);
    MatchesDurationIff(Trim(form.duration));
  }

  /** The missing-field error is given exactly when the title or the artist is blank. */
  lemma MissingFieldIff(form: Form, createdAt: string)
    ensures Validate(form, createdAt) == Failure(MissingTitleOrArtist) <==>
      AllWhitespace(form.title) || AllWhitespace(form.artist)
  {
    TrimEmptyIff(form.title);
    TrimEmptyIff(form.artist);
  }

  /** An empty duration is never checked, and is posted as the empty string. */
  lemma EmptyDurationSkipsCheck(form: Form, createdAt: string)
    requires form.duration == ""
    ensures Validate(form, createdAt) != Failure(InvalidDuration)
    ensures Validate(form, createdAt).Success? ==> Validate(form, createdAt).value.duration == ""
  {
  }

  /**
    An accepted payload carries the trimmed inputs: each field is the trim of
    the corresponding input, title and artist are non-empty, and a non-empty
    duration has the mm:ss shape.
  */
  lemma PayloadIsTrimmed(form: Form, createdAt: string)
    requires Validate(form, createdAt).Success?
    ensures var p := Validate(form, createdAt).value;
      && IsTrimOf(p.title, form.title) && IsTrimOf(p.artist, form.artist)
      && IsTrimOf(p.duration, form.duration) && IsTrimOf(p.genre, form.genre)
      && p.title != "" && p.artist != "" && p.createdAt == createdAt
      && (p.duration == "" || DurationGroups(p.duration))
  {
    TrimIsTrimOf(form.title);
    TrimIsTrimOf(form.artist);
    TrimIsTrimOf(form.duration);
    TrimIsTrimOf(form.genre);
    MatchesDurationIff(Trim(form.duration));
  }

  /** How `POST /songs` ended; an empty message stands for an error without one. */
  datatype PostOutcome = Posted | PostFailed(message: string)

  const RequiredAlert := Alert("Campos obrigatórios", "Informe pelo menos o nome e o compositor.")
  const DurationAlert := Alert("Duração inválida", "Use o formato mm:ss (ex.: 03:45).")
  const SuccessAlert := Alert("Sucesso", "Música cadastrada!")
  const PostFailedFallback := "Falha ao cadastrar a música"

  /** The dialog shown for a refused submission. */
  function ValidationAlert(e: ValidationError): Alert {
    match e
    case MissingTitleOrArtist => RequiredAlert
    case InvalidDuration => DurationAlert
  }

  /** The form screen: the `submitting` flag, the last dialog shown, and whether it navigated to the list. */
  class NewSongScreen {
    var submitting: bool
    var lastAlert: Option<Alert>
    var navigatedHome: bool

    constructor ()
      ensures !submitting && lastAlert == None && !navigatedHome
    {
      submitting := false;
      lastAlert := None;
      navigatedHome := false;
    }

    /**
      Pressing save, up to the request: the button is disabled while a request
      is in flight; a refused form shows its dialog and sends nothing; an
      accepted one sets `submitting` and returns the request body.
    */
    method BeginSave(form: Form, createdAt: string) returns (request: Option<Payload>)
      modifies this
      ensures old(submitting) ==> request == None && submitting && lastAlert == old(lastAlert)
      ensures !old(submitting) ==> match Validate(form, createdAt)
        case Failure(e) => request == None && !submitting && lastAlert == Some(ValidationAlert(e))
        case Success(p) => request == Some(p) && submitting && lastAlert == old(lastAlert)
      ensures request.Some? <==> submitting && !old(submitting)
      ensures navigatedHome == old(navigatedHome)
    {
      if submitting {
        return None;
      }
      match Validate(form, createdAt)
      case Failure(e) =>
        lastAlert := Some(ValidationAlert(e));
        request := None;
      case Success(p) =>
        submitting := true;
        request := Some(p);
    }

    /**
      The request has settled: `submitting` is cleared either way; only a
      successful post navigates back to the list.
    */
    method CompleteSave(outcome: PostOutcome)
      requires submitting
      modifies this
      ensures !submitting
      ensures navigatedHome <==> old(navigatedHome) || outcome.Posted?
      ensures lastAlert == Some(match outcome
        case Posted => SuccessAlert
        case PostFailed(m) => Alert(ErrorTitle, MessageOr(m, PostFailedFallback)))
    {
      match outcome {
        case Posted =>
          lastAlert := Some(SuccessAlert);
          navigatedHome := true;
        case PostFailed(m) =>
          lastAlert := Some(Alert(ErrorTitle, MessageOr(m, PostFailedFallback)));
      }
      submitting := false;
    }
  }
}
