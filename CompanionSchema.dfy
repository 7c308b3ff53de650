/**
 * The companion form's validation schema: five bounded text fields and a
 * duration that is coerced from the control's raw value to a number.
 * Every field is checked on its own and all failing fields are reported
 * together; a form with no failing field yields the validated record.
 */
module CompanionSchema {
  import opened Wrappers

  /** The keys of the form, in the order the schema declares them. */
  datatype Field = Name | Subject | Topic | Voice | Style | Duration

  /** The field table the validator walks. */
  const Fields: seq<Field> := [Name, Subject, Topic, Voice, Style, Duration]

  /** The fields whose value is kept as text. */
  const TextFields: set<Field> := {Name, Subject, Topic, Voice, Style}

  const MinLength: int := 1
  const MaxLength: int := 80
  const MinDuration: real := 1.0
  const MaxDuration: real := 80.0

  /**
   * What the duration control holds before coercion: the text the user
   * typed into the number input, or the number the form was preset with.
   */
  datatype RawDuration = Entered(text: string) | Preset(number: real)

  /** The form's current values, as handed to the validator. */
  datatype RawForm = RawForm(
    name: string, subject: string, topic: string,
    voice: string, style: string, duration: RawDuration)

  /** The output of a successful validation. */
  datatype CompanionValues = CompanionValues(
    name: string, subject: string, topic: string,
    voice: string, style: string, duration: real)

  /**
   * One field's failure. `TooSmall` carries the schema's own message;
   * the wording of `TooBig` and `NotANumber` belongs to the validation
   * library and is not modelled.
   */
  datatype Issue = TooSmall(message: string) | TooBig(maximum: int) | NotANumber

  /** The form's starting values: empty text and a preset duration of 15. */
  function DefaultForm(): RawForm {
    RawForm("", "", "", "", "", Preset(15.0))
  }

  /** The message a field reports when it is below its minimum. */
  function RequiredMessage(f: Field): string {
    match f
    case Name => "Companion is required."
    case Subject => "Subject is required."
    case Topic => "Topic is required."
    case Voice => "Voice is required."
    case Style => "Style is required."
    case Duration => "Duration is required."
  }

  /** The raw text of a text field. */
  function TextOf(raw: RawForm, f: Field): string
    requires f in TextFields
  {
    match f
    case Name => raw.name
    case Subject => raw.subject
    case Topic => raw.topic
    case Voice => raw.voice
    case Style => raw.style
  }

  /**
   * The numeric coercion of the duration. `toNumber` stands for the
   * conversion of text to a number, with None for a result that is not a
   * number; a preset number passes through.
   */
  function Coerce(d: RawDuration, toNumber: string -> Option<real>): Option<real> {
    match d
    case Entered(t) => toNumber(t)
    case Preset(x) => Some(x)
  }

  /** The length rule shared by the five text fields. */
  function TextIssue(s: string, f: Field): Option<Issue> {
    if |s| < MinLength then Some(TooSmall(RequiredMessage(f)))
    else if |s| > MaxLength then Some(TooBig(MaxLength))
    else None
  }

  /** The rule for the coerced duration: a number is required, then its range. */
  function DurationIssue(v: Option<real>): Option<Issue> {
    match v
    case None => Some(NotANumber)
    case Some(x) =>
      if x < MinDuration then Some(TooSmall(RequiredMessage(Duration)))
      else if x > MaxDuration then Some(TooBig(MaxDuration.Floor))
      else None
  }

  /** The verdict on one field; it reads that field's raw value and no other. */
  function FieldIssue(raw: RawForm, toNumber: string -> Option<real>, f: Field): Option<Issue> {
    match f
    case Duration => DurationIssue(Coerce(raw.duration, toNumber))
    case _ => TextIssue(TextOf(raw, f), f)
  }

  /** The length bounds of a text field. */
  predicate InLength(s: string) {
    MinLength <= |s| <= MaxLength
  }

  /** The range bounds of the duration, which must first be a number. */
  predicate InRange(v: Option<real>) {
    v.Some? && MinDuration <= v.value <= MaxDuration
  }

  /**
   * Reference definition of an acceptable form, written from the bounds
   * alone: every text has length 1 to 80 and the duration coerces to a
   * number from 1 to 80.
   */
  predicate Acceptable(raw: RawForm, toNumber: string -> Option<real>) {
    && InLength(raw.name) && InLength(raw.subject) && InLength(raw.topic)
    && InLength(raw.voice) && InLength(raw.style)
    && InRange(Coerce(raw.duration, toNumber))
  }

  /** The invariant of every validated record. */
  predicate Valid(c: CompanionValues) {
    && InLength(c.name) && InLength(c.subject) && InLength(c.topic)
    && InLength(c.voice) && InLength(c.style)
    && MinDuration <= c.duration <= MaxDuration
  }

  /** The field table lists every field of the form. */
  lemma FieldTableComplete()
    ensures forall f: Field :: f in Fields
  {
    forall f: Field ensures f in Fields {
      match f
      case Name => assert Fields[0] == f;
      case Subject => assert Fields[1] == f;
      case Topic => assert Fields[2] == f;
      case Voice => assert Fields[3] == f;
      case Style => assert Fields[4] == f;
      case Duration => assert Fields[5] == f;
    }
  }

  /**
   * Every failing field of the form with its issue: each field of the
   * table is checked and none stops the others from being checked.
   */
  function Errors(raw: RawForm, toNumber: string -> Option<real>): (m: map<Field, Issue>)
    ensures forall f :: f in m <==> FieldIssue(raw, toNumber, f).Some?
    ensures forall f :: f in m ==> Some(m[f]) == FieldIssue(raw, toNumber, f)
  {
    FieldTableComplete();
    map f | f in Fields && FieldIssue(raw, toNumber, f).Some? :: FieldIssue(raw, toNumber, f).value
  }

  /**
   * The schema's parse: the validated record when no field fails,
   * otherwise the map of every failing field to its issue.
   */
  function Validate(raw: RawForm, toNumber: string -> Option<real>): (r: Result<CompanionValues, map<Field, Issue>>)
    ensures r.Success? <==> Acceptable(raw, toNumber)
    ensures r.Success? ==>
      && Valid(r.value)
      && r.value.name == raw.name && r.value.subject == raw.subject
      && r.value.topic == raw.topic && r.value.voice == raw.voice
      && r.value.style == raw.style
      && Coerce(raw.duration, toNumber) == Some(r.value.duration)
    ensures r.Failure? ==> r.error == Errors(raw, toNumber) && r.error != map[]
  {
    var errors := Errors(raw, toNumber);
    NoErrorsIffAcceptable(raw, toNumber);
    if errors == map[] then
      Success(CompanionValues(raw.name, raw.subject, raw.topic, raw.voice, raw.style,
                              Coerce(raw.duration, toNumber).value))
    else
      Failure(errors)
  }

  /** The aggregated errors are empty exactly when the form is acceptable. */
  lemma NoErrorsIffAcceptable(raw: RawForm, toNumber: string -> Option<real>)
    ensures Errors(raw, toNumber) == map[] <==> Acceptable(raw, toNumber)
  {
    var e := Errors(raw, toNumber);
    if Acceptable(raw, toNumber) {
      forall f ensures f !in e {
        match f
        case Name => case Subject => case Topic => case Voice => case Style =>
        case Duration =>
      }
      assert e.Keys == {};
    } else if !InLength(raw.name) {
      assert Name in e;
    } else if !InLength(raw.subject) {
      assert Subject in e;
    } else if !InLength(raw.topic) {
      assert Topic in e;
    } else if !InLength(raw.voice) {
      assert Voice in e;
    } else if !InLength(raw.style) {
      assert Style in e;
    } else {
      assert Duration in e;
    }
  }

  /** Two forms hold the same raw value in field `f`. */
  predicate SameRaw(raw: RawForm, raw': RawForm, f: Field) {
    match f
    case Name => raw.name == raw'.name
    case Subject => raw.subject == raw'.subject
    case Topic => raw.topic == raw'.topic
    case Voice => raw.voice == raw'.voice
    case Style => raw.style == raw'.style
    case Duration => raw.duration == raw'.duration
  }

  /**
   * A text field is accepted exactly when its length is from 1 to 80; an
   * empty one reports the field's own message, an overlong one the maximum.
   */
  lemma TextFieldVerdict(raw: RawForm, toNumber: string -> Option<real>, f: Field)
    requires f in TextFields
    ensures f !in Errors(raw, toNumber) <==> MinLength <= |TextOf(raw, f)| <= MaxLength
    ensures |TextOf(raw, f)| == 0 ==> Errors(raw, toNumber)[f] == TooSmall(RequiredMessage(f))
    ensures |TextOf(raw, f)| > MaxLength ==> Errors(raw, toNumber)[f] == TooBig(MaxLength)
  {
  }

  /** Each field's "required" message is its own. */
  lemma RequiredMessagesDistinct(f: Field, g: Field)
    requires f != g
    ensures RequiredMessage(f) != RequiredMessage(g)
  {
  }

  /**
   * The duration is accepted exactly when it coerces to a number from 1 to
   * 80. Below 1 it reports "Duration is required."; a value that is not a
   * number reports the library's own issue, not that message.
   */
  lemma DurationVerdict(raw: RawForm, toNumber: string -> Option<real>)
    ensures Duration !in Errors(raw, toNumber) <==>
      Coerce(raw.duration, toNumber).Some? && MinDuration <= Coerce(raw.duration, toNumber).value <= MaxDuration
    ensures Coerce(raw.duration, toNumber).Some? && Coerce(raw.duration, toNumber).value < MinDuration ==>
      Errors(raw, toNumber)[Duration] == TooSmall("Duration is required.")
    ensures Coerce(raw.duration, toNumber).Some? && Coerce(raw.duration, toNumber).value > MaxDuration ==>
      Errors(raw, toNumber)[Duration] == TooBig(80)
    ensures Coerce(raw.duration, toNumber).None? ==>
      Errors(raw, toNumber)[Duration] == NotANumber && NotANumber != TooSmall(RequiredMessage(Duration))
  {
  }

  /**
   * A field's verdict depends on that field's raw value alone: forms that
   * agree on `f` get the same verdict on `f`, whatever the other fields hold.
   */
  lemma FieldVerdictIndependent(raw: RawForm, raw': RawForm, toNumber: string -> Option<real>, f: Field)
    requires SameRaw(raw, raw', f)
    ensures f in Errors(raw, toNumber) <==> f in Errors(raw', toNumber)
    ensures f in Errors(raw, toNumber) ==> Errors(raw, toNumber)[f] == Errors(raw', toNumber)[f]
  {
  }

  /**
   * The validator consults the number conversion only on the duration's
   * text: two conversions that agree there give the same outcome.
   */
  lemma ValidateUsesConversionOnlyOnDuration(raw: RawForm, toNumber: string -> Option<real>, toNumber': string -> Option<real>)
    requires raw.duration.Entered? ==> toNumber(raw.duration.text) == toNumber'(raw.duration.text)
    ensures Validate(raw, toNumber) == Validate(raw, toNumber')
  {
    assert Coerce(raw.duration, toNumber) == Coerce(raw.duration, toNumber');
    forall f ensures FieldIssue(raw, toNumber, f) == FieldIssue(raw, toNumber', f) { }
    assert Errors(raw, toNumber) == Errors(raw, toNumber');
  }

  /**
   * The starting form fails on exactly the five text fields, each with its
   * own message, and passes on the duration.
   */
  lemma DefaultFormVerdict(toNumber: string -> Option<real>)
    ensures Errors(DefaultForm(), toNumber).Keys == TextFields
    ensures forall f :: f in TextFields ==> Errors(DefaultForm(), toNumber)[f] == TooSmall(RequiredMessage(f))
    ensures Validate(DefaultForm(), toNumber).Failure?
  {
    var raw := DefaultForm();
    var e := Errors(raw, toNumber);
    forall f ensures f in e <==> f in TextFields
      ensures f in TextFields ==> e[f] == TooSmall(RequiredMessage(f))
    {
      match f
      case Name => case Subject => case Topic => case Voice => case Style =>
      case Duration =>
    }
    NoErrorsIffAcceptable(raw, toNumber);
  }

  /**
   * Subject, voice and style are free text: values outside the choices
   * the form's dropdowns offer validate, unchanged.
   */
  lemma UnlistedSubjectAccepted(toNumber: string -> Option<real>)
    ensures var raw := RawForm("Ada", "quantum-biology", "Derivatives", "robot", "pirate", Preset(15.0));
      Validate(raw, toNumber) == Success(CompanionValues("Ada", "quantum-biology", "Derivatives", "robot", "pirate", 15.0))
  {
  }
}
