/**
 * What the companion form does once its values have been validated: hand
 * them to the creation collaborator and navigate according to its result.
 * The collaborator is a parameter; the navigation request is an output.
 */
module CompanionSubmit {
  import opened Wrappers
  import opened CompanionSchema

  /** The created entity; only its identifier is used here. */
  datatype Companion = Companion(id: string)

  /** The navigation request and the lines written to the log on the way. */
  datatype Navigation = Navigation(target: string, log: seq<string>)

  /** The outcome of pressing submit. */
  datatype SubmitOutcome =
    | Blocked(errors: map<Field, Issue>)
    | Navigated(sent: CompanionValues, nav: Navigation)

  const CompanionsPrefix: string := "/companions/"
  const RootPath: string := "/"
  const FailureNotice: string := "Failed to create a companion"

  /**
   * The branch on the creation result: a companion sends the user to its
   * own page; no companion logs the failure and sends the user home.
   */
  function AfterCreate(created: Option<Companion>): (n: Navigation)
    ensures created.Some? ==>
      n.target == CompanionsPrefix + created.value.id && n.log == []
    ensures created.None? ==>
      n.target == RootPath && n.log == [FailureNotice]
  {
    match created
    case Some(c) => Navigation(CompanionsPrefix + c.id, [])
    case None => Navigation(RootPath, [FailureNotice])
  }

  /**
   * The navigation target tells the outcomes apart: a failure never lands
   * on a companion page, and two companion pages are the same target only
   * for the same identifier.
   */
  lemma {:induction false} TargetIdentifiesOutcome(a: Option<Companion>, b: Option<Companion>)
    requires AfterCreate(a).target == AfterCreate(b).target
    ensures a == b
  {
    if a.Some? && b.Some? {
      var p := CompanionsPrefix;
      assert AfterCreate(a).target[|p|..] == a.value.id;
      assert AfterCreate(b).target[|p|..] == b.value.id;
    }
  }

  /**
   * Submitting the form: the form-state library runs the submit handler
   * only on values the schema accepts; otherwise submission is blocked with
   * every failing field. The handler calls `create` once with the validated
   * record and navigates on its result.
   */
  function Submit(raw: RawForm, toNumber: string -> Option<real>,
                  create: CompanionValues -> Option<Companion>): (o: SubmitOutcome)
    ensures o.Blocked? <==> !Acceptable(raw, toNumber)
    ensures o.Blocked? ==> o.errors == Errors(raw, toNumber) && o.errors != map[]
    ensures o.Navigated? ==>
      && Valid(o.sent)
      && Validate(raw, toNumber) == Success(o.sent)
      && o.nav == AfterCreate(create(o.sent))
  {
    match Validate(raw, toNumber)
    case Failure(errors) => Blocked(errors)
    case Success(values) => Navigated(values, AfterCreate(create(values)))
  }

  /**
   * An empty name stops submission before the creation collaborator is
   * reached, and the name is among the reported fields.
   */
  lemma EmptyNameBlocksCreation(raw: RawForm, toNumber: string -> Option<real>,
                                create: CompanionValues -> Option<Companion>)
    requires raw.name == ""
    ensures Submit(raw, toNumber, create).Blocked?
    ensures Name in Submit(raw, toNumber, create).errors
    ensures Submit(raw, toNumber, create).errors[Name] == TooSmall("Companion is required.")
  {
  }

  /**
   * An acceptable form reaches the collaborator with its own text and its
   * coerced duration, and lands on the created companion's page, or on the
   * root with a logged failure when nothing was created.
   */
  lemma AcceptedFormNavigates(raw: RawForm, toNumber: string -> Option<real>,
                              create: CompanionValues -> Option<Companion>)
    requires Acceptable(raw, toNumber)
    ensures var o := Submit(raw, toNumber, create);
      && o.Navigated?
      && o.sent == CompanionValues(raw.name, raw.subject, raw.topic, raw.voice, raw.style,
                                   Coerce(raw.duration, toNumber).value)
      && (create(o.sent).Some? ==> o.nav.target == "/companions/" + create(o.sent).value.id)
      && (create(o.sent).None? ==> o.nav.target == "/" && o.nav.log == ["Failed to create a companion"])
  {
  }
}
