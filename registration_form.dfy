/**
 * The registration form (src/frontend/src/components/RegistrationForm.tsx):
 * the chain of checks on the two input fields, the register call, and the
 * dashboard the user is sent to afterwards.
 */
module RegistrationForm {
  import opened Backend
  import opened Strings
  import opened MobilePattern
  import opened Routing
  import opened UseQueries

  const NameMissing: string := "Please enter your name"
  const MobileMissing: string := "Please enter your mobile number"
  const MobileInvalid: string := "Please enter a valid mobile number"
  const RegistrationFailedText: string := "Registration failed"

  /** What `handleSubmit` decides before any call: reject with a message, or register these arguments. */
  datatype Submission = Rejected(message: string) | Submit(name: string, mobile: string, userType: string)

  /**
   * The guards of `handleSubmit`, in order: a blank name, then a blank
   * mobile, then a mobile outside the pattern. The pattern is tested on the
   * untrimmed mobile, and the arguments are passed on untrimmed.
   */
  function Validate(name: string, mobile: string, role: Role): (r: Submission)
    ensures r.Submit? <==> !IsBlank(name) && InLanguage(Pattern, mobile)
    ensures r.Submit? ==> r == Submit(name, mobile, role.UserType())
    ensures IsBlank(name) ==> r == Rejected(NameMissing)
    ensures !IsBlank(name) && IsBlank(mobile) ==> r == Rejected(MobileMissing)
    ensures !IsBlank(name) && !IsBlank(mobile) && !InLanguage(Pattern, mobile) ==> r == Rejected(MobileInvalid)
  {
    if Trim(name) == [] then Rejected(NameMissing)
    else if Trim(mobile) == [] then
      BlankRejected(mobile);
      Rejected(MobileMissing)
    else if !MatchesMobile(mobile) then Rejected(MobileInvalid)
    else Submit(name, mobile, role.UserType())
  }

  /** A blank name is rejected whatever the mobile: the mobile is not looked at. */
  lemma NameCheckedFirst(name: string, mobile1: string, mobile2: string, role: Role)
    requires IsBlank(name)
    ensures Validate(name, mobile1, role) == Validate(name, mobile2, role) == Rejected(NameMissing)
  {
  }

  /** A mobile with whitespace around it is rejected even when the number inside is valid. */
  lemma PaddedMobileRejected(name: string, mobile: string, c: char, role: Role)
    requires IsWhitespace(c)
    ensures Validate(name, [c] + mobile, role).Rejected?
    ensures Validate(name, mobile + [c], role).Rejected?
  {
    PaddedRejected(mobile, c);
  }

  /** Where a submission ends up. */
  datatype FormResult = Invalid(message: string) | Registered(next: Route) | Failed(message: string)

  /**
   * `handleSubmit` end to end: the checks, then (only if they pass) the
   * register mutation with the raw fields, then the dashboard for the role
   * on success or the error's message, else "Registration failed", on
   * failure.
   */
  method HandleSubmit(client: QueryClient, actorPresent: bool, name: string, mobile: string, role: Role,
                      registerReply: Outcome<()>, saveReply: Outcome<()>) returns (r: FormResult)
    modifies client
    ensures r.Invalid? <==> Validate(name, mobile, role).Rejected?
    ensures Validate(name, mobile, role).Rejected? ==>
              && r == Invalid(Validate(name, mobile, role).message)
              && client.sent == old(client.sent) && client.stale == old(client.stale)
    ensures Validate(name, mobile, role).Submit? && !actorPresent ==>
              r == Failed(ActorMissing) && client.sent == old(client.sent)
    ensures Validate(name, mobile, role).Submit? && actorPresent && registerReply.Failure? ==>
              && r == Failed(StringOr(registerReply.message, RegistrationFailedText))
              && client.sent == old(client.sent) + [RegisterCall(name, mobile, role.UserType())]
    ensures Validate(name, mobile, role).Submit? && actorPresent && registerReply.Success? ==>
              client.sent == old(client.sent) + [RegisterCall(name, mobile, role.UserType()),
                                                 SaveProfileCall(UserProfile(role.UserType(), name, mobile))]
    ensures Validate(name, mobile, role).Submit? && actorPresent && registerReply.Success? && saveReply.Failure? ==>
              r == Failed(StringOr(saveReply.message, RegistrationFailedText))
    ensures Validate(name, mobile, role).Submit? ==>
              client.stale == Settled(old(client.stale), RegisterMutation,
                                      if !actorPresent then Failure(Some(ActorMissing))
                                      else if registerReply.Failure? then registerReply else saveReply)
    ensures r.Registered? <==>
              Validate(name, mobile, role).Submit? && actorPresent && registerReply.Success? && saveReply.Success?
    ensures r.Registered? ==> r.next == DashboardFor(role.UserType())
    ensures r.Failed? ==> r.message != []
  {
    var submission := Validate(name, mobile, role);
    if submission.Rejected? {
      return Invalid(submission.message);
    }
    var outcome := client.Register(actorPresent, name, mobile, role.UserType(), registerReply, saveReply);
    if outcome.Success? {
      r := Registered(DashboardFor(role.UserType()));
    } else {
      r := Failed(StringOr(outcome.message, RegistrationFailedText));
    }
  }

  /** After registering, an officer lands on the officer dashboard and a citizen on the citizen one. */
  lemma RegisteredRoute(role: Role)
    ensures DashboardFor(role.UserType()) == (if role == OfficerRole then OfficerDashboard else CitizenDashboard)
  {
  }
}
