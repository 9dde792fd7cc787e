/**
 * The client's routes and the one rule every screen uses to pick a
 * dashboard from a profile's user type.
 */
module Routing {
  import opened Backend
  import opened Strings

  datatype Route = Auth | OfficerDashboard | CitizenDashboard | RequestDetail(requestId: string)
  {
    function Path(): (p: string)
      ensures p != [] && p[0] == '/'
    {
      match this
      case Auth => "/auth"
      case OfficerDashboard => "/officer-dashboard"
      case CitizenDashboard => "/citizen-dashboard"
      case RequestDetail(id) => "/request/" + id
    }
  }

  /**
   * Distinct routes have distinct paths, whatever the request parameter, so
   * the router tells them apart; a detail path carries the id's decimal string.
   */
  lemma PathInjective(a: Route, b: Route)
    ensures a.Path() == b.Path() <==> a == b
    ensures a.RequestDetail? ==> a.Path() == "/request/" + a.requestId
  {
    PathShape(a);
    PathShape(b);
  }

  /** The second character of a path names its route; a detail path ends with its parameter. */
  lemma PathShape(r: Route)
    ensures 1 < |r.Path()|
    ensures r.Path()[1] == match r case Auth => 'a' case OfficerDashboard => 'o'
                                   case CitizenDashboard => 'c' case RequestDetail(_) => 'r'
    ensures r.RequestDetail? ==> 9 <= |r.Path()| && r.Path()[9..] == r.requestId
  {
  }

  /** The two roles a user can choose: the `'citizen' | 'officer'` prop of the form and the notifier. */
  datatype Role = CitizenRole | OfficerRole
  {
    function UserType(): (t: string)
      ensures t == OfficerType <==> this == OfficerRole
      ensures this == CitizenRole ==> t == "citizen"
    {
      match this
      case CitizenRole => "citizen"
      case OfficerRole => OfficerType
    }
  }

  /**
   * The dashboard for a user type: the officer dashboard for exactly the
   * string "officer", the citizen dashboard for every other string.
   */
  function DashboardFor(userType: string): (r: Route)
    ensures r == OfficerDashboard <==> userType == OfficerType
    ensures r == CitizenDashboard <==> userType != OfficerType
  {
    if userType == OfficerType then OfficerDashboard else CitizenDashboard
  }

  /** The detail route of a request: `/request/` followed by its id in decimal. */
  function DetailsRoute(id: nat): (r: Route)
    ensures r.RequestDetail? && IsDigits(r.requestId) && r.requestId != []
  {
    RequestDetail(DecimalString(id))
  }

  /** Distinct requests get distinct detail routes. */
  lemma DetailsRouteInjective(a: nat, b: nat)
    ensures DetailsRoute(a) == DetailsRoute(b) <==> a == b
  {
    DecimalStringInjective(a, b);
  }
}
