/**
 * The values exchanged with the backend canister, as its generated
 * interface declares them (src/frontend/src/backend.d.ts). The backend's
 * own behaviour is not part of this model: only these shapes are.
 */
module Backend {

  datatype Option<+T> = None | Some(value: T)

  /** A principal is opaque to the client; only its identity matters. */
  type Principal = string

  /** The closed request status enum `Type`. */
  datatype Status = Pending | Accepted | Resolved
  {
    /** The string value each enum member carries at run time. */
    function Name(): (s: string)
      ensures s != []
    {
      match this
      case Pending => "pending"
      case Accepted => "accepted"
      case Resolved => "resolved"
    }
  }

  /** Coordinates are floating point in the source and are only displayed. */
  datatype Location = Location(latitude: real, longitude: real)

  datatype ChatMessage = ChatMessage(sender: string, message: string, timestamp: int)

  datatype UserProfile = UserProfile(userType: string, name: string, mobile: string)

  /** Request ids are unbounded naturals (`bigint` on the wire). */
  datatype HelpRequest = HelpRequest(
    id: nat,
    status: Status,
    citizenMobile: string,
    citizenPrincipal: Principal,
    citizenName: string,
    timestamp: int,
    assignedOfficer: Option<Principal>,
    location: Location)

  /** The user type string that every role test in the client compares against. */
  const OfficerType: string := "officer"

  /** Distinct enum members carry distinct strings, so a test on the string is a test on the member. */
  lemma StatusNameInjective(a: Status, b: Status)
    ensures a.Name() == b.Name() <==> a == b
  {
  }
}
