/** The role check run on every handler method: a rule over the handler's
    allowed roles, the caller's session and the request's tenant. */
module Authorizer {
  import opened Basics

  /** The marker admitting every caller, with or without a session. */
  const AnyMarker: string := "any"

  /** The marker standing for every staff role. */
  const UserMarker: string := "user"

  /** The staff roles that the user marker stands for. */
  const StaffRoles: set<string> := {"admin", "receiver", "custodian"}

  /** The part of a session the check reads: its tenant and its role. */
  datatype Principal = Principal(tid: int, role: string)

  /** The call goes on to the handler: every caller when `roles` holds the
      any marker, otherwise only a caller whose session belongs to the
      request's tenant and whose role is allowed, directly or through the
      user marker. */
  predicate Authorized(roles: set<string>, session: Option<Principal>, tid: int): (ok: bool)
    ensures AnyMarker in roles ==> ok
    ensures ok && AnyMarker !in roles ==> session.Some? && session.value.tid == tid
    ensures ok && AnyMarker !in roles ==> session.value.role in roles || session.value.role in StaffRoles
  {
    AnyMarker in roles ||
    (session.Some? && session.value.tid == tid &&
     ((UserMarker in roles && session.value.role in StaffRoles) || session.value.role in roles))
  }

  /** Reference definition: the roles admitted by a role set, with the
      user marker expanded into the staff roles. */
  function AdmittedRoles(roles: set<string>): (admitted: set<string>)
    ensures roles <= admitted
    ensures UserMarker in roles ==> StaffRoles <= admitted
    ensures forall r :: r in admitted ==> r in roles || (UserMarker in roles && r in StaffRoles)
  {
    roles + (if UserMarker in roles then StaffRoles else {})
  }

  /** The check, stated through the expanded role set. */
  lemma AuthorizedIffAdmitted(roles: set<string>, session: Option<Principal>, tid: int)
    ensures Authorized(roles, session, tid) <==>
      AnyMarker in roles ||
      (session.Some? && session.value.tid == tid && session.value.role in AdmittedRoles(roles))
  {
  }

  /** The any marker admits every request, with or without a session. */
  lemma AnyAdmitsEveryone(roles: set<string>, session: Option<Principal>, tid: int)
    requires AnyMarker in roles
    ensures Authorized(roles, session, tid)
  {
  }

  /** A request without a session is admitted only through the any marker. */
  lemma NoSessionOnlyThroughAny(roles: set<string>, tid: int)
    ensures Authorized(roles, None, tid) <==> AnyMarker in roles
  {
  }

  /** A session of another tenant is refused unless the any marker is present. */
  lemma OtherTenantRefused(roles: set<string>, p: Principal, tid: int)
    requires p.tid != tid && AnyMarker !in roles
    ensures !Authorized(roles, Some(p), tid)
  {
  }

  /** A handler declaring only the user marker admits exactly the staff
      roles of the request's tenant. */
  lemma UserMarkerMeansStaff(p: Principal, tid: int)
    ensures Authorized({UserMarker}, Some(p), tid) <==>
      p.tid == tid && (p.role in StaffRoles || p.role == UserMarker)
  {
  }

  /** Allowing more roles never refuses a caller who was admitted. */
  lemma AuthorizedMonotone(roles: set<string>, more: set<string>, session: Option<Principal>, tid: int)
    requires roles <= more
    requires Authorized(roles, session, tid)
    ensures Authorized(more, session, tid)
  {
  }
}
