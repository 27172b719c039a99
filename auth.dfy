/** The authentication context: the current session, the signed-in user's
    profile, and the approval gate that signs out anyone whose account is
    not approved. The hosted auth service and the `profiles` table are
    replaced by the values their calls return. */
module Auth {
  import opened Base

  type UserId = string

  const Approved := "approved"
  const Pending := "pending"
  const Rejected := "rejected"
  const AdminRole := "admin"
  const UserRole := "user"

  const PendingNotice := "Your account is awaiting admin approval."
  const RejectedNotice := "Your account has been rejected. Please contact support."

  datatype User = User(id: UserId)

  /** An auth session; the service may hand back one without a user. */
  datatype Session = Session(user: Option<User>)

  /** The profile kept in the context: the user's id with the role and the
      approval status read from the `profiles` table (either may be null). */
  datatype Profile = Profile(id: UserId, role: Option<string>, status: Option<string>)

  /** The `role, status` columns of one `profiles` row. */
  datatype ProfileRow = ProfileRow(role: Option<string>, status: Option<string>)

  /** What a single-row query answers: data, an error, or neither. */
  datatype Query<T> = Query(data: Option<T>, error: Option<string>)

  /** `fetchProfile`: null when the query failed or found nothing, otherwise
      the row's role and status under the id that was asked for. */
  function FetchProfile(userId: UserId, q: Query<ProfileRow>): (p: Option<Profile>)
    ensures p.None? <==> q.error.Some? || q.data.None?
    ensures p.Some? ==> p.value.id == userId
    ensures p.Some? ==> p.value.role == q.data.value.role && p.value.status == q.data.value.status
  {
    if q.error.Some? || q.data.None? then None
    else Some(Profile(userId, q.data.value.role, q.data.value.status))
  }

  /** The user the context exposes: the session's user, or none without a session. */
  function SessionUser(session: Option<Session>): (u: Option<User>)
    ensures u.Some? <==> session.Some? && session.value.user.Some?
    ensures u.Some? ==> u == session.value.user
  {
    match session
    case None => None
    case Some(s) => s.user
  }

  /** Whether a fetched profile lets its user stay signed in. */
  predicate IsApproved(p: Option<Profile>) {
    p.Some? && p.value.status == Some(Approved)
  }

  /** The state of `AuthProvider`. `signOuts` counts the calls made to the
      auth service's sign-out. */
  class AuthProvider {
    var session: Option<Session>
    var profile: Option<Profile>
    var loading: bool
    var signOuts: nat

    /** A stored profile is always an approved profile of the current user. */
    ghost predicate Valid()
      reads this
    {
      profile.Some? ==>
        && profile.value.status == Some(Approved)
        && SessionUser(session).Some?
        && profile.value.id == SessionUser(session).value.id
    }

    constructor ()
      ensures Valid()
      ensures session.None? && profile.None? && loading && signOuts == 0
    {
      session := None;
      profile := None;
      loading := true;
      signOuts := 0;
    }

    /** `handleSession`: store the session; for a session with a user, fetch
        the profile (answered by `fetched`) and keep it only when it is
        approved, signing out otherwise; finally stop loading. `notice` is
        the alert shown to a pending or rejected user. */
    method HandleSession(s: Option<Session>, fetched: Query<ProfileRow>) returns (notice: Option<string>)
      modifies this
      ensures Valid()
      ensures session == s && !loading
      ensures SessionUser(s).None? ==> profile.None? && signOuts == old(signOuts) && notice.None?
      ensures SessionUser(s).Some? ==>
        var p := FetchProfile(SessionUser(s).value.id, fetched);
        && (profile == if IsApproved(p) then p else None)
        && (signOuts == if IsApproved(p) then old(signOuts) else old(signOuts) + 1)
        && (notice == if p.Some? && p.value.status == Some(Pending) then Some(PendingNotice)
                      else if p.Some? && p.value.status == Some(Rejected) then Some(RejectedNotice)
                      else None)
    {
      session := s;
      notice := None;
      if s.Some? && s.value.user.Some? {
        var profileData := FetchProfile(s.value.user.value.id, fetched);
        if profileData.None? {
          signOuts := signOuts + 1;
          profile := None;
        } else if profileData.value.status == Some(Pending) {
          notice := Some(PendingNotice);
          signOuts := signOuts + 1;
          profile := None;
        } else if profileData.value.status == Some(Rejected) {
          notice := Some(RejectedNotice);
          signOuts := signOuts + 1;
          profile := None;
        } else if profileData.value.status == Some(Approved) {
          profile := profileData;
        } else {
          signOuts := signOuts + 1;
          profile := None;
        }
      } else {
        profile := None;
      }
      loading := false;
    }
  }
}
