/** The admin control panel: the `profiles` table split into pending,
    approved and rejected users, the buttons each user's card offers, and
    the status and role updates those buttons make. */
module Admin {
  import opened Base
  import opened Auth

  /** A row of `profiles`. */
  datatype UserProfile = UserProfile(
    id: UserId,
    name: Option<string>,
    phone: Option<string>,
    role: Option<string>,
    status: Option<string>,
    createdAt: int)

  /** The rows of `users` whose status is `st`, in the order of `users`. */
  function WithStatus(users: seq<UserProfile>, st: string): (r: seq<UserProfile>)
    ensures |r| <= |users|
    ensures forall u {:trigger u in r} :: u in r <==> u in users && u.status == Some(st)
  {
    if users == [] then []
    else if users[0].status == Some(st) then [users[0]] + WithStatus(users[1..], st)
    else WithStatus(users[1..], st)
  }

  /** Whether a status is one of the three the panel has a section for. */
  predicate Listed(status: Option<string>) {
    status in {Some(Pending), Some(Approved), Some(Rejected)}
  }

  /** The rows no section shows: any status other than the three. */
  function Unlisted(users: seq<UserProfile>): (r: seq<UserProfile>)
    ensures |r| <= |users|
    ensures forall u {:trigger u in r} :: u in r <==> u in users && !Listed(u.status)
  {
    if users == [] then []
    else if !Listed(users[0].status) then [users[0]] + Unlisted(users[1..])
    else Unlisted(users[1..])
  }

  /** What the page shows: "Access Denied", the loading line, or the three sections. */
  datatype AdminScreen =
    | AccessDenied
    | LoadingUsers
    | Sections(pending: seq<UserProfile>, approved: seq<UserProfile>, rejected: seq<UserProfile>)

  /** Whether the signed-in profile may see the panel. */
  predicate IsAdmin(viewer: Option<Profile>) {
    viewer.Some? && viewer.value.role == Some(AdminRole)
  }

  /** The page for `viewer`: anyone without an admin profile is refused,
      before and after the users have loaded; an admin sees the users split
      by status. */
  function AdminView(viewer: Option<Profile>, loading: bool, users: seq<UserProfile>): (v: AdminScreen)
    ensures v == AccessDenied <==> !IsAdmin(viewer)
    ensures v == LoadingUsers <==> IsAdmin(viewer) && loading
    ensures v.Sections? ==>
      && v.pending == WithStatus(users, Pending)
      && v.approved == WithStatus(users, Approved)
      && v.rejected == WithStatus(users, Rejected)
  {
    if !IsAdmin(viewer) then AccessDenied
    else if loading then LoadingUsers
    else Sections(WithStatus(users, Pending), WithStatus(users, Approved), WithStatus(users, Rejected))
  }

  /** Filtering a concatenation filters each part: the sections keep the
      order of the users list. */
  lemma {:induction false} WithStatusAppend(a: seq<UserProfile>, b: seq<UserProfile>, st: string)
    ensures WithStatus(a + b, st) == WithStatus(a, st) + WithStatus(b, st)
  {
    if a == [] {
      assert a + b == b;
    } else {
      assert (a + b)[1..] == a[1..] + b;
      WithStatusAppend(a[1..], b, st);
    }
  }

  /** The three sections and the unlisted rows together account for every
      row exactly once. */
  lemma {:induction false} PartitionSizes(users: seq<UserProfile>)
    ensures |WithStatus(users, Pending)| + |WithStatus(users, Approved)|
          + |WithStatus(users, Rejected)| + |Unlisted(users)| == |users|
  {
    if users != [] {
      PartitionSizes(users[1..]);
    }
  }

  /** No user shows in two sections, and a user with another status shows in none. */
  lemma SectionsDisjoint(users: seq<UserProfile>, u: UserProfile)
    ensures u in WithStatus(users, Pending) ==> u !in WithStatus(users, Approved) && u !in WithStatus(users, Rejected)
    ensures u in WithStatus(users, Approved) ==> u !in WithStatus(users, Rejected)
    ensures u in users && !Listed(u.status) ==>
      u !in WithStatus(users, Pending) && u !in WithStatus(users, Approved) && u !in WithStatus(users, Rejected)
  {
  }

  /** The buttons of a user card. */
  datatype Action = Approve | Reject | Promote | Demote

  /** `renderUserCard`'s buttons for `u`, as `viewer` sees them, in the order
      shown: approve and reject for a pending user, promote for an approved
      plain user, demote for any admin but the viewer. */
  function ActionsFor(viewer: Profile, u: UserProfile): (acts: seq<Action>)
    ensures Approve in acts <==> u.status == Some(Pending)
    ensures Reject in acts <==> u.status == Some(Pending)
    ensures Promote in acts <==> u.status == Some(Approved) && u.role == Some(UserRole)
    ensures Demote in acts <==> u.role == Some(AdminRole) && u.id != viewer.id
  {
    (if u.status == Some(Pending) then [Approve, Reject] else [])
    + (if u.status == Some(Approved) && u.role == Some(UserRole) then [Promote] else [])
    + (if u.role == Some(AdminRole) && u.id != viewer.id then [Demote] else [])
  }

  /** The change an update makes to one row: a new status or a new role. */
  datatype Patch = SetStatus(status: string) | SetRole(role: string)

  /** The update each button asks for: approve and reject settle a pending
      user's status to one of the listed sections, promote and demote set one
      of the two roles the app knows. */
  function PatchFor(a: Action): (p: Patch)
    ensures p.SetStatus? <==> a == Approve || a == Reject
    ensures p.SetStatus? ==> Listed(Some(p.status)) && p.status != Pending
    ensures p.SetRole? ==> p.role in {AdminRole, UserRole}
    ensures a == Approve ==> p == SetStatus(Approved)
    ensures a == Reject ==> p == SetStatus(Rejected)
    ensures a == Promote ==> p == SetRole(AdminRole)
    ensures a == Demote ==> p == SetRole(UserRole)
  {
    match a
    case Approve => SetStatus(Approved)
    case Reject => SetStatus(Rejected)
    case Promote => SetRole(AdminRole)
    case Demote => SetRole(UserRole)
  }

  /** `update({ status })` or `update({ role })` on one row: the named
      column changes and no other. */
  function Apply(u: UserProfile, p: Patch): (r: UserProfile)
    ensures r.id == u.id && r.name == u.name && r.phone == u.phone && r.createdAt == u.createdAt
    ensures p.SetStatus? ==> r.status == Some(p.status) && r.role == u.role
    ensures p.SetRole? ==> r.role == Some(p.role) && r.status == u.status
  {
    match p
    case SetStatus(s) => u.(status := Some(s))
    case SetRole(role) => u.(role := Some(role))
  }

  /** The table after `update(...).eq("id", id)`. */
  function UpdateWhere(t: seq<UserProfile>, id: UserId, p: Patch): (r: seq<UserProfile>)
    ensures |r| == |t|
    ensures forall i :: 0 <= i < |t| && t[i].id != id ==> r[i] == t[i]
    ensures forall i :: 0 <= i < |t| && t[i].id == id ==> r[i] == Apply(t[i], p)
  {
    if t == [] then []
    else [if t[0].id == id then Apply(t[0], p) else t[0]] + UpdateWhere(t[1..], id, p)
  }

  /** No two rows share an id. */
  predicate UniqueIds(t: seq<UserProfile>) {
    forall i, j :: 0 <= i < j < |t| ==> t[i].id != t[j].id
  }

  /** With unique ids an update touches exactly the one row with the id. */
  lemma UpdateOne(t: seq<UserProfile>, k: nat, p: Patch)
    requires UniqueIds(t) && k < |t|
    ensures UpdateWhere(t, t[k].id, p) == t[k := Apply(t[k], p)]
  {
  }

  /** Replacing one row changes a section's size by what leaves and what enters it. */
  lemma WithStatusReplace(t: seq<UserProfile>, k: nat, x: UserProfile, st: string)
    requires k < |t|
    ensures |WithStatus(t[k := x], st)| ==
      |WithStatus(t, st)| - (if t[k].status == Some(st) then 1 else 0) + (if x.status == Some(st) then 1 else 0)
  {
    assert t == t[..k] + [t[k]] + t[k + 1..];
    assert t[k := x] == t[..k] + [x] + t[k + 1..];
    WithStatusAppend(t[..k] + [t[k]], t[k + 1..], st);
    WithStatusAppend(t[..k], [t[k]], st);
    WithStatusAppend(t[..k] + [x], t[k + 1..], st);
    WithStatusAppend(t[..k], [x], st);
  }

  /** Approving a pending user moves exactly one row from the pending
      section to the approved one and leaves the rejected section's size. */
  lemma ApproveMovesOne(t: seq<UserProfile>, k: nat)
    requires UniqueIds(t) && k < |t| && t[k].status == Some(Pending)
    ensures var t' := UpdateWhere(t, t[k].id, PatchFor(Approve));
      && |WithStatus(t', Pending)| == |WithStatus(t, Pending)| - 1
      && |WithStatus(t', Approved)| == |WithStatus(t, Approved)| + 1
      && |WithStatus(t', Rejected)| == |WithStatus(t, Rejected)|
  {
    var x := Apply(t[k], PatchFor(Approve));
    UpdateOne(t, k, PatchFor(Approve));
    WithStatusReplace(t, k, x, Pending);
    WithStatusReplace(t, k, x, Approved);
    WithStatusReplace(t, k, x, Rejected);
  }

  /** An admin looking at their own row is offered nothing that would take
      their admin role away. */
  lemma NeverLowersOwnRole(viewer: Profile, u: UserProfile, a: Action)
    requires u.id == viewer.id && u.role == Some(AdminRole)
    requires a in ActionsFor(viewer, u)
    ensures PatchFor(a) != SetRole(UserRole)
  {
  }

  /** Promoting a user offers the demotion back to any other admin, and the
      demotion restores the row as it was. */
  lemma PromoteThenDemote(viewer: Profile, u: UserProfile)
    requires Promote in ActionsFor(viewer, u) && u.id != viewer.id
    ensures var v := Apply(u, PatchFor(Promote));
      Demote in ActionsFor(viewer, v) && Apply(v, PatchFor(Demote)) == u
  {
  }

  /** `rows` reversed. */
  function Reverse(rows: seq<UserProfile>): (r: seq<UserProfile>)
    ensures |r| == |rows|
    ensures forall i :: 0 <= i < |rows| ==> r[i] == rows[|rows| - 1 - i]
  {
    if rows == [] then [] else Reverse(rows[1..]) + [rows[0]]
  }

  /** Rows in the order they were created. */
  predicate OldestFirst(t: seq<UserProfile>) {
    forall i, j :: 0 <= i < j < |t| ==> t[i].createdAt <= t[j].createdAt
  }

  /** `order("created_at", { ascending: false })` over a table kept in
      creation order: the same rows, newest first. */
  function NewestFirst(t: seq<UserProfile>): (r: seq<UserProfile>)
    ensures multiset(r) == multiset(t)
    ensures OldestFirst(t) ==> forall i, j :: 0 <= i < j < |r| ==> r[i].createdAt >= r[j].createdAt
  {
    ReverseSameRows(t);
    Reverse(t)
  }

  lemma {:induction false} ReverseSameRows(t: seq<UserProfile>)
    ensures multiset(Reverse(t)) == multiset(t)
  {
    if t != [] {
      ReverseSameRows(t[1..]);
      assert t == [t[0]] + t[1..];
    }
  }

  /** An update leaves every row's creation time, so the table stays in
      creation order. */
  lemma UpdateKeepsOrder(t: seq<UserProfile>, id: UserId, p: Patch)
    requires OldestFirst(t)
    ensures OldestFirst(UpdateWhere(t, id, p))
  {
  }

  /** The state of the panel together with the `profiles` table. */
  class AdminDashboard {
    /** The signed-in profile, as the auth context gives it. */
    const viewer: Option<Profile>
    /** `profiles`, in creation order. */
    var table: seq<UserProfile>
    var users: seq<UserProfile>
    var loading: bool

    ghost predicate Valid()
      reads this`table
    {
      UniqueIds(table) && OldestFirst(table)
    }

    constructor (v: Option<Profile>, rows: seq<UserProfile>)
      requires UniqueIds(rows) && OldestFirst(rows)
      ensures Valid()
      ensures viewer == v && table == rows && users == [] && loading
    {
      viewer := v;
      table := rows;
      users := [];
      loading := true;
    }

    /** `fetchUsers`: `ok` says whether the query answered with data; any
        answer, even an empty one, replaces the list, while an error keeps
        it. Loading ends either way. */
    method FetchUsers(ok: bool)
      modifies this`users, this`loading
      ensures !loading
      ensures users == if ok then old(NewestFirst(table)) else old(users)
    {
      loading := true;
      if ok {
        users := NewestFirst(table);
      }
      loading := false;
    }

    /** The shared shape of `updateStatus` and `updateRole`: on a write
        error nothing changes and nothing is refetched. */
    method Update(userId: UserId, p: Patch, writeOk: bool, fetchOk: bool)
      requires Valid()
      modifies this`table, this`users, this`loading
      ensures Valid()
      ensures table == if writeOk then UpdateWhere(old(table), userId, p) else old(table)
      ensures !writeOk ==> users == old(users) && loading == old(loading)
      ensures writeOk ==> !loading && users == if fetchOk then NewestFirst(table) else old(users)
    {
      if !writeOk {
        return;
      }
      UpdateKeepsIds(table, userId, p);
      UpdateKeepsOrder(table, userId, p);
      table := UpdateWhere(table, userId, p);
      FetchUsers(fetchOk);
    }

    /** `updateStatus`. */
    method UpdateStatus(userId: UserId, status: string, writeOk: bool, fetchOk: bool)
      requires Valid()
      modifies this`table, this`users, this`loading
      ensures Valid()
      ensures table == if writeOk then UpdateWhere(old(table), userId, SetStatus(status)) else old(table)
      ensures !writeOk ==> users == old(users) && loading == old(loading)
      ensures writeOk ==> !loading && users == if fetchOk then NewestFirst(table) else old(users)
    {
      Update(userId, SetStatus(status), writeOk, fetchOk);
    }

    /** `updateRole`. */
    method UpdateRole(userId: UserId, role: string, writeOk: bool, fetchOk: bool)
      requires Valid()
      modifies this`table, this`users, this`loading
      ensures Valid()
      ensures table == if writeOk then UpdateWhere(old(table), userId, SetRole(role)) else old(table)
      ensures !writeOk ==> users == old(users) && loading == old(loading)
      ensures writeOk ==> !loading && users == if fetchOk then NewestFirst(table) else old(users)
    {
      Update(userId, SetRole(role), writeOk, fetchOk);
    }

    /** A click on one of the buttons `u`'s card shows: the update it names. */
    method Click(u: UserProfile, a: Action, writeOk: bool, fetchOk: bool)
      requires Valid() && IsAdmin(viewer) && a in ActionsFor(viewer.value, u)
      modifies this`table, this`users, this`loading
      ensures Valid()
      ensures table == if writeOk then UpdateWhere(old(table), u.id, PatchFor(a)) else old(table)
      ensures !writeOk ==> users == old(users) && loading == old(loading)
      ensures writeOk ==> !loading && users == if fetchOk then NewestFirst(table) else old(users)
    {
      match a
      case Approve => UpdateStatus(u.id, Approved, writeOk, fetchOk);
      case Reject => UpdateStatus(u.id, Rejected, writeOk, fetchOk);
      case Promote => UpdateRole(u.id, AdminRole, writeOk, fetchOk);
      case Demote => UpdateRole(u.id, UserRole, writeOk, fetchOk);
    }
  }

  /** An update leaves every row's id. */
  lemma UpdateKeepsIds(t: seq<UserProfile>, id: UserId, p: Patch)
    requires UniqueIds(t)
    ensures UniqueIds(UpdateWhere(t, id, p))
  {
  }
}
