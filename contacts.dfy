/** The emergency-contacts page: a user's list of at most four contacts,
    each with a name, a phone number and one of four categories, with a
    dialog to add or edit a contact and a button to delete one. The
    `emergency_contacts` table is a sequence of rows in creation order. */
module Contacts {
  import opened Base
  import opened Auth

  /** At most this many contacts may be added. */
  const MaxContacts := 4

  datatype CategoryInfo = CategoryInfo(value: string, caption: string)

  /** `CATEGORIES`, in the order the form offers them. */
  const Categories: seq<CategoryInfo> := [
    CategoryInfo("security", "Hospital Security"),
    CategoryInfo("colleague", "Colleague"),
    CategoryInfo("superintendent", "Superintendent / Duty Officer"),
    CategoryInfo("family", "Family Member")
  ]

  /** A row of `emergency_contacts`. Ids are issued in creation order. */
  datatype Contact = Contact(id: nat, owner: UserId, name: string, phone: string, category: string)

  /** What a save reports (the toast it shows, or none). */
  datatype SaveOutcome = Ignored | LimitReached | Failed | Updated | Added

  /** The index of the first category whose value is `cat`, if any. */
  function FindCategory(cats: seq<CategoryInfo>, cat: string): (r: Option<nat>)
    ensures r.Some? ==> r.value < |cats| && cats[r.value].value == cat
    ensures r.Some? ==> forall j :: 0 <= j < r.value ==> cats[j].value != cat
    ensures r.None? ==> forall j :: 0 <= j < |cats| ==> cats[j].value != cat
  {
    if cats == [] then None
    else if cats[0].value == cat then Some(0)
    else match FindCategory(cats[1..], cat)
      case None => None
      case Some(k) => Some(k + 1)
  }

  /** `getCategoryInfo`: the category with value `cat`, or the first one
      ("security") when there is none. */
  function CategoryInfoOf(cat: string): (info: CategoryInfo)
    ensures info in Categories
    ensures (exists j :: 0 <= j < |Categories| && Categories[j].value == cat) ==> info.value == cat
    ensures (forall j :: 0 <= j < |Categories| ==> Categories[j].value != cat) ==> info == Categories[0]
  {
    match FindCategory(Categories, cat)
    case Some(k) => Categories[k]
    case None => Categories[0]
  }

  /** Contact ids strictly increase along the table: rows are kept in the
      order they were created, and no id is used twice. */
  predicate Increasing(t: seq<Contact>) {
    forall i, j :: 0 <= i < j < |t| ==> t[i].id < t[j].id
  }

  /** Ids increase along the table and stay below `next`, the id the table
      gives the next row it creates. */
  predicate IdsBelow(t: seq<Contact>, next: nat) {
    Increasing(t) && forall c :: c in t ==> c.id < next
  }

  /** The contacts of user `u`, in table order: what the page fetches. */
  function OwnedBy(t: seq<Contact>, u: UserId): (r: seq<Contact>)
    ensures |r| <= |t|
    ensures forall c {:trigger c in r} :: c in r <==> c in t && c.owner == u
  {
    if t == [] then []
    else if t[0].owner == u then [t[0]] + OwnedBy(t[1..], u)
    else OwnedBy(t[1..], u)
  }

  /** The table after `update(...).eq("id", id)`: the row with that id gets the
      new name, phone and category, every other row stays as it was. */
  function UpdateById(t: seq<Contact>, id: nat, name: string, phone: string, cat: string): (r: seq<Contact>)
    ensures |r| == |t|
    ensures forall i :: 0 <= i < |t| && t[i].id != id ==> r[i] == t[i]
    ensures forall i :: 0 <= i < |t| && t[i].id == id ==>
      r[i] == Contact(id, t[i].owner, name, phone, cat)
  {
    if t == [] then []
    else
      var c := t[0];
      [if c.id == id then Contact(id, c.owner, name, phone, cat) else c]
      + UpdateById(t[1..], id, name, phone, cat)
  }

  /** The table after `delete().eq("id", id)`: every row without that id, in order. */
  function RemoveById(t: seq<Contact>, id: nat): (r: seq<Contact>)
    ensures |r| <= |t|
    ensures forall c {:trigger c in r} :: c in r <==> c in t && c.id != id
  {
    if t == [] then []
    else if t[0].id == id then RemoveById(t[1..], id)
    else [t[0]] + RemoveById(t[1..], id)
  }

  /** A row created after all the others shows up last in its owner's list. */
  lemma {:induction false} OwnedByAppend(t: seq<Contact>, c: Contact, u: UserId)
    ensures OwnedBy(t + [c], u) == OwnedBy(t, u) + (if c.owner == u then [c] else [])
  {
    if t != [] {
      assert (t + [c])[1..] == t[1..] + [c];
      OwnedByAppend(t[1..], c, u);
    }
  }

  /** Updating a row of the table updates it in its owner's list too: the
      list keeps its length and every other contact. */
  lemma {:induction false} OwnedByUpdate(t: seq<Contact>, u: UserId, id: nat, name: string, phone: string, cat: string)
    ensures OwnedBy(UpdateById(t, id, name, phone, cat), u) == UpdateById(OwnedBy(t, u), id, name, phone, cat)
  {
    if t != [] {
      OwnedByUpdate(t[1..], u, id, name, phone, cat);
      assert UpdateById(t, id, name, phone, cat)[1..] == UpdateById(t[1..], id, name, phone, cat);
    }
  }

  /** Deleting a row of the table removes it from its owner's list, the
      others keeping their order. */
  lemma {:induction false} OwnedByRemove(t: seq<Contact>, u: UserId, id: nat)
    ensures OwnedBy(RemoveById(t, id), u) == RemoveById(OwnedBy(t, u), id)
  {
    if t != [] {
      OwnedByRemove(t[1..], u, id);
    }
  }

  /** Taking one owner's rows keeps ids increasing. */
  lemma {:induction false} OwnedByIncreasing(t: seq<Contact>, u: UserId)
    requires Increasing(t)
    ensures Increasing(OwnedBy(t, u))
  {
    if t != [] {
      OwnedByIncreasing(t[1..], u);
      var rest := OwnedBy(t[1..], u);
      forall c | c in rest ensures t[0].id < c.id {
        var k :| 0 <= k < |t[1..]| && t[1..][k] == c;
        assert t[k + 1] == c;
      }
    }
  }

  /** With ids unique, a delete removes exactly the one contact that has the
      id and leaves the others in order. */
  lemma {:induction false} RemoveOne(t: seq<Contact>, k: nat)
    requires Increasing(t) && k < |t|
    ensures RemoveById(t, t[k].id) == t[..k] + t[k + 1..]
  {
    var tail := t[1..];
    IncreasingTail(t);
    if k == 0 {
      forall i | 0 <= i < |tail| ensures tail[i].id != t[0].id {
        assert tail[i] == t[i + 1];
      }
      RemoveAbsent(tail, t[0].id);
      assert t[..0] + t[1..] == tail;
    } else {
      var id := t[k].id;
      assert tail[k - 1] == t[k];
      assert RemoveById(t, id) == [t[0]] + RemoveById(tail, id);
      RemoveOne(tail, k - 1);
      assert tail[..k - 1] == t[1..k];
      assert tail[k..] == t[k + 1..];
      assert t[..k] == [t[0]] + t[1..k];
    }
  }

  lemma IncreasingTail(t: seq<Contact>)
    requires Increasing(t) && t != []
    ensures Increasing(t[1..])
  {
  }

  /** Deleting an id no row has changes nothing. */
  lemma {:induction false} RemoveAbsent(t: seq<Contact>, id: nat)
    requires forall i :: 0 <= i < |t| ==> t[i].id != id
    ensures RemoveById(t, id) == t
  {
    if t != [] {
      RemoveAbsent(t[1..], id);
    }
  }

  /** With ids unique, an edit changes exactly the one contact that has the id. */
  lemma UpdateOne(t: seq<Contact>, k: nat, name: string, phone: string, cat: string)
    requires Increasing(t) && k < |t|
    ensures UpdateById(t, t[k].id, name, phone, cat)
         == t[k := Contact(t[k].id, t[k].owner, name, phone, cat)]
  {
  }

  /** Which way `handleSave` goes: nothing happens without a signed-in user
      or with a name or phone that is blank once trimmed; a new contact is
      refused once the list holds `MaxContacts`; otherwise the write decides
      between the error toast and an update or an add. */
  function SaveDecision(signedIn: bool, editing: bool, name: string, phone: string, count: nat, writeOk: bool): (o: SaveOutcome)
    ensures o == Ignored <==> !signedIn || AllTrimmable(name) || AllTrimmable(phone)
    ensures o == LimitReached <==> o != Ignored && !editing && count >= MaxContacts
    ensures o == Failed <==> o !in {Ignored, LimitReached} && !writeOk
    ensures o == Updated <==> o != Ignored && editing && writeOk
    ensures o == Added <==> o != Ignored && !editing && count < MaxContacts && writeOk
  {
    if !signedIn || Trim(name) == [] || Trim(phone) == [] then Ignored
    else if editing then (if writeOk then Updated else Failed)
    else if count >= MaxContacts then LimitReached
    else if writeOk then Added
    else Failed
  }

  /** The state of the contacts page together with the table behind it. */
  class ContactsPage {
    /** The signed-in user, as the auth context gives it. */
    const user: Option<User>
    /** `emergency_contacts`, in creation order. */
    var table: seq<Contact>
    /** The id the table gives the next row it creates. */
    var nextId: nat
    /** The list on screen. */
    var contacts: seq<Contact>
    var dialogOpen: bool
    var editing: Option<Contact>
    var name: string
    var phone: string
    var category: string

    ghost predicate Valid()
      reads this`table, this`nextId
    {
      IdsBelow(table, nextId)
    }

    /** The list on screen is the signed-in user's rows of the table. */
    ghost predicate Synced()
      reads this
    {
      user.Some? && contacts == OwnedBy(table, user.value.id)
    }

    constructor (u: Option<User>, rows: seq<Contact>, next: nat)
      requires IdsBelow(rows, next)
      ensures Valid()
      ensures user == u && table == rows && nextId == next
      ensures contacts == [] && !dialogOpen && editing.None?
      ensures name == "" && phone == "" && category == Categories[0].value
    {
      user := u;
      table := rows;
      nextId := next;
      contacts := [];
      dialogOpen := false;
      editing := None;
      name := "";
      phone := "";
      category := Categories[0].value;
    }

    /** `fetchContacts`: with a signed-in user and a query that answers,
        show that user's rows in creation order; otherwise keep the list. */
    method FetchContacts(ok: bool)
      modifies this`contacts
      ensures contacts == if user.Some? && ok then OwnedBy(table, user.value.id) else old(contacts)
    {
      if user.None? {
        return;
      }
      if ok {
        contacts := OwnedBy(table, user.value.id);
      }
    }

    /** `openAdd`: an empty form for a new contact of the first category. */
    method OpenAdd()
      modifies this`editing, this`name, this`phone, this`category, this`dialogOpen
      ensures editing.None? && name == "" && phone == ""
      ensures category == Categories[0].value && dialogOpen
    {
      editing := None;
      name := "";
      phone := "";
      category := Categories[0].value;
      dialogOpen := true;
    }

    /** `openEdit`: the form loaded with exactly the contact's fields. */
    method OpenEdit(c: Contact)
      modifies this`editing, this`name, this`phone, this`category, this`dialogOpen
      ensures editing == Some(c) && name == c.name && phone == c.phone
      ensures category == c.category && dialogOpen
    {
      editing := Some(c);
      name := c.name;
      phone := c.phone;
      category := c.category;
      dialogOpen := true;
    }

    /** The table's `update(...).eq("id", id)` of the form's category and the
        given name and phone. */
    method TableUpdate(id: nat, n: string, p: string)
      requires Valid()
      modifies this`table
      ensures Valid()
      ensures table == UpdateById(old(table), id, n, p, category)
    {
      UpdateKeepsIds(table, nextId, id, n, p, category);
      table := UpdateById(table, id, n, p, category);
    }

    /** The table's `insert` of a row owned by the user: it gets the next id
        and goes at the end. */
    method TableInsert(n: string, p: string)
      requires Valid() && user.Some?
      modifies this`table, this`nextId
      ensures Valid()
      ensures nextId == old(nextId) + 1
      ensures table == old(table) + [Contact(old(nextId), user.value.id, n, p, category)]
    {
      var row := Contact(nextId, user.value.id, n, p, category);
      AppendKeepsIds(table, nextId, row);
      table := table + [row];
      nextId := nextId + 1;
    }

    /** `handleSave`. `writeOk` says whether the table accepted the insert or
        update, `fetchOk` whether the refetch that follows answered. The
        outcome is the one `SaveDecision` picks; an update rewrites the edited
        row, an add appends a row owned by the user under the next id, and
        either closes the dialog and refetches. Any other outcome changes
        nothing. */
    method HandleSave(writeOk: bool, fetchOk: bool) returns (outcome: SaveOutcome)
      requires Valid()
      modifies this`table, this`nextId, this`contacts, this`dialogOpen
      ensures Valid()
      ensures outcome == old(SaveDecision(user.Some?, editing.Some?, name, phone, |contacts|, writeOk))
      ensures outcome !in {Updated, Added} ==>
        table == old(table) && nextId == old(nextId)
        && contacts == old(contacts) && dialogOpen == old(dialogOpen)
      ensures outcome == Updated ==>
        && nextId == old(nextId)
        && table == old(UpdateById(table, editing.value.id, Trim(name), Trim(phone), category))
      ensures outcome == Added ==>
        && nextId == old(nextId) + 1
        && table == old(table + [Contact(nextId, user.value.id, Trim(name), Trim(phone), category)])
      ensures outcome in {Updated, Added} ==>
        !dialogOpen && contacts == if fetchOk then OwnedBy(table, user.value.id) else old(contacts)
      ensures old(Synced()) && fetchOk && outcome == Updated ==>
        contacts == old(UpdateById(contacts, editing.value.id, Trim(name), Trim(phone), category))
      ensures old(Synced()) && fetchOk && outcome == Added ==>
        && contacts == old(contacts + [Contact(nextId, user.value.id, Trim(name), Trim(phone), category)])
        && |contacts| <= MaxContacts
    {
      var n, p := Trim(name), Trim(phone);
      if user.None? || n == [] || p == [] {
        return Ignored;
      }
      if editing.Some? {
        if !writeOk {
          return Failed;
        }
        OwnedByUpdate(table, user.value.id, editing.value.id, n, p, category);
        TableUpdate(editing.value.id, n, p);
        outcome := Updated;
      } else {
        if |contacts| >= MaxContacts {
          return LimitReached;
        }
        if !writeOk {
          return Failed;
        }
        OwnedByAppend(table, Contact(nextId, user.value.id, n, p, category), user.value.id);
        TableInsert(n, p);
        outcome := Added;
      }
      dialogOpen := false;
      FetchContacts(fetchOk);
    }

    /** `handleDelete`: the delete's own failure is not checked; the list is
        refetched either way. */
    method HandleDelete(id: nat, deleteOk: bool, fetchOk: bool)
      requires Valid()
      modifies this`table, this`contacts
      ensures Valid()
      ensures table == if deleteOk then RemoveById(old(table), id) else old(table)
      ensures contacts == if user.Some? && fetchOk then OwnedBy(table, user.value.id) else old(contacts)
      ensures old(Synced()) && deleteOk && fetchOk ==> contacts == RemoveById(old(contacts), id)
    {
      if deleteOk {
        OwnedByRemove(table, if user.Some? then user.value.id else "", id);
        RemoveKeepsIds(table, id, nextId);
        table := RemoveById(table, id);
      }
      FetchContacts(fetchOk);
    }
  }

  /** Deleting rows keeps ids increasing and below the next id. */
  lemma {:induction false} RemoveKeepsIds(t: seq<Contact>, id: nat, next: nat)
    requires IdsBelow(t, next)
    ensures IdsBelow(RemoveById(t, id), next)
  {
    if t != [] {
      IdsBelowTail(t, next);
      RemoveKeepsIds(t[1..], id, next);
      if t[0].id != id {
        ConsIncreasing(t[0], RemoveById(t[1..], id));
      }
    }
  }

  /** The rows after the first keep ids below `next`, all above the first one's. */
  lemma IdsBelowTail(t: seq<Contact>, next: nat)
    requires IdsBelow(t, next) && t != []
    ensures IdsBelow(t[1..], next)
    ensures forall c :: c in t[1..] ==> t[0].id < c.id
  {
    IncreasingTail(t);
    forall c | c in t[1..] ensures t[0].id < c.id {
      var k :| 0 <= k < |t[1..]| && t[1..][k] == c;
      assert t[k + 1] == c;
    }
  }

  /** A row whose id is below every id of an increasing list can go in front of it. */
  lemma ConsIncreasing(c: Contact, rest: seq<Contact>)
    requires Increasing(rest)
    requires forall d :: d in rest ==> c.id < d.id
    ensures Increasing([c] + rest)
  {
    var r := [c] + rest;
    forall i, j | 0 <= i < j < |r| ensures r[i].id < r[j].id {
      assert r[j] == rest[j - 1];
      if i > 0 {
        assert r[i] == rest[i - 1];
      }
    }
  }

  /** An edit keeps every row's id. */
  lemma UpdateKeepsIds(t: seq<Contact>, next: nat, id: nat, name: string, phone: string, cat: string)
    requires IdsBelow(t, next)
    ensures IdsBelow(UpdateById(t, id, name, phone, cat), next)
  {
  }

  /** A row created with the next id goes at the end of the table. */
  lemma AppendKeepsIds(t: seq<Contact>, next: nat, c: Contact)
    requires IdsBelow(t, next) && c.id == next
    ensures IdsBelow(t + [c], next + 1)
  {
  }
}
