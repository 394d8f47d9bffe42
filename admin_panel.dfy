/** The user-administration view: the filtered profile list, the counters,
    the action offered per profile and the confirmed status change or delete. */
module AdminPanel {
  import opened Common
  import opened Seqs
  import opened Text
  import opened Store

  /** A profile's status as the view reads it: missing or empty is `active`. */
  function StatusOf(u: Profile): string
  {
    OrDefault(u.status, "active")
  }

  /** The profile counts as active. */
  predicate IsActive(u: Profile)
  {
    StatusOf(u) == "active"
  }

  /** The search, status and role predicates of `filteredUsers`, together.
      A missing email or role reads as `""`. */
  predicate UserMatches(u: Profile, term: string, statusFilter: string, roleFilter: string)
  {
    var email := OrDefault(u.email, "");
    var role := OrDefault(u.role, "");
    var t := Lower(term);
    && (Contains(Lower(email), t) || Contains(Lower(role), t))
    && (statusFilter == "all" || StatusOf(u) == statusFilter)
    && (roleFilter == "all" || role == roleFilter)
  }

  /** `filteredUsers`: the loaded profiles passing all three filters, in order. */
  function FilteredUsers(users: seq<Profile>, term: string, statusFilter: string, roleFilter: string): (r: seq<Profile>)
    ensures IsSubsequence(r, users)
    ensures forall u :: u in r <==> u in users && UserMatches(u, term, statusFilter, roleFilter)
    ensures forall u :: multiset(r)[u] ==
              if UserMatches(u, term, statusFilter, roleFilter) then multiset(users)[u] else 0
  {
    Filter(users, u => UserMatches(u, term, statusFilter, roleFilter))
  }

  /** With an empty search and both selectors on "all", every profile is listed. */
  lemma OpenFiltersKeepEveryUser(users: seq<Profile>)
    ensures FilteredUsers(users, "", "all", "all") == users
  {
    forall u | u in users ensures UserMatches(u, "", "all", "all") {
      EverythingContainsEmpty(Lower(OrDefault(u.email, "")));
    }
    FilterKeepsAll(users, u => UserMatches(u, "", "all", "all"));
  }

  /** A profile without a role is hidden by the role filter "user" (the role
      badge shows "User" for it, but the filter reads the missing role as ""). */
  lemma MissingRoleFailsUserFilter(u: Profile, term: string, statusFilter: string)
    requires u.role.None?
    ensures !UserMatches(u, term, statusFilter, "user")
  {
  }

  /** A profile without a status passes the status filter "active" exactly
      when it passes "all". */
  lemma MissingStatusReadsActive(u: Profile, term: string, roleFilter: string)
    requires u.status.None?
    ensures UserMatches(u, term, "active", roleFilter) <==> UserMatches(u, term, "all", roleFilter)
    ensures !UserMatches(u, term, "inactive", roleFilter)
  {
  }

  /** The confirmed actions of the view. */
  datatype Action = Deactivate | Activate | Delete

  /** `getActionButtons`: an active profile is offered deactivation only;
      any other is offered activation and deletion. */
  function ActionsFor(u: Profile): (r: seq<Action>)
    ensures Deactivate in r <==> IsActive(u)
    ensures Activate in r <==> !IsActive(u)
    ensures Delete in r <==> !IsActive(u)
    ensures |r| == (if IsActive(u) then 1 else 2)
  {
    if IsActive(u) then [Deactivate] else [Activate, Delete]
  }

  /** The counters above the list. */
  function ActiveCount(users: seq<Profile>): nat
  {
    Count(users, IsActive)
  }

  function InactiveCount(users: seq<Profile>): nat
  {
    Count(users, (u: Profile) => u.status == Some("inactive"))
  }

  function AdminCount(users: seq<Profile>): nat
  {
    Count(users, (u: Profile) => u.role == Some("admin"))
  }

  /** Only `"inactive"` counts as inactive while a missing status counts as
      active, so the two counters never exceed the total; they add up to it
      when every status is missing, empty, `active` or `inactive`. */
  lemma StatusCountersBounded(users: seq<Profile>)
    ensures ActiveCount(users) + InactiveCount(users) <= |users|
    ensures (forall u :: u in users ==> IsActive(u) || u.status == Some("inactive")) ==>
              ActiveCount(users) + InactiveCount(users) == |users|
  {
    var inactive := (u: Profile) => u.status == Some("inactive");
    CountSplit(users, IsActive, inactive);
    if forall u :: u in users ==> IsActive(u) || u.status == Some("inactive") {
      FilterDropsAll(users, u => !IsActive(u) && !inactive(u));
    }
  }

  /** Each counter equals the length of the list its selector shows with an
      empty search: "Active" and "Inactive" under the status filter, "Admins"
      under the role filter. */
  lemma CountersMatchFilters(users: seq<Profile>)
    ensures ActiveCount(users) == |FilteredUsers(users, "", "active", "all")|
    ensures InactiveCount(users) == |FilteredUsers(users, "", "inactive", "all")|
    ensures AdminCount(users) == |FilteredUsers(users, "", "all", "admin")|
  {
    forall u | u in users ensures Contains(Lower(OrDefault(u.email, "")), Lower("")) {
      EverythingContainsEmpty(Lower(OrDefault(u.email, "")));
    }
    FilterCongruent(users, IsActive, u => UserMatches(u, "", "active", "all"));
    FilterCongruent(users, (u: Profile) => u.status == Some("inactive"), u => UserMatches(u, "", "inactive", "all"));
    FilterCongruent(users, (u: Profile) => u.role == Some("admin"), u => UserMatches(u, "", "all", "admin"));
  }

  /** Setting the same status twice keeps the last value only. */
  lemma StatusUpdateLastWins(rows: seq<Profile>, userId: Id, s1: string, s2: string)
    ensures WithStatus(WithStatus(rows, userId, s1), userId, s2) == WithStatus(rows, userId, s2)
  {
    var a := WithStatus(WithStatus(rows, userId, s1), userId, s2);
    var b := WithStatus(rows, userId, s2);
    assert |a| == |b|;
    forall i | 0 <= i < |a| ensures a[i] == b[i] {
    }
  }

  /** After deactivation, every row of that user is filtered as inactive and
      is offered activation and deletion. */
  lemma DeactivatedRowsReadInactive(rows: seq<Profile>, userId: Id)
    ensures forall u :: u in WithStatus(rows, userId, "inactive") && u.userId == userId ==>
              !IsActive(u) && ActionsFor(u) == [Activate, Delete]
  {
    var r := WithStatus(rows, userId, "inactive");
    forall u | u in r && u.userId == userId ensures !IsActive(u) {
      var i :| 0 <= i < |r| && r[i] == u;
    }
  }

  /** The profile rows of one user, in order. */
  function RowsOf(rows: seq<Profile>, userId: Id): seq<Profile>
  {
    Filter(rows, (p: Profile) => p.userId == userId)
  }

  /** Deleting a user leaves the rows of every other user exactly as they were. */
  lemma {:induction false} DeleteKeepsOtherUsers(rows: seq<Profile>, userId: Id, other: Id)
    requires other != userId
    ensures RowsOf(WithoutUser(rows, userId), other) == RowsOf(rows, other)
  {
    if rows != [] {
      DeleteKeepsOtherUsers(rows[1..], userId, other);
      var rest := WithoutUser(rows[1..], userId);
      if rows[0].userId != userId {
        assert WithoutUser(rows, userId) == [rows[0]] + rest;
        assert ([rows[0]] + rest)[1..] == rest;
      } else {
        assert WithoutUser(rows, userId) == rest;
      }
    }
  }

  /** A status change before a delete of the same user is invisible afterwards. */
  lemma {:induction false} DeleteAfterStatusUpdate(rows: seq<Profile>, userId: Id, status: string)
    ensures WithoutUser(WithStatus(rows, userId, status), userId) == WithoutUser(rows, userId)
  {
    if rows != [] {
      DeleteAfterStatusUpdate(rows[1..], userId, status);
      assert WithStatus(rows, userId, status)[1..] == WithStatus(rows[1..], userId, status);
    }
  }

  /** The profiles table after `action` succeeds for the rows of `userId`. */
  function AfterAction(rows: seq<Profile>, action: Action, userId: Id): (r: seq<Profile>)
    ensures action != Delete ==> |r| == |rows|
    ensures action != Delete ==> forall i :: 0 <= i < |rows| ==>
              r[i] == if rows[i].userId == userId
                      then rows[i].(status := Some(if action == Deactivate then "inactive" else "active"))
                      else rows[i]
    ensures action == Delete ==> IsSubsequence(r, rows)
    ensures action == Delete ==> forall p: Profile :: p.userId != userId ==> multiset(r)[p] == multiset(rows)[p]
    ensures forall p :: p in r ==> p in rows || (p.userId == userId && p.status == Some(if action == Deactivate then "inactive" else "active"))
    ensures action == Delete ==> forall p :: p in r ==> p.userId != userId
  {
    match action
    case Deactivate => WithStatus(rows, userId, "inactive")
    case Activate => WithStatus(rows, userId, "active")
    case Delete => WithoutUser(rows, userId)
  }

  /** The request `handleUserAction` sends for `action`. */
  method ApplyAction(db: Tables, action: Action, userId: Id, reply: Reply) returns (ok: bool)
    requires db.Valid()
    modifies db
    ensures db.Valid()
    ensures ok <==> reply == Ok
    ensures db.profiles == if ok then AfterAction(old(db.profiles), action, userId) else old(db.profiles)
    ensures db.runners == old(db.runners) && db.raceKits == old(db.raceKits)
    ensures db.representatives == old(db.representatives) && db.kitCollections == old(db.kitCollections)
  {
    match action {
      case Deactivate => ok := db.UpdateStatus(userId, "inactive", reply);
      case Activate => ok := db.UpdateStatus(userId, "active", reply);
      case Delete => ok := db.DeleteProfiles(userId, reply);
    }
  }

  const UnexpectedFetchError := "An unexpected error occurred while fetching users"

  /** The error `fetchUsers` records for the answers to its probe and to its
      full fetch; the probe is checked first. */
  function FetchError(probe: Reply, fetch: Reply): (e: Option<string>)
    ensures e.None? <==> probe == Ok && fetch == Ok
    ensures probe.Failed? ==> e == Some("Database error: " + probe.message)
    ensures probe == Thrown ==> e == Some(UnexpectedFetchError)
    ensures probe == Ok && fetch.Failed? ==> e == Some("Error fetching users: " + fetch.message)
    ensures probe == Ok && fetch == Thrown ==> e == Some(UnexpectedFetchError)
  {
    match probe
    case Failed(m) => Some("Database error: " + m)
    case Thrown => Some(UnexpectedFetchError)
    case Ok =>
      match fetch
      case Failed(m) => Some("Error fetching users: " + m)
      case Thrown => Some(UnexpectedFetchError)
      case Ok => None
  }

  /** The state of the user-administration view. */
  class AdminPanelView {
    var users: seq<Profile>
    var loading: bool
    var error: Option<string>
    var searchTerm: string
    var statusFilter: string
    var roleFilter: string
    var selectedUser: Option<Profile>
    var confirmOpen: bool
    var actionType: Action
    var processing: bool

    constructor ()
      ensures users == [] && loading && error == None
      ensures searchTerm == "" && statusFilter == "all" && roleFilter == "all"
      ensures selectedUser == None && !confirmOpen && actionType == Deactivate && !processing
    {
      users, loading, error := [], true, None;
      searchTerm, statusFilter, roleFilter := "", "all", "all";
      selectedUser, confirmOpen, actionType, processing := None, false, Deactivate, false;
    }

    /** `fetchUsers`: a one-row probe, then the full list. A failure of
        either sets `error` (which switches the view to its setup screen)
        and keeps the list. */
    method FetchUsers(db: Tables, probe: Reply, fetch: Reply)
      modifies this
      ensures !loading && error == FetchError(probe, fetch)
      ensures users == if error.None? then db.profiles else old(users)
      ensures searchTerm == old(searchTerm) && statusFilter == old(statusFilter) && roleFilter == old(roleFilter)
      ensures selectedUser == old(selectedUser) && confirmOpen == old(confirmOpen)
      ensures actionType == old(actionType) && processing == old(processing)
    {
      loading := true;
      error := FetchError(probe, fetch);
      if error.None? {
        users := db.profiles;
      }
      loading := false;
    }

    /** `openConfirmDialog`. */
    method OpenConfirmDialog(u: Profile, action: Action)
      modifies this
      ensures selectedUser == Some(u) && actionType == action && confirmOpen
      ensures users == old(users) && loading == old(loading) && error == old(error) && processing == old(processing)
      ensures searchTerm == old(searchTerm) && statusFilter == old(statusFilter) && roleFilter == old(roleFilter)
    {
      selectedUser := Some(u);
      actionType := action;
      confirmOpen := true;
    }

    /** `handleUserAction`: apply the chosen action to every profile row of the
        selected user. On success the list is reloaded (`probe`, `fetch`) and
        the dialog closes; on failure the dialog stays open with its target. */
    method HandleUserAction(db: Tables, reply: Reply, probe: Reply, fetch: Reply) returns (ok: bool)
      requires db.Valid()
      modifies this, db
      ensures db.Valid()
      ensures db.runners == old(db.runners) && db.raceKits == old(db.raceKits)
      ensures db.representatives == old(db.representatives) && db.kitCollections == old(db.kitCollections)
      ensures actionType == old(actionType)
      ensures old(selectedUser).Some? ==> !processing
      ensures searchTerm == old(searchTerm) && statusFilter == old(statusFilter) && roleFilter == old(roleFilter)
      // no selected profile: nothing happens at all
      ensures old(selectedUser).None? ==>
                !ok && db.profiles == old(db.profiles) && processing == old(processing) && confirmOpen == old(confirmOpen)
                && selectedUser == None && users == old(users) && error == old(error) && loading == old(loading)
      ensures ok <==> old(selectedUser).Some? && reply == Ok
      // the table after the request
      ensures old(selectedUser).Some? ==>
                db.profiles == (if ok then AfterAction(old(db.profiles), actionType, old(selectedUser).value.userId)
                                else old(db.profiles))
      // failure keeps the dialog and its target, and the list
      ensures old(selectedUser).Some? && !ok ==>
                confirmOpen == old(confirmOpen) && selectedUser == old(selectedUser)
                && users == old(users) && error == old(error) && loading == old(loading)
      // success closes the dialog and reloads the list
      ensures ok ==> !confirmOpen && selectedUser == None && !loading
      ensures ok ==> error == FetchError(probe, fetch)
      ensures ok ==> users == if error.None? then db.profiles else old(users)
    {
      ok := false;
      if selectedUser.None? {
        return;
      }
      var target := selectedUser.value.userId;
      processing := true;
      ok := ApplyAction(db, actionType, target, reply);
      if ok {
        FetchUsers(db, probe, fetch);
        confirmOpen := false;
        selectedUser := None;
      }
      processing := false;
    }
  }
}
