/** The static role and permission tables of app/utils/constants.ts. They
    are plain data; the lemmas state the set relations between them. */
module Constants {

  /** `ROLES`: constant key to role name. */
  const ROLES: map<string, string> := map["ADMIN" := "admin", "USER" := "user"]

  /** `PERMISSIONS`: constant key to permission name. */
  const PERMISSIONS: map<string, string> := map[
    "VIEW_PROFILE" := "view_profile",
    "EDIT_PROFILE" := "edit_profile",
    "BOOK_TICKETS" := "book_tickets",
    "CANCEL_BOOKING" := "cancel_booking",
    "VIEW_BOOKING_HISTORY" := "view_booking_history",
    "MANAGE_MOVIES" := "manage_movies",
    "MANAGE_THEATERS" := "manage_theaters",
    "MANAGE_USERS" := "manage_users",
    "VIEW_REPORTS" := "view_reports",
    "ASSIGN_MOVIES" := "assign_movies"]

  const USER_PERMISSIONS: seq<string> := [
    PERMISSIONS["VIEW_PROFILE"],
    PERMISSIONS["EDIT_PROFILE"],
    PERMISSIONS["BOOK_TICKETS"],
    PERMISSIONS["CANCEL_BOOKING"],
    PERMISSIONS["VIEW_BOOKING_HISTORY"]]

  const ADMIN_PERMISSIONS: seq<string> := USER_PERMISSIONS + [
    PERMISSIONS["MANAGE_MOVIES"],
    PERMISSIONS["MANAGE_THEATERS"],
    PERMISSIONS["MANAGE_USERS"],
    PERMISSIONS["VIEW_REPORTS"],
    PERMISSIONS["ASSIGN_MOVIES"]]

  /** `ROLE_PERMISSIONS`: role name to its list of permissions. */
  const ROLE_PERMISSIONS: map<string, seq<string>> :=
    map[ROLES["USER"] := USER_PERMISSIONS, ROLES["ADMIN"] := ADMIN_PERMISSIONS]

  /** No permission is listed twice. */
  predicate Distinct(s: seq<string>) {
    forall i, j :: 0 <= i < j < |s| ==> s[i] != s[j]
  }

  /** The user table lists five distinct permissions and the admin table ten. */
  lemma RolePermissionCounts()
    ensures "user" in ROLE_PERMISSIONS && "admin" in ROLE_PERMISSIONS
    ensures |ROLE_PERMISSIONS["user"]| == 5 && Distinct(ROLE_PERMISSIONS["user"])
    ensures |ROLE_PERMISSIONS["admin"]| == 10 && Distinct(ROLE_PERMISSIONS["admin"])
  {
    var a := ROLE_PERMISSIONS["admin"];
    assert a == ["view_profile", "edit_profile", "book_tickets", "cancel_booking",
                 "view_booking_history", "manage_movies", "manage_theaters",
                 "manage_users", "view_reports", "assign_movies"];
  }

  /** Every permission the user role has, the admin role has too. */
  lemma UserPermissionsWithinAdmin()
    ensures "user" in ROLE_PERMISSIONS && "admin" in ROLE_PERMISSIONS
    ensures forall p :: p in ROLE_PERMISSIONS["user"] ==> p in ROLE_PERMISSIONS["admin"]
  {
  }

  /** Every listed permission is one of the values of `PERMISSIONS`. */
  lemma ListedPermissionsAreKnown()
    ensures forall r, p :: r in ROLE_PERMISSIONS && p in ROLE_PERMISSIONS[r] ==> p in PERMISSIONS.Values
  {
    assert PERMISSIONS["MANAGE_MOVIES"] in PERMISSIONS.Values;
    assert PERMISSIONS["MANAGE_THEATERS"] in PERMISSIONS.Values;
    assert PERMISSIONS["MANAGE_USERS"] in PERMISSIONS.Values;
    assert PERMISSIONS["VIEW_REPORTS"] in PERMISSIONS.Values;
    assert PERMISSIONS["ASSIGN_MOVIES"] in PERMISSIONS.Values;
    assert PERMISSIONS["VIEW_PROFILE"] in PERMISSIONS.Values;
    assert PERMISSIONS["EDIT_PROFILE"] in PERMISSIONS.Values;
    assert PERMISSIONS["BOOK_TICKETS"] in PERMISSIONS.Values;
    assert PERMISSIONS["CANCEL_BOOKING"] in PERMISSIONS.Values;
    assert PERMISSIONS["VIEW_BOOKING_HISTORY"] in PERMISSIONS.Values;
  }

  /** `ROLES` names exactly `admin` and `user`, the keys of `ROLE_PERMISSIONS`. */
  lemma RoleNamesMatchTable()
    ensures ROLES.Values == {"admin", "user"}
    ensures ROLE_PERMISSIONS.Keys == ROLES.Values
  {
    assert ROLES["ADMIN"] in ROLES.Values;
    assert ROLES["USER"] in ROLES.Values;
  }
}
