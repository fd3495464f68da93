/**
 * `models.py`: the sqlite `users` table of the approval service. Rows are keyed by their
 * unique email; `id` is the AUTOINCREMENT key, which a refused insert does not consume; the
 * table's CHECK constraint admits only the three roles; `created_at` is the database clock,
 * passed in as `now`.
 */
module ApprovalStore {
  import opened Wrappers

  /** The roles the CHECK constraint admits. */
  const Roles: set<string> := {"admin", "driver", "customer"}

  /** One row: `id, email, role, is_approved, created_at`. */
  datatype Row = Row(id: nat, email: string, role: string, isApproved: int, createdAt: string)

  /** The `is_approved` that `add_user` stores: an admin waits for approval, everyone else is approved at once. */
  function InitialApproval(role: string): (a: int)
    ensures a == 0 <==> role == "admin"
    ensures a == 0 || a == 1
  {
    if role == "admin" then 0 else 1
  }

  /** The table after `UPDATE users SET is_approved = 1 WHERE email = ?`. */
  function WithApproval(rows: map<string, Row>, email: string): (r: map<string, Row>)
    ensures r.Keys == rows.Keys
    ensures forall e :: e in rows && e != email ==> r[e] == rows[e]
    ensures email in rows ==> r[email] == rows[email].(isApproved := 1)
  {
    if email in rows then rows[email := rows[email].(isApproved := 1)] else rows
  }

  /** Approving twice leaves the table as approving once. */
  lemma ApprovalIdempotent(rows: map<string, Row>, email: string)
    ensures WithApproval(WithApproval(rows, email), email) == WithApproval(rows, email)
  {
  }

  class UserTable {
    var rows: map<string, Row>
    /** The AUTOINCREMENT counter: the id the next stored row gets. */
    var nextId: nat

    /** Each row sits under its own email, ids are distinct and below the counter, roles pass the CHECK, flags are 0 or 1. */
    ghost predicate Valid()
      reads this
    {
      && nextId >= 1
      && (forall e :: e in rows ==>
            rows[e].email == e && 1 <= rows[e].id < nextId && rows[e].role in Roles
            && (rows[e].isApproved == 0 || rows[e].isApproved == 1))
      && (forall e1, e2 :: e1 in rows && e2 in rows && e1 != e2 ==> rows[e1].id != rows[e2].id)
    }

    /** `init_db`: an empty table. */
    constructor ()
      ensures Valid() && rows == map[] && nextId == 1
    {
      rows := map[];
      nextId := 1;
    }

    /**
     * `add_user(email, role)`: the new row's id, or None when the insert violates the UNIQUE
     * email or the role CHECK, in which case nothing is stored.
     */
    method AddUser(email: string, role: string, now: string) returns (id: Option<nat>)
      requires Valid()
      modifies this
      ensures Valid()
      ensures email in old(rows) || role !in Roles ==>
        id.None? && rows == old(rows) && nextId == old(nextId)
      ensures email !in old(rows) && role in Roles ==>
        && id == Some(old(nextId)) && nextId == old(nextId) + 1
        && rows == old(rows)[email := Row(old(nextId), email, role, InitialApproval(role), now)]
    {
      if email in rows || role !in Roles {
        return None;
      }
      rows := rows[email := Row(nextId, email, role, InitialApproval(role), now)];
      id := Some(nextId);
      nextId := nextId + 1;
    }

    /** `approve_user(email)`: whether a row was updated; the row, if any, is approved afterwards. */
    method ApproveUser(email: string) returns (ok: bool)
      requires Valid()
      modifies this
      ensures Valid()
      ensures ok <==> email in old(rows)
      ensures rows == WithApproval(old(rows), email) && nextId == old(nextId)
      ensures ok ==> IsUserApproved(email) == Some(true)
    {
      ok := email in rows;
      rows := WithApproval(rows, email);
    }

    /** `is_user_approved(email)`: None for an unknown email, otherwise whether the flag is set. */
    function IsUserApproved(email: string): (a: Option<bool>)
      reads this
      ensures a.None? <==> email !in rows
      ensures a == Some(true) <==> email in rows && rows[email].isApproved != 0
      ensures a == Some(false) <==> email in rows && rows[email].isApproved == 0
    {
      if email !in rows then None else Some(rows[email].isApproved != 0)
    }

    /** `get_user_by_email(email)`: None for an unknown email, otherwise the row stored under it. */
    function GetUserByEmail(email: string): (u: Option<Row>)
      reads this
      ensures u.None? <==> email !in rows
      ensures u.Some? ==> u.value == rows[email]
      ensures u.Some? && Valid() ==> u.value.email == email && u.value.role in Roles
    {
      if email in rows then Some(rows[email]) else None
    }

    /** Inserting the same email twice: the second insert is refused and the first row stays. */
    method AddTwice(email: string, role: string, role2: string, now: string, later: string) returns (first: Option<nat>, second: Option<nat>)
      requires Valid() && email !in rows && role in Roles
      modifies this
      ensures Valid()
      ensures first == Some(old(nextId)) && second.None?
      ensures rows == old(rows)[email := Row(old(nextId), email, role, InitialApproval(role), now)]
    {
      first := AddUser(email, role, now);
      second := AddUser(email, role2, later);
    }
  }
}
