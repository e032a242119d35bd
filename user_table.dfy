/**
  The `user` table as the authentication code uses it: rows looked up by Clerk id, inserted
  with the next autoincrement id, and renamed in place. `Table` is a snapshot of the rows;
  `Users` is the table itself, whose methods change it.
*/
module UserTable {
  import opened Wrappers

  /** A user row: autoincrement id, Clerk id (unique), email and username. */
  datatype User = User(id: int, clerkId: string, email: string, username: string)

  /** The rows keyed by Clerk id, and the id the next insert receives. */
  datatype Table = Table(rows: map<string, User>, nextId: int)

  /** Every row sits under its own Clerk id, and ids are positive, distinct and below `nextId`. */
  ghost predicate Keyed(t: Table) {
    && 1 <= t.nextId
    && (forall k :: k in t.rows ==> t.rows[k].clerkId == k && 1 <= t.rows[k].id < t.nextId)
    && (forall k1, k2 :: k1 in t.rows && k2 in t.rows && k1 != k2 ==> t.rows[k1].id != t.rows[k2].id)
  }

  /** `prisma.user.findUnique({ where: { clerkId } })`. */
  function Find(t: Table, clerkId: string): (r: Option<User>)
    ensures r.Some? <==> clerkId in t.rows
    ensures r.Some? ==> r.value == t.rows[clerkId]
    ensures Keyed(t) && r.Some? ==> r.value.clerkId == clerkId
  {
    if clerkId in t.rows then Some(t.rows[clerkId]) else None
  }

  /** `prisma.user.create`: a new row with the next id; nothing else changes. */
  function Insert(t: Table, clerkId: string, email: string, username: string): (r: Table)
    requires clerkId !in t.rows
    ensures r.rows.Keys == t.rows.Keys + {clerkId}
    ensures r.rows[clerkId] == User(t.nextId, clerkId, email, username)
    ensures forall k :: k in t.rows ==> r.rows[k] == t.rows[k]
    ensures r.nextId == t.nextId + 1
    ensures Keyed(t) ==> Keyed(r)
  {
    var r := Table(t.rows[clerkId := User(t.nextId, clerkId, email, username)], t.nextId + 1);
    assert Keyed(t) ==> Keyed(r) by {
      if Keyed(t) {
        forall k | k in r.rows ensures r.rows[k].clerkId == k && 1 <= r.rows[k].id < r.nextId {
          if k != clerkId { assert r.rows[k] == t.rows[k]; }
        }
      }
    }
    r
  }

  /**
    `prisma.user.update({ where: { clerkId }, data: { username } })`: `None` when there is no
    such row (the call throws); otherwise only that row's username changes.
  */
  function Rename(t: Table, clerkId: string, username: string): (r: Option<Table>)
    ensures r.Some? <==> clerkId in t.rows
    ensures r.Some? ==> r.value.rows.Keys == t.rows.Keys && r.value.nextId == t.nextId
    ensures r.Some? ==> r.value.rows[clerkId] == t.rows[clerkId].(username := username)
    ensures r.Some? ==> forall k :: k in t.rows && k != clerkId ==> r.value.rows[k] == t.rows[k]
    ensures r.Some? && Keyed(t) ==> Keyed(r.value)
  {
    if clerkId in t.rows then Some(Table(t.rows[clerkId := t.rows[clerkId].(username := username)], t.nextId))
    else None
  }

  /** The user table, updated in place. */
  class Users {
    var rows: map<string, User>
    var nextId: int

    function Snapshot(): Table
      reads this
    {
      Table(rows, nextId)
    }

    ghost predicate Valid()
      reads this
    {
      Keyed(Snapshot())
    }

    constructor ()
      ensures Valid() && rows == map[] && nextId == 1
    {
      rows := map[];
      nextId := 1;
    }

    /** Inserts a row for a Clerk id that has none. */
    method Create(clerkId: string, email: string, username: string) returns (u: User)
      requires Valid() && clerkId !in rows
      modifies this
      ensures Valid()
      ensures Snapshot() == Insert(old(Snapshot()), clerkId, email, username)
      ensures u == rows[clerkId] && u.id == old(nextId)
    {
      var t := Insert(Snapshot(), clerkId, email, username);
      rows, nextId := t.rows, t.nextId;
      u := rows[clerkId];
    }

    /** Renames the row of a Clerk id; `None`, and no change, when there is no such row. */
    method UpdateUsername(clerkId: string, username: string) returns (u: Option<User>)
      requires Valid()
      modifies this
      ensures Valid()
      ensures Rename(old(Snapshot()), clerkId, username).Some? ==>
        Snapshot() == Rename(old(Snapshot()), clerkId, username).value
      ensures Rename(old(Snapshot()), clerkId, username).None? ==> Snapshot() == old(Snapshot())
      ensures u.Some? <==> clerkId in old(rows)
      ensures u.Some? ==> u.value == rows[clerkId]
    {
      var t := Rename(Snapshot(), clerkId, username);
      if t.Some? {
        rows := t.value.rows;
        u := Some(rows[clerkId]);
      } else {
        u := None;
      }
    }
  }
}
