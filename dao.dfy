/** The data-access layer: the `users` table with its unique email column,
    the read-only reference tables, and the DAO operations over them
    (app/dao.py; the older copy bench_management_app/app/dao.py has the same
    `UserDAO`).

    The database session is a `Session` object whose `store` the one writing
    operation, `SaveUser`, replaces. The reading operations are functions of
    the store's current contents, so by construction they change nothing.
 */
module Dao {
  import opened Errors

  /** A row of `users` (app/models.py). `password` holds the stored hash. */
  datatype User = User(
    id: nat,
    firstName: string,
    lastName: string,
    email: string,
    password: string,
    designation: string)

  /** The dictionary handed to `save_user`: every column except the id. */
  datatype UserFields = UserFields(
    firstName: string,
    lastName: string,
    email: string,
    password: string,
    designation: string)

  /** The `users` table: its rows in insertion order and the id the next
      inserted row receives. */
  datatype Table = Table(rows: seq<User>, nextId: nat)

  /** The table's constraints: email is unique, and every id is distinct
      and below `nextId`, so `nextId` is always fresh. */
  predicate WellFormed(t: Table) {
    && (forall i, j :: 0 <= i < j < |t.rows| ==> t.rows[i].email != t.rows[j].email)
    && (forall i, j :: 0 <= i < j < |t.rows| ==> t.rows[i].id != t.rows[j].id)
    && (forall i :: 0 <= i < |t.rows| ==> t.rows[i].id < t.nextId)
  }

  // Reference tables, with the columns the DAO reads.
  datatype OptionRow = OptionRow(id: nat, name: string)
  datatype QueryRow = QueryRow(id: nat, optionId: nat, ask: string, orderNum: int)
  datatype DepartmentRow = DepartmentRow(id: nat, name: string)
  datatype DesignationRow = DesignationRow(id: nat, departmentId: nat, title: string)

  // The dataclasses the DAO returns instead of rows.
  datatype DepartmentDTO = DepartmentDTO(id: nat, name: string)
  datatype DesignationDTO = DesignationDTO(id: nat, departmentId: nat, title: string)

  /** Everything the session can see. */
  datatype Store = Store(
    users: Table,
    options: seq<OptionRow>,
    queries: seq<QueryRow>,
    departments: seq<DepartmentRow>,
    designations: seq<DesignationRow>)

  /** A database session; `save_user` is the only operation that writes. */
  class Session {
    var store: Store

    ghost predicate Valid()
      reads this
    {
      WellFormed(store.users)
    }

    constructor (initial: Store)
      requires WellFormed(initial.users)
      ensures Valid() && store == initial
    {
      store := initial;
    }
  }

  // ---------------------------------------------------------------------
  // Query helpers: `.filter(...).first()`, `.filter(...).all()` and a list
  // comprehension, stated once and used by every DAO function.

  /** The first element satisfying `p`, or None when there is none. */
  function First<T>(s: seq<T>, p: T -> bool): (r: Option<T>)
    ensures r.None? <==> forall i :: 0 <= i < |s| ==> !p(s[i])
    ensures r.Some? ==> p(r.value) && exists i :: 0 <= i < |s| && s[i] == r.value && forall j :: 0 <= j < i ==> !p(s[j])
    decreases |s|
  {
    if |s| == 0 then None
    else if p(s[0]) then Some(s[0])
    else
      var r := First(s[1..], p);
      assert r.Some? ==> exists i :: 1 <= i < |s| && s[i] == r.value && forall j :: 0 <= j < i ==> !p(s[j]) by {
        if r.Some? {
          var i :| 0 <= i < |s[1..]| && s[1..][i] == r.value && forall j :: 0 <= j < i ==> !p(s[1..][j]);
          assert s[i + 1] == r.value;
          forall j | 0 <= j < i + 1 ensures !p(s[j]) {
            if j > 0 { assert s[j] == s[1..][j - 1]; }
          }
        }
      }
      r
  }

  /** The elements satisfying `p`, in their original order and with their
      multiplicities. */
  function Filter<T(!new)>(s: seq<T>, p: T -> bool): (r: seq<T>)
    ensures |r| <= |s|
    ensures forall x :: x in r <==> x in s && p(x)
    ensures forall x :: multiset(r)[x] == if p(x) then multiset(s)[x] else 0
    decreases |s|
  {
    if |s| == 0 then []
    else
      assert s == [s[0]] + s[1..];
      (if p(s[0]) then [s[0]] else []) + Filter(s[1..], p)
  }

  /** `f` applied to every element, in order. */
  function Map<A, B>(s: seq<A>, f: A -> B): (r: seq<B>)
    ensures |r| == |s|
    ensures forall i :: 0 <= i < |s| ==> r[i] == f(s[i])
    decreases |s|
  {
    if |s| == 0 then [] else [f(s[0])] + Map(s[1..], f)
  }

  // ---------------------------------------------------------------------
  // UserDAO

  predicate EmailTaken(rows: seq<User>, email: string) {
    exists i :: 0 <= i < |rows| && rows[i].email == email
  }

  predicate IdTaken(rows: seq<User>, id: nat) {
    exists i :: 0 <= i < |rows| && rows[i].id == id
  }

  /** What the unique constraint on `users.email` reports at commit. */
  const UniqueEmailViolation: string := "UNIQUE constraint failed: users.email"

  /** A successful `save_user`: the refreshed row and the table after commit. */
  datatype Saved = Saved(user: User, table: Table)

  /** The effect of `save_user` on the table: the row built from `f` with the
      next id appended, or the integrity error, in which case the rollback
      leaves the table as it was (so no table is returned). */
  function Insert(t: Table, f: UserFields): (r: Result<Saved>)
    ensures r.Ok? <==> !EmailTaken(t.rows, f.email)
    ensures r.Err? ==> r.error == IntegrityError(UniqueEmailViolation)
    ensures r.Ok? ==>
              && r.value.table.rows == t.rows + [r.value.user]
              && r.value.user.firstName == f.firstName && r.value.user.lastName == f.lastName
              && r.value.user.email == f.email && r.value.user.password == f.password
              && r.value.user.designation == f.designation
              && r.value.table.nextId > r.value.user.id
    ensures r.Ok? && WellFormed(t) ==> !IdTaken(t.rows, r.value.user.id)
  {
    if EmailTaken(t.rows, f.email) then Err(IntegrityError(UniqueEmailViolation))
    else
      var user := User(t.nextId, f.firstName, f.lastName, f.email, f.password, f.designation);
      Ok(Saved(user, Table(t.rows + [user], t.nextId + 1)))
  }

  /** `UserDAO.save_user`: add the row, commit, refresh it with its id; on an
      integrity error roll back and re-raise. Nothing but the users table
      changes. */
  method SaveUser(db: Session, userData: UserFields) returns (r: Result<User>)
    requires db.Valid()
    modifies db
    ensures db.Valid()
    ensures match Insert(old(db.store.users), userData)
            case Ok(saved) => r == Ok(saved.user) && db.store == old(db.store).(users := saved.table)
            case Err(e) => r == Err(e) && db.store == old(db.store)
  {
    var users := db.store.users;
    // User(**user_data): the id is assigned when the row is flushed.
    var user := User(users.nextId, userData.firstName, userData.lastName,
                     userData.email, userData.password, userData.designation);
    // db.add(user); db.commit() checks the unique constraint on email.
    if EmailTaken(users.rows, userData.email) {
      // db.rollback(): the pending row is discarded; the error is re-raised.
      r := Err(IntegrityError(UniqueEmailViolation));
    } else {
      InsertPreservesWellFormed(users, userData);
      db.store := db.store.(users := Table(users.rows + [user], users.nextId + 1));
      // db.refresh(user) loads the committed row, id included.
      r := Ok(user);
    }
  }

  /** `UserDAO.retrieve_user_by_email`: a row with that email, or None
      exactly when there is none. */
  function RetrieveUserByEmail(db: Store, email: string): (r: Option<User>)
    ensures r.None? <==> !EmailTaken(db.users.rows, email)
    ensures r.Some? ==> r.value in db.users.rows && r.value.email == email
  {
    First(db.users.rows, (u: User) => u.email == email)
  }

  /** `UserDAO.retrieve_user_by_id`: the row with that id, or None exactly
      when there is none. */
  function RetrieveUserById(db: Store, userId: nat): (r: Option<User>)
    ensures r.None? <==> !IdTaken(db.users.rows, userId)
    ensures r.Some? ==> r.value in db.users.rows && r.value.id == userId
  {
    First(db.users.rows, (u: User) => u.id == userId)
  }

  // ---------------------------------------------------------------------
  // OptionDAO, QueryDAO, DepartmentDAO, DesignationDAO

  /** `OptionDAO.list_initial_options`: every stored option, in stored order. */
  function ListInitialOptions(db: Store): (r: seq<OptionRow>)
    ensures |r| == |db.options|
    ensures forall i :: 0 <= i < |r| ==> r[i] == db.options[i]
  {
    db.options
  }

  /** `QueryDAO.list_queries_per_option`: exactly the stored queries of that
      option, each as often as it is stored. No ordering is requested, so
      none is promised. */
  function ListQueriesPerOption(optionId: nat, db: Store): (r: seq<QueryRow>)
    ensures forall q :: q in r <==> q in db.queries && q.optionId == optionId
    ensures forall q :: multiset(r)[q] == if q.optionId == optionId then multiset(db.queries)[q] else 0
  {
    Filter(db.queries, (q: QueryRow) => q.optionId == optionId)
  }

  /** `DepartmentDAO.list_departments`: one DTO per stored department, in
      stored order, with id and name copied. */
  function ListDepartments(db: Store): (r: seq<DepartmentDTO>)
    ensures |r| == |db.departments|
    ensures forall i :: 0 <= i < |r| ==> r[i].id == db.departments[i].id && r[i].name == db.departments[i].name
  {
    Map(db.departments, (d: DepartmentRow) => DepartmentDTO(d.id, d.name))
  }

  function DesignationToDTO(d: DesignationRow): DesignationDTO {
    DesignationDTO(d.id, d.departmentId, d.title)
  }

  /** `DesignationDAO.list_designations_per_department`: the DTO of a stored
      designation is listed exactly when it belongs to the department, as
      often as it is stored, and everything listed belongs to it and comes
      from a stored designation. */
  function ListDesignationsPerDepartment(departmentId: nat, db: Store): (r: seq<DesignationDTO>)
    ensures forall d :: d in db.designations ==> (DesignationToDTO(d) in r <==> d.departmentId == departmentId)
    ensures forall x :: x in r ==> x.departmentId == departmentId && DesignationRow(x.id, x.departmentId, x.title) in db.designations
    ensures |r| == |Filter(db.designations, (d: DesignationRow) => d.departmentId == departmentId)|
    ensures forall d :: multiset(r)[DesignationToDTO(d)] ==
                          if d.departmentId == departmentId then multiset(db.designations)[d] else 0
  {
    var matching := Filter(db.designations, (d: DesignationRow) => d.departmentId == departmentId);
    var r := Map(matching, DesignationToDTO);
    assert forall x :: x in r ==> exists k :: 0 <= k < |matching| && x == DesignationToDTO(matching[k]);
    assert forall d :: multiset(r)[DesignationToDTO(d)] == multiset(matching)[d] by {
      forall d { DesignationDTOCount(matching, d); }
    }
    r
  }

  /** A designation and its DTO determine each other, so the DTO list holds
      each DTO as often as the row list holds its row. */
  lemma {:induction false} DesignationDTOCount(s: seq<DesignationRow>, d: DesignationRow)
    ensures multiset(Map(s, DesignationToDTO))[DesignationToDTO(d)] == multiset(s)[d]
    decreases |s|
  {
    if |s| > 0 {
      assert s == [s[0]] + s[1..];
      assert Map(s, DesignationToDTO) == [DesignationToDTO(s[0])] + Map(s[1..], DesignationToDTO);
      DesignationDTOCount(s[1..], d);
    }
  }

  // ---------------------------------------------------------------------
  // Lemmas

  /** Looking for the first match in a longer sequence finds the earlier
      match if there is one, and otherwise the new element if it matches. */
  lemma {:induction false} FirstAppend<T>(s: seq<T>, x: T, p: T -> bool)
    ensures First(s + [x], p) == if First(s, p).Some? then First(s, p) else if p(x) then Some(x) else None
    decreases |s|
  {
    if |s| == 0 {
      assert s + [x] == [x];
    } else {
      assert (s + [x])[1..] == s[1..] + [x];
      FirstAppend(s[1..], x, p);
    }
  }

  /** A successful insert keeps the table's constraints. */
  lemma InsertPreservesWellFormed(t: Table, f: UserFields)
    requires WellFormed(t)
    requires !EmailTaken(t.rows, f.email)
    ensures Insert(t, f).Ok? && WellFormed(Insert(t, f).value.table)
  {
  }

  /** After a successful save the new row is what a lookup by its email and a
      lookup by its id return, and every other email finds what it found
      before. */
  lemma {:induction false} SavedUserIsRetrievable(db: Store, f: UserFields, email: string)
    requires WellFormed(db.users)
    requires Insert(db.users, f).Ok?
    ensures var saved := Insert(db.users, f).value;
            var after := db.(users := saved.table);
            && RetrieveUserByEmail(after, f.email) == Some(saved.user)
            && RetrieveUserById(after, saved.user.id) == Some(saved.user)
            && (email != f.email ==> RetrieveUserByEmail(after, email) == RetrieveUserByEmail(db, email))
  {
    var saved := Insert(db.users, f).value;
    var rows := db.users.rows;
    assert saved.table.rows == rows + [saved.user];
    FirstAppend(rows, saved.user, (u: User) => u.email == f.email);
    FirstAppend(rows, saved.user, (u: User) => u.id == saved.user.id);
    FirstAppend(rows, saved.user, (u: User) => u.email == email);
  }

  /** Because email is unique, a lookup by email returns THE row holding it. */
  lemma RetrieveUserByEmailIsTheRow(db: Store, u: User)
    requires WellFormed(db.users)
    requires u in db.users.rows
    ensures RetrieveUserByEmail(db, u.email) == Some(u)
  {
  }

  /** Because ids are unique, a lookup by id returns THE row holding it. */
  lemma RetrieveUserByIdIsTheRow(db: Store, u: User)
    requires WellFormed(db.users)
    requires u in db.users.rows
    ensures RetrieveUserById(db, u.id) == Some(u)
  {
  }
}
