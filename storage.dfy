/**
 * The Storage interface of internal/storage.go and its PostgreSQL
 * implementation, over an in-memory table of rows in scan order. The SQL
 * text and the connection are not modelled; what is kept is the table's
 * columns, which rows each query selects, the order in which results are
 * taken, the errors the code returns and the column limits that make an
 * insert fail.
 */
module Storage {
  import opened Wrappers
  import opened Strconv
  import opened Clock
  import opened UtilTypes
  import Crypto

  // ---------------------------------------------------------------- rows

  /** Postgres `integer` (the type of the serial columns id, number and balance). */
  const MinInt4: int := -0x8000_0000
  const MaxInt4: int := 0x7fff_ffff

  predicate InInt4(n: int) { MinInt4 <= n <= MaxInt4 }

  /**
   * One row of the account table. The text and timestamp columns may be NULL
   * (None). `username` is the column GetAccountByUsername filters on; no code
   * path ever writes it.
   */
  datatype Row = Row(
    id: int,
    firstName: Option<string>,
    lastName: Option<string>,
    email: Option<string>,
    number: int,
    encryptedPassword: Option<string>,
    balance: int,
    createdAt: Option<Time>,
    username: Option<string>)

  function OutOfRange(n: int): string
  {
    "pq: value \"" + Itoa(n) + "\" is out of range for type integer"
  }

  function TooLong(width: nat): string
  {
    "pq: value too long for type character varying(" + Itoa(width) + ")"
  }

  /** PostgreSQL refuses the character U+0000 in any text it receives. */
  const NulByte: string := "pq: invalid byte sequence for encoding \"UTF8\": 0x00"

  function NullColumn(column: string): string
  {
    "sql: Scan error on column \"" + column + "\": converting NULL is unsupported"
  }

  /**
   * scanIntoAccount: reads id, first_name, last_name, email, number,
   * encrypted_password, balance and created_at into a fresh Account. A NULL in
   * any text or timestamp column is a scan error. Username is not read.
   */
  function ScanIntoAccount(row: Row): (r: Result<Account, string>)
    ensures r.Ok? <==>
      row.firstName.Some? && row.lastName.Some? && row.email.Some?
      && row.encryptedPassword.Some? && row.createdAt.Some?
    ensures r.Ok? ==>
      && r.value.id == row.id && r.value.number == row.number && r.value.balance == row.balance
      && Some(r.value.firstName) == row.firstName && Some(r.value.lastName) == row.lastName
      && Some(r.value.email) == row.email && Some(r.value.encryptedPassword) == row.encryptedPassword
      && Some(r.value.createdAt) == row.createdAt
      && r.value.username == ""
  {
    if row.firstName.None? then Err(NullColumn("first_name"))
    else if row.lastName.None? then Err(NullColumn("last_name"))
    else if row.email.None? then Err(NullColumn("email"))
    else if row.encryptedPassword.None? then Err(NullColumn("encrypted_password"))
    else if row.createdAt.None? then Err(NullColumn("created_at"))
    else Ok(Account(
      id := row.id,
      firstName := row.firstName.value,
      lastName := row.lastName.value,
      email := row.email.value,
      username := "",
      number := row.number,
      encryptedPassword := row.encryptedPassword.value,
      balance := row.balance,
      createdAt := row.createdAt.value))
  }

  /** Every character of `s` is a space. */
  predicate AllSpaces(s: string)
  {
    forall i :: 0 <= i < |s| ==> s[i] == ' '
  }

  /**
   * A value PostgreSQL refuses for a `varchar(width)` column: it is longer
   * than `width` and some character past the limit is not a space.
   */
  predicate Overlong(s: string, width: nat)
  {
    |s| > width && !AllSpaces(s[width..])
  }

  /**
   * What a `varchar(width)` column keeps of a value it accepts: the value
   * itself, or its first `width` characters when the excess is only spaces.
   */
  function Fit(s: string, width: nat): (r: string)
    ensures r <= s
    ensures |s| <= width ==> r == s
    ensures !Overlong(s, width) ==> |r| <= width && AllSpaces(s[|r|..])
  {
    if |s| <= width then s else s[..width]
  }

  /** A text parameter PostgreSQL refuses outright: it contains U+0000. */
  predicate HasNul(s: string)
  {
    '\0' in s
  }

  /**
   * The error CreateAccount's insert reports for an account, if any. The
   * parameters are checked one by one, in order, when they are bound: a text
   * holding U+0000 is refused, and a number or balance outside `integer` is
   * out of range. Text that does not fit its varchar column is reported
   * afterwards, when the row is built, in column order.
   */
  function InsertError(a: Account): (r: Option<string>)
    ensures r.None? <==>
      && InInt4(a.number) && InInt4(a.balance)
      && !HasNul(a.firstName) && !HasNul(a.lastName) && !HasNul(a.email) && !HasNul(a.encryptedPassword)
      && !Overlong(a.firstName, 50) && !Overlong(a.lastName, 50) && !Overlong(a.email, 50)
      && !Overlong(a.encryptedPassword, 100)
    ensures HasNul(a.firstName) || HasNul(a.lastName) || HasNul(a.email) ==> r == Some(NulByte)
    ensures !InInt4(a.number) ==> r == Some(OutOfRange(a.number)) || r == Some(NulByte)
    ensures !InInt4(a.balance) ==> r == Some(OutOfRange(a.balance)) || r == Some(OutOfRange(a.number)) || r == Some(NulByte)
    ensures r.Some? && r != Some(NulByte) && InInt4(a.number) && InInt4(a.balance) ==>
      r == Some(TooLong(50)) || r == Some(TooLong(100))
  {
    if HasNul(a.firstName) || HasNul(a.lastName) || HasNul(a.email) then Some(NulByte)
    else if !InInt4(a.number) then Some(OutOfRange(a.number))
    else if HasNul(a.encryptedPassword) then Some(NulByte)
    else if !InInt4(a.balance) then Some(OutOfRange(a.balance))
    else if Overlong(a.firstName, 50) || Overlong(a.lastName, 50) || Overlong(a.email, 50) then Some(TooLong(50))
    else if Overlong(a.encryptedPassword, 100) then Some(TooLong(100))
    else None
  }

  /**
   * The row CreateAccount inserts: every stored field of `a`, each text cut
   * to its column's width, with the id the serial column hands out. The
   * argument's ID and Username are not written.
   */
  function InsertedRow(a: Account, id: int): (r: Row)
    ensures r.id == id && r.username.None?
    ensures r.number == a.number && r.balance == a.balance && r.createdAt == Some(a.createdAt)
    ensures InsertError(a).None? ==>
      && r.firstName.Some? && |r.firstName.value| <= 50 && r.firstName.value <= a.firstName
      && r.lastName.Some? && |r.lastName.value| <= 50 && r.lastName.value <= a.lastName
      && r.email.Some? && |r.email.value| <= 50 && r.email.value <= a.email
      && r.encryptedPassword.Some? && |r.encryptedPassword.value| <= 100
      && r.encryptedPassword.value <= a.encryptedPassword
  {
    Row(id, Some(Fit(a.firstName, 50)), Some(Fit(a.lastName, 50)), Some(Fit(a.email, 50)), a.number,
        Some(Fit(a.encryptedPassword, 100)), a.balance, Some(a.createdAt), None)
  }

  /**
   * What is read back from an inserted row is the account, with the serial
   * id, an empty username and each text cut to its column; a value that
   * already fits is read back unchanged.
   */
  lemma ScanInsertedRow(a: Account, id: int)
    ensures ScanIntoAccount(InsertedRow(a, id)) == Ok(a.(
      id := id, username := "",
      firstName := Fit(a.firstName, 50), lastName := Fit(a.lastName, 50), email := Fit(a.email, 50),
      encryptedPassword := Fit(a.encryptedPassword, 100)))
    ensures |a.firstName| <= 50 && |a.lastName| <= 50 && |a.email| <= 50 && |a.encryptedPassword| <= 100 ==>
      ScanIntoAccount(InsertedRow(a, id)) == Ok(a.(id := id, username := ""))
  {
  }

  /**
   * A value whose excess over its column is all spaces is accepted, and what
   * is stored differs from it only by those trailing spaces.
   */
  lemma {:induction false} TrailingSpacesCut(s: string, width: nat)
    requires |s| > width && AllSpaces(s[width..])
    ensures !Overlong(s, width)
    ensures Fit(s, width) == s[..width] && s == Fit(s, width) + s[width..]
  {
    assert s == s[..width] + s[width..];
  }

  /**
   * An account NewAccount built is always accepted by the insert when its
   * names and email fit their 50-character columns (trailing spaces past the
   * limit are cut, not refused) and hold no U+0000: the hash is 60
   * characters, the number is below 100000 and the balance is 0.
   */
  lemma NewAccountInsertable(
    firstName: string, lastName: string, username: string, email: string, password: string,
    bcrypt: Crypto.Bcrypt, salt: nat, draw: nat, now: Time)
    requires Crypto.BcryptSound(bcrypt)
    requires draw < AccountNumberBound
    requires !Overlong(firstName, 50) && !Overlong(lastName, 50) && !Overlong(email, 50)
    requires !HasNul(firstName) && !HasNul(lastName) && !HasNul(email)
    requires NewAccount(firstName, lastName, username, email, password, bcrypt, salt, draw, now).Ok?
    ensures InsertError(NewAccount(firstName, lastName, username, email, password, bcrypt, salt, draw, now).value) == None
  {
    NewAccountAcceptsItsPassword(firstName, lastName, username, email, password, bcrypt, salt, draw, now);
  }

  // ---------------------------------------------------------------- search

  /** Index of the first element satisfying `p`, or |s| when there is none. */
  function FirstIndex<T>(s: seq<T>, p: T -> bool): (i: nat)
    ensures i <= |s|
    ensures forall j :: 0 <= j < i ==> !p(s[j])
    ensures i < |s| ==> p(s[i])
  {
    if s == [] || p(s[0]) then 0 else 1 + FirstIndex(s[1..], p)
  }

  /** The conditions on `i` determine FirstIndex. */
  lemma FirstIndexUnique<T>(s: seq<T>, p: T -> bool, i: nat)
    requires i <= |s|
    requires forall j :: 0 <= j < i ==> !p(s[j])
    requires i < |s| ==> p(s[i])
    ensures FirstIndex(s, p) == i
  {
  }

  function HasId(id: int): Row -> bool
  {
    (row: Row) => row.id == id
  }

  function HasUsername(username: string): Row -> bool
  {
    (row: Row) => row.username == Some(username)
  }

  function Unscannable(): Row -> bool
  {
    (row: Row) => ScanIntoAccount(row).Err?
  }

  // ---------------------------------------------------------------- query results

  /**
   * GetAccountByID's result: an id that is not an `integer` makes the query
   * fail; otherwise the first row with that id is scanned, and when there is
   * none the error is "account id <id> not found".
   */
  function AccountById(rows: seq<Row>, id: int): (r: Result<Account, string>)
    ensures !InInt4(id) ==> r == Err(OutOfRange(id))
    ensures r.Ok? ==> exists i :: 0 <= i < |rows| && rows[i].id == id && ScanIntoAccount(rows[i]) == r
    ensures InInt4(id) && (forall i :: 0 <= i < |rows| ==> rows[i].id != id) ==>
      r == Err("account id " + Itoa(id) + " not found")
    ensures InInt4(id) && UniqueIds(rows) ==>
      forall i :: 0 <= i < |rows| && rows[i].id == id ==> r == ScanIntoAccount(rows[i])
  {
    if !InInt4(id) then Err(OutOfRange(id))
    else
      var i := FirstIndex(rows, HasId(id));
      if i < |rows| then ScanIntoAccount(rows[i])
      else Err("account id " + Itoa(id) + " not found")
  }

  /**
   * GetAccountByUsername's result: the first row whose username column holds
   * `username`, scanned; when there is none, "account with number [<username>] not found".
   */
  function AccountByUsername(rows: seq<Row>, username: string): (r: Result<Account, string>)
    ensures r.Ok? ==> exists i :: 0 <= i < |rows| && rows[i].username == Some(username) && ScanIntoAccount(rows[i]) == r
    ensures (forall i :: 0 <= i < |rows| ==> rows[i].username != Some(username)) ==>
      r == Err(NotFoundByUsername(username))
  {
    var i := FirstIndex(rows, HasUsername(username));
    if i < |rows| then ScanIntoAccount(rows[i])
    else Err(NotFoundByUsername(username))
  }

  function NotFoundByUsername(username: string): string
  {
    "account with number [" + username + "] not found"
  }

  /**
   * GetAccounts' result: every row scanned, in scan order, or the error of
   * the first row that fails to scan and no list at all.
   */
  function ScanAll(rows: seq<Row>): (r: Result<seq<Account>, string>)
    ensures r.Ok? <==> forall i :: 0 <= i < |rows| ==> ScanIntoAccount(rows[i]).Ok?
    ensures r.Ok? ==>
      |r.value| == |rows| && forall i :: 0 <= i < |rows| ==> r.value[i] == ScanIntoAccount(rows[i]).value
    ensures r.Err? ==>
      var k := FirstIndex(rows, Unscannable());
      k < |rows| && r.error == ScanIntoAccount(rows[k]).error
  {
    if rows == [] then Ok([])
    else match ScanIntoAccount(rows[0])
      case Err(e) => Err(e)
      case Ok(a) =>
        match ScanAll(rows[1..])
        case Err(e) => Err(e)
        case Ok(rest) => Ok([a] + rest)
  }

  /** The table after `delete from account where id = <id>`: the other rows, in their order. */
  function Without(rows: seq<Row>, id: int): (r: seq<Row>)
    ensures forall row :: row in r <==> row in rows && row.id != id
    ensures |r| <= |rows|
  {
    if rows == [] then []
    else if rows[0].id == id then Without(rows[1..], id)
    else [rows[0]] + Without(rows[1..], id)
  }

  /** No two rows share an id (id is the primary key). */
  ghost predicate UniqueIds(rows: seq<Row>)
  {
    forall i, j :: 0 <= i < j < |rows| ==> rows[i].id != rows[j].id
  }

  /** Deleting keeps ids unique. */
  lemma {:induction false} WithoutUnique(rows: seq<Row>, id: int)
    requires UniqueIds(rows)
    ensures UniqueIds(Without(rows, id))
  {
    if rows != [] {
      WithoutUnique(rows[1..], id);
      var rest := Without(rows[1..], id);
      if rows[0].id != id {
        forall j | 0 <= j < |rest| ensures rows[0].id != rest[j].id {
          assert rest[j] in rows[1..];
          var k :| 0 <= k < |rows| - 1 && rows[1..][k] == rest[j];
          assert rows[k + 1] == rest[j];
        }
      }
    }
  }

  /** After a delete, looking the id up again reports it not found. */
  lemma DeletedIdNotFound(rows: seq<Row>, id: int)
    requires InInt4(id)
    ensures AccountById(Without(rows, id), id) == Err("account id " + Itoa(id) + " not found")
  {
    var r := Without(rows, id);
    forall k | 0 <= k < |r| ensures r[k].id != id {
      assert r[k] in r;
    }
  }

  /** Rows with no username stored can never be found by username. */
  lemma NoUsernameNeverFound(rows: seq<Row>, username: string)
    requires forall i :: 0 <= i < |rows| ==> rows[i].username.None?
    ensures AccountByUsername(rows, username) == Err(NotFoundByUsername(username))
  {
  }

  // ---------------------------------------------------------------- the store

  /** PostgresStore: the account table and the next value of its id serial. */
  class PostgresStore {
    var rows: seq<Row>
    var nextId: int

    /** Ids are unique and every id was handed out by the serial. */
    ghost predicate Valid()
      reads this
    {
      && 1 <= nextId
      && UniqueIds(rows)
      && forall i :: 0 <= i < |rows| ==> rows[i].id < nextId
    }

    /** A freshly created, empty account table. */
    constructor ()
      ensures Valid() && rows == [] && nextId == 1
    {
      rows := [];
      nextId := 1;
    }

    /**
     * CreateAccount: inserts the account's names, email, number, hash, balance
     * and creation time under the next serial id, or returns the insert's error
     * and changes nothing.
     */
    method CreateAccount(a: Account) returns (err: Option<string>)
      requires Valid()
      modifies this
      ensures Valid()
      ensures err == InsertError(a)
      ensures err.None? ==> rows == old(rows) + [InsertedRow(a, old(nextId))] && nextId == old(nextId) + 1
      ensures err.Some? ==> rows == old(rows) && nextId == old(nextId)
    {
      err := InsertError(a);
      if err.None? {
        rows := rows + [InsertedRow(a, nextId)];
        nextId := nextId + 1;
      }
    }

    /**
     * DeleteAccount: removes the rows with that id. An absent id is not an
     * error; an id outside `integer` makes the query fail.
     */
    method DeleteAccount(id: int) returns (err: Option<string>)
      requires Valid()
      modifies this
      ensures Valid()
      ensures err == if InInt4(id) then None else Some(OutOfRange(id))
      ensures rows == if err.None? then Without(old(rows), id) else old(rows)
      ensures nextId == old(nextId)
    {
      if !InInt4(id) {
        return Some(OutOfRange(id));
      }
      WithoutUnique(rows, id);
      rows := Without(rows, id);
      err := None;
    }

    /** UpdateAccount: does nothing and reports success. */
    method UpdateAccount(a: Account) returns (err: Option<string>)
      ensures err == None
    {
      err := None;
    }

    /** GetAccountByID: returns on the first row with the id. */
    method GetAccountByID(id: int) returns (r: Result<Account, string>)
      ensures r == AccountById(rows, id)
    {
      if !InInt4(id) {
        return Err(OutOfRange(id));
      }
      var i := 0;
      while i < |rows|
        invariant 0 <= i <= |rows|
        invariant forall j :: 0 <= j < i ==> !HasId(id)(rows[j])
      {
        if rows[i].id == id {
          FirstIndexUnique(rows, HasId(id), i);
          return ScanIntoAccount(rows[i]);
        }
        i := i + 1;
      }
      FirstIndexUnique(rows, HasId(id), i);
      r := Err("account id " + Itoa(id) + " not found");
    }

    /** GetAccountByUsername: returns on the first row with the username. */
    method GetAccountByUsername(username: string) returns (r: Result<Account, string>)
      ensures r == AccountByUsername(rows, username)
    {
      var i := 0;
      while i < |rows|
        invariant 0 <= i <= |rows|
        invariant forall j :: 0 <= j < i ==> !HasUsername(username)(rows[j])
      {
        if rows[i].username == Some(username) {
          FirstIndexUnique(rows, HasUsername(username), i);
          return ScanIntoAccount(rows[i]);
        }
        i := i + 1;
      }
      FirstIndexUnique(rows, HasUsername(username), i);
      r := Err(NotFoundByUsername(username));
    }

    /** GetAccounts: scans every row in order and gives up on the first scan error. */
    method GetAccounts() returns (r: Result<seq<Account>, string>)
      ensures r == ScanAll(rows)
    {
      var accounts: seq<Account> := [];
      var i := 0;
      while i < |rows|
        invariant 0 <= i <= |rows|
        invariant |accounts| == i
        invariant forall j :: 0 <= j < i ==> !Unscannable()(rows[j])
        invariant forall j :: 0 <= j < i ==> accounts[j] == ScanIntoAccount(rows[j]).value
      {
        var scanned := ScanIntoAccount(rows[i]);
        if scanned.Err? {
          FirstIndexUnique(rows, Unscannable(), i);
          return Err(scanned.error);
        }
        accounts := accounts + [scanned.value];
        i := i + 1;
      }
      assert ScanAll(rows).Ok?;
      assert ScanAll(rows).value == accounts;
      r := Ok(accounts);
    }
  }
}
