/**
 * The `accounts` table (app/models.py): one record per account and the
 * column constraints the database enforces, stated as an invariant over an
 * abstract store that maps each primary key to its record.
 */
module Models {
  import opened Wrappers

  /** Default of the `balance` column. */
  const DefaultBalance: real := 0.0

  /** One row of the `accounts` table. `name` and `number` are NOT NULL columns, so they are plain strings here. */
  datatype Account = Account(id: int, name: string, number: string, balance: real)

  /** The table, keyed by primary key. */
  type Store = map<int, Account>

  /** A constraint the database refuses to commit. */
  datatype IntegrityViolation = NameIsNull | NumberIsNull | NumberNotUnique

  /**
   * What a store operation reports besides the new store: the record it
   * returns, no record, a typed refusal made before anything is written,
   * or the database refusing the commit (an untyped integrity error that
   * escapes the operation).
   */
  datatype Outcome =
    | Ok(account: Account)
    | NotFound
    | Rejected(why: IntegrityViolation)
    | CommitFailed(why: IntegrityViolation)

  /** The store after an operation, together with what the operation returned. */
  datatype Effect<T> = Effect(store: Store, value: T)

  /** Each record sits under its own primary key. */
  ghost predicate KeyedById(s: Store) {
    forall id :: id in s ==> s[id].id == id
  }

  /** No two records share an account number (the unique index on `number`). */
  ghost predicate NumbersUnique(s: Store) {
    forall i, j :: i in s && j in s && i != j ==> s[i].number != s[j].number
  }

  /** The store invariant: primary key and unique number. */
  ghost predicate Valid(s: Store) {
    KeyedById(s) && NumbersUnique(s)
  }

  /** Whether an account other than `except` already carries `number`. */
  predicate NumberTakenByOther(s: Store, number: string, except: int) {
    exists id :: id in s && id != except && s[id].number == number
  }

  /** Whether any account carries `number`. */
  predicate NumberTaken(s: Store, number: string) {
    exists id :: id in s && s[id].number == number
  }

  /** `m` bounds every element of `ids` from above. */
  predicate UpperBound(ids: set<int>, m: int) {
    forall x :: x in ids ==> x <= m
  }

  /** The largest element of a finite non-empty set of integers. */
  function MaxOf(ids: set<int>): (m: int)
    requires ids != {}
    ensures m in ids
    ensures forall x :: x in ids ==> x <= m
  {
    MaxExists(ids);
    var m :| m in ids && UpperBound(ids, m);
    m
  }

  /** A non-empty set has an element. */
  lemma NonEmptyHasElement(ids: set<int>)
    requires ids != {}
    ensures exists y :: y in ids
  {
    if forall y :: y !in ids {
      assert false;
    }
  }

  lemma {:induction false} MaxExists(ids: set<int>)
    requires ids != {}
    ensures exists m :: m in ids && UpperBound(ids, m)
    decreases |ids|
  {
    NonEmptyHasElement(ids);
    var y :| y in ids;
    var rest := ids - {y};
    if rest == {} {
      assert UpperBound(ids, y) by {
        forall x | x in ids
          ensures x <= y
        {
          assert x !in rest;
        }
      }
    } else {
      MaxExists(rest);
      var m' :| m' in rest && UpperBound(rest, m');
      var m := if y > m' then y else m';
      assert UpperBound(ids, m) by {
        forall x | x in ids
          ensures x <= m
        {
          if x != y {
            assert x in rest;
          }
        }
      }
    }
  }

  /**
   * The primary key the database hands to the next insert: one past the
   * largest key in use, or 1 in an empty table (SQLite's rowid rule).
   */
  function NextId(s: Store): (id: int)
    ensures id !in s
    ensures forall k :: k in s ==> k < id
    ensures s == map[] ==> id == 1
    ensures s != map[] ==> id - 1 in s
  {
    if s.Keys == {} then 1 else MaxOf(s.Keys) + 1
  }

  /** The keys of the store in ascending order. */
  function SortedIds(ids: set<int>): (r: seq<int>)
    ensures |r| == |ids|
    ensures forall i :: 0 <= i < |r| ==> r[i] in ids
    ensures forall id :: id in ids ==> id in r
    ensures forall i, j :: 0 <= i < j < |r| ==> r[i] < r[j]
    decreases |ids|
  {
    if ids == {} then []
    else
      var m := MaxOf(ids);
      SortedIds(ids - {m}) + [m]
  }
}
