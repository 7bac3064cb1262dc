/**
 * The account operations of app/crud.py over the abstract store. Each
 * operation returns the store as it stands after the operation's commit
 * together with the value the Python function returns; a commit the
 * database refuses leaves the store as it was and reports the violated
 * constraint instead.
 */
module Crud {
  import opened Wrappers
  import opened Models

  /** Python truthiness of an optional string: present and non-empty. */
  predicate Truthy(s: Option<string>) {
    s.Some? && s.value != ""
  }

  /**
   * `create_account`: inserts one record under a fresh primary key. Nothing
   * is checked beforehand: a null name or number, or a number already in
   * use, makes the database refuse the commit. A missing balance takes the
   * column default.
   */
  function CreateAccount(s: Store, name: Option<string>, number: Option<string>, balance: Option<real>): (r: Effect<Outcome>)
    ensures r.value.Ok? || r.value.CommitFailed?
    ensures r.value.CommitFailed? <==> name.None? || number.None? || NumberTaken(s, number.value)
    ensures r.value.CommitFailed? ==> r.store == s
    ensures r.value.Ok? ==>
      var a := r.value.account;
      && a.id !in s
      && a.name == name.value
      && a.number == number.value
      && a.balance == (if balance.Some? then balance.value else DefaultBalance)
      && r.store.Keys == s.Keys + {a.id}
      && r.store[a.id] == a
      && (forall k :: k in s ==> r.store[k] == s[k])
    ensures Valid(s) ==> Valid(r.store)
  {
    if name.None? then Effect(s, CommitFailed(NameIsNull))
    else if number.None? then Effect(s, CommitFailed(NumberIsNull))
    else if NumberTaken(s, number.value) then Effect(s, CommitFailed(NumberNotUnique))
    else
      var a := Account(NextId(s), name.value, number.value, if balance.Some? then balance.value else DefaultBalance);
      Effect(s[a.id := a], Ok(a))
  }

  /**
   * `create_account` with the number checked before anything is written: a
   * number another account already carries is refused with a typed error
   * and the store is left unchanged. It differs from the Python only in
   * reporting that refusal itself instead of letting the commit fail.
   */
  function CreateAccountChecked(s: Store, name: Option<string>, number: Option<string>, balance: Option<real>): (r: Effect<Outcome>)
    ensures !r.value.NotFound?
    ensures r.value.Rejected? <==> name.Some? && number.Some? && NumberTaken(s, number.value)
    ensures r.value.Rejected? ==> r.value.why == NumberNotUnique && r.store == s
    ensures var w := CreateAccount(s, name, number, balance);
      && (r.value.Rejected? <==> w.value == CommitFailed(NumberNotUnique))
      && (!r.value.Rejected? ==> r == w)
    ensures Valid(s) ==> Valid(r.store)
  {
    if name.Some? && number.Some? && NumberTaken(s, number.value) then Effect(s, Rejected(NumberNotUnique))
    else CreateAccount(s, name, number, balance)
  }

  /** `get_account_by_id`: the record stored under `id`, if any. */
  function GetAccountById(s: Store, id: int): (r: Option<Account>)
    ensures r.Some? <==> id in s
    ensures r.Some? ==> r.value == s[id]
    ensures r.Some? && Valid(s) ==> r.value.id == id
  {
    if id in s then Some(s[id]) else None
  }

  /** `get_all_accounts`: every stored record once, in ascending key order. */
  function GetAllAccounts(s: Store): (r: seq<Account>)
    ensures |r| == |s|
    ensures forall i :: 0 <= i < |r| ==> r[i] in s.Values
    ensures forall id :: id in s ==> s[id] in r
    ensures Valid(s) ==> forall i, j :: 0 <= i < j < |r| ==> r[i].id < r[j].id
  {
    var ids := SortedIds(s.Keys);
    var r := RecordsAt(s, ids);
    ListingCoversStore(s, ids, r);
    r
  }

  /** The records stored under the given keys, in the keys' order. */
  function RecordsAt(s: Store, ids: seq<int>): (r: seq<Account>)
    requires forall i :: 0 <= i < |ids| ==> ids[i] in s
    ensures |r| == |ids|
    ensures forall i :: 0 <= i < |ids| ==> r[i] == s[ids[i]]
  {
    if ids == [] then [] else [s[ids[0]]] + RecordsAt(s, ids[1..])
  }

  /** The records read off ascending keys are exactly the stored records. */
  lemma ListingCoversStore(s: Store, ids: seq<int>, r: seq<Account>)
    requires |ids| == |s.Keys|
    requires forall i :: 0 <= i < |ids| ==> ids[i] in s
    requires forall id :: id in s ==> id in ids
    requires forall i, j :: 0 <= i < j < |ids| ==> ids[i] < ids[j]
    requires |r| == |ids| && forall i :: 0 <= i < |ids| ==> r[i] == s[ids[i]]
    ensures |r| == |s|
    ensures forall i :: 0 <= i < |r| ==> r[i] in s.Values
    ensures forall id :: id in s ==> s[id] in r
    ensures Valid(s) ==> forall i, j :: 0 <= i < j < |r| ==> r[i].id < r[j].id
  {
    assert |s| == |s.Keys|;
    forall id | id in s
      ensures s[id] in r
    {
      var i :| 0 <= i < |ids| && ids[i] == id;
      assert r[i] == s[id];
    }
  }

  /**
   * The field overwrites of `update_account`: `name` and `number` only when
   * the supplied value is truthy, `balance` whenever one is supplied, even 0.
   */
  function ApplyUpdate(a: Account, name: Option<string>, number: Option<string>, balance: Option<real>): (b: Account)
    ensures b.id == a.id
    ensures b.name == if Truthy(name) then name.value else a.name
    ensures b.number == if Truthy(number) then number.value else a.number
    ensures b.balance == if balance.Some? then balance.value else a.balance
  {
    var named := if Truthy(name) then a.(name := name.value) else a;
    var numbered := if Truthy(number) then named.(number := number.value) else named;
    if balance.Some? then numbered.(balance := balance.value) else numbered
  }

  /**
   * `update_account` exactly as the Python writes it: a missing id reports
   * nothing and changes nothing; otherwise the overwrites are applied with
   * no check that the new number is free, so a number another account
   * carries is caught only by the unique index, which refuses the commit
   * and leaves the store as it was.
   */
  function UpdateAccountAsWritten(s: Store, id: int, name: Option<string>, number: Option<string>, balance: Option<real>): (r: Effect<Outcome>)
    ensures r.value.NotFound? <==> id !in s
    ensures !r.value.Rejected?
    ensures r.value.CommitFailed? <==> id in s && Truthy(number) && NumberTakenByOther(s, number.value, id)
    ensures r.value.CommitFailed? ==> r.value.why == NumberNotUnique
    ensures !r.value.Ok? ==> r.store == s
    ensures r.value.Ok? ==> r.value.account == ApplyUpdate(s[id], name, number, balance) && r.value.account.id == s[id].id
    ensures r.value.Ok? ==> r.store.Keys == s.Keys && r.store[id] == r.value.account
    ensures r.value.Ok? ==> forall k :: k in s && k != id ==> r.store[k] == s[k]
    ensures Valid(s) ==> Valid(r.store)
  {
    if id !in s then Effect(s, NotFound)
    else
      var b := ApplyUpdate(s[id], name, number, balance);
      if Truthy(number) && NumberTakenByOther(s, number.value, id) then Effect(s, CommitFailed(NumberNotUnique))
      else Effect(s[id := b], Ok(b))
  }

  /**
   * `update_account` with the number checked before anything is written: a
   * truthy number that another account already carries is refused with a
   * typed error and the store is left unchanged. It differs from the Python
   * only in reporting that refusal itself instead of letting the commit fail.
   */
  function UpdateAccount(s: Store, id: int, name: Option<string>, number: Option<string>, balance: Option<real>): (r: Effect<Outcome>)
    ensures r.value.NotFound? <==> id !in s
    ensures !r.value.CommitFailed?
    ensures r.value.Rejected? <==> id in s && Truthy(number) && NumberTakenByOther(s, number.value, id)
    ensures r.value.Rejected? ==> r.value.why == NumberNotUnique
    ensures !r.value.Ok? ==> r.store == s
    ensures var w := UpdateAccountAsWritten(s, id, name, number, balance);
      && (r.value.Rejected? <==> w.value.CommitFailed?)
      && (!r.value.Rejected? ==> r == w)
    ensures Valid(s) ==> Valid(r.store)
  {
    if id !in s then Effect(s, NotFound)
    else if Truthy(number) && NumberTakenByOther(s, number.value, id) then Effect(s, Rejected(NumberNotUnique))
    else UpdateAccountAsWritten(s, id, name, number, balance)
  }

  /** `delete_account`: removes the record under `id`; `false` and no change when there is none. */
  function DeleteAccount(s: Store, id: int): (r: Effect<bool>)
    ensures r.value <==> id in s
    ensures !r.value ==> r.store == s
    ensures r.store.Keys == s.Keys - {id}
    ensures forall k :: k in r.store ==> r.store[k] == s[k]
    ensures Valid(s) ==> Valid(r.store)
  {
    if id !in s then Effect(s, false) else Effect(s - {id}, true)
  }

  /** A created account is found under its new id, with the fields it was created with. */
  lemma CreateThenGet(s: Store, name: Option<string>, number: Option<string>, balance: Option<real>)
    ensures var r := CreateAccount(s, name, number, balance);
      r.value.Ok? ==>
        && GetAccountById(r.store, r.value.account.id) == Some(r.value.account)
        && |r.store| == |s| + 1
  {
    var r := CreateAccount(s, name, number, balance);
    if r.value.Ok? {
      assert r.store == s[r.value.account.id := r.value.account];
    }
  }

  /**
   * Creating a second account with a number already in use is refused and
   * leaves the number of stored accounts as it was.
   */
  lemma DuplicateCreateRefused(s: Store, name: Option<string>, number: string, otherName: Option<string>, balance: Option<real>, otherBalance: Option<real>)
    requires CreateAccount(s, name, Some(number), balance).value.Ok?
    ensures var first := CreateAccount(s, name, Some(number), balance);
      var second := CreateAccount(first.store, otherName, Some(number), otherBalance);
      && second.value.CommitFailed?
      && (otherName.Some? ==> second.value.why == NumberNotUnique)
      && second.store == first.store
      && |second.store| == |s| + 1
  {
    var first := CreateAccount(s, name, Some(number), balance);
    var a := first.value.account;
    assert first.store[a.id].number == number;
    assert first.store.Keys == s.Keys + {a.id};
  }

  /** Only the target record changes under an update, and it keeps its id. */
  lemma UpdateOnlyTouchesTarget(s: Store, id: int, name: Option<string>, number: Option<string>, balance: Option<real>)
    requires Valid(s)
    ensures var r := UpdateAccountAsWritten(s, id, name, number, balance);
      && r.store.Keys == s.Keys
      && (forall k :: k in s && k != id ==> r.store[k] == s[k])
      && (r.value.Ok? ==> r.value.account.id == id && GetAccountById(r.store, id) == Some(r.value.account))
  {
  }

  /** Repeating an update changes nothing more and reports the same outcome. */
  lemma UpdateIdempotent(s: Store, id: int, name: Option<string>, number: Option<string>, balance: Option<real>)
    ensures var r := UpdateAccountAsWritten(s, id, name, number, balance);
      UpdateAccountAsWritten(r.store, id, name, number, balance) == r
  {
    var r := UpdateAccountAsWritten(s, id, name, number, balance);
    if r.value.Ok? {
      var b := r.value.account;
      assert r.store == s[id := b];
      assert ApplyUpdate(b, name, number, balance) == b;
    }
  }

  /** After a delete the id is absent, and deleting it again reports `false` and changes nothing. */
  lemma DeleteThenGet(s: Store, id: int)
    ensures var r := DeleteAccount(s, id);
      && GetAccountById(r.store, id) == None
      && DeleteAccount(r.store, id) == Effect(r.store, false)
  {
  }

  /**
   * Account 2 taking account 1's number: the Python reaches the database
   * with the duplicate and the commit fails with an untyped integrity error;
   * the checked update refuses it itself. Neither changes the store.
   */
  lemma UpdateAsWrittenFailsAtCommit()
    ensures var s := map[1 := Account(1, "Alice", "100", 0.0), 2 := Account(2, "Bob", "200", 0.0)];
      && Valid(s)
      && UpdateAccountAsWritten(s, 2, None, Some("100"), None) == Effect(s, CommitFailed(NumberNotUnique))
      && UpdateAccount(s, 2, None, Some("100"), None) == Effect(s, Rejected(NumberNotUnique))
  {
    var s := map[1 := Account(1, "Alice", "100", 0.0), 2 := Account(2, "Bob", "200", 0.0)];
    assert NumberTakenByOther(s, "100", 2) by {
      assert s[1].number == "100";
    }
  }

  /**
   * A third account created with account 1's number: the Python reaches the
   * database with the duplicate and the commit fails with an untyped
   * integrity error; the checked create refuses it itself. Neither changes
   * the store.
   */
  lemma CreateAsWrittenFailsAtCommit()
    ensures var s := map[1 := Account(1, "Alice", "100", 0.0), 2 := Account(2, "Bob", "200", 0.0)];
      && Valid(s)
      && CreateAccount(s, Some("Carol"), Some("100"), None) == Effect(s, CommitFailed(NumberNotUnique))
      && CreateAccountChecked(s, Some("Carol"), Some("100"), None) == Effect(s, Rejected(NumberNotUnique))
  {
    var s := map[1 := Account(1, "Alice", "100", 0.0), 2 := Account(2, "Bob", "200", 0.0)];
    assert NumberTaken(s, "100") by {
      assert s[1].number == "100";
    }
  }
}
