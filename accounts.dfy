/** Account creation (single-responsibility example): an `AccountCreator`
    validates a username and a password and hands the new `Account` to an
    injected data-access collaborator, which here records every save. */
module Accounts {

  /** A C# string reference: `None` stands for `null`. */
  datatype Option<T> = None | Some(value: T)

  /** The exception `CreateAccount` throws, with its message. */
  datatype Error = ArgumentException(message: string)

  const RequiredMessage: string := "Username e password sono obbligatori"

  /** A user account: the two strings it was constructed with. */
  datatype Account = Account(username: string, password: string)

  /** How a call to `CreateAccount` ends: it returns normally or throws. */
  datatype Outcome = Returned | Thrown(error: Error)

  /** The arguments of one `CreateAccount` call. */
  datatype Request = Request(username: Option<string>, password: Option<string>)

  /** `string.IsNullOrEmpty`: null, or the empty string. Whitespace is not empty. */
  predicate IsNullOrEmpty(s: Option<string>) {
    s.None? || s.value == ""
  }

  /** The validation `CreateAccount` performs before doing anything else. */
  predicate Rejected(r: Request) {
    IsNullOrEmpty(r.username) || IsNullOrEmpty(r.password)
  }

  /** The effect of one `CreateAccount` call on the record of saved accounts:
      a rejected request leaves it alone, an accepted one appends the account
      built from the arguments. */
  function Step(saved: seq<Account>, r: Request): seq<Account> {
    if Rejected(r) then saved
    else saved + [Account(r.username.value, r.password.value)]
  }

  /** The record after a series of `CreateAccount` calls made in order, each
      one either throwing (and the caller carrying on) or saving. */
  function Replay(saved: seq<Account>, rs: seq<Request>): seq<Account>
    decreases |rs|
  {
    if rs == [] then saved else Replay(Step(saved, rs[0]), rs[1..])
  }

  /** Reference definition: the accounts of the accepted requests, in order. */
  function Accepted(rs: seq<Request>): seq<Account>
    decreases |rs|
  {
    if rs == [] then []
    else if Rejected(rs[0]) then Accepted(rs[1..])
    else [Account(rs[0].username.value, rs[0].password.value)] + Accepted(rs[1..])
  }

  /** An account that could have come through `CreateAccount`'s validation. */
  predicate Complete(a: Account) {
    a.username != "" && a.password != ""
  }

  /** Stand-in for an `IDataAccess` implementation: it records, in order,
      every account handed to `SaveAccount`. */
  class DataStore {
    var saved: seq<Account>

    constructor ()
      ensures saved == []
    {
      saved := [];
    }

    method SaveAccount(account: Account)
      modifies this
      ensures saved == old(saved) + [account]
    {
      saved := saved + [account];
    }
  }

  class AccountCreator {
    /** The injected collaborator; only the constructor assigns it. */
    var dataAccess: DataStore

    constructor (dataAccess: DataStore)
      ensures this.dataAccess == dataAccess
    {
      this.dataAccess := dataAccess;
    }

    /** Throws when either argument is null or empty, before anything is
        saved; otherwise saves exactly one account holding the arguments
        verbatim, through the injected collaborator. */
    method CreateAccount(username: Option<string>, password: Option<string>) returns (outcome: Outcome)
      modifies dataAccess
      ensures dataAccess == old(dataAccess)
      ensures outcome.Thrown? <==> IsNullOrEmpty(username) || IsNullOrEmpty(password)
      ensures outcome.Thrown? ==>
                outcome.error == ArgumentException(RequiredMessage) && dataAccess.saved == old(dataAccess.saved)
      ensures outcome.Returned? ==>
                dataAccess.saved == old(dataAccess.saved) + [Account(username.value, password.value)]
      ensures dataAccess.saved == Step(old(dataAccess.saved), Request(username, password))
    {
      if IsNullOrEmpty(username) || IsNullOrEmpty(password) {
        return Thrown(ArgumentException(RequiredMessage));
      }
      var newAccount := Account(username.value, password.value);
      dataAccess.SaveAccount(newAccount);
      outcome := Returned;
    }
  }

  /** A series of calls appends exactly the accepted requests' accounts, in
      order and verbatim, and never alters what was already recorded. */
  lemma {:induction false} ReplayAppendsAccepted(saved: seq<Account>, rs: seq<Request>)
    ensures Replay(saved, rs) == saved + Accepted(rs)
    decreases |rs|
  {
    if rs != [] {
      ReplayAppendsAccepted(Step(saved, rs[0]), rs[1..]);
      if !Rejected(rs[0]) {
        var a := Account(rs[0].username.value, rs[0].password.value);
        assert saved + [a] + Accepted(rs[1..]) == saved + ([a] + Accepted(rs[1..]));
      }
    }
  }

  /** Every account in the record has a non-empty username and password,
      as long as that held before the calls. */
  lemma {:induction false} ReplayKeepsRecordsComplete(saved: seq<Account>, rs: seq<Request>)
    requires forall k :: 0 <= k < |saved| ==> Complete(saved[k])
    ensures forall k :: 0 <= k < |Replay(saved, rs)| ==> Complete(Replay(saved, rs)[k])
    decreases |rs|
  {
    if rs != [] {
      var next := Step(saved, rs[0]);
      assert forall k :: 0 <= k < |next| ==> Complete(next[k]);
      ReplayKeepsRecordsComplete(next, rs[1..]);
    }
  }

  /** Validation is `IsNullOrEmpty`, not a whitespace check: non-empty
      strings made only of blanks are accepted and saved verbatim. */
  lemma WhitespaceOnlyIsSaved(saved: seq<Account>, u: string, p: string)
    requires u != "" && p != ""
    requires forall k :: 0 <= k < |u| ==> u[k] == ' '
    requires forall k :: 0 <= k < |p| ==> p[k] == ' '
    ensures Step(saved, Request(Some(u), Some(p))) == saved + [Account(u, p)]
  {
  }

  /** A client of the two classes: the rejected call leaves the store
      untouched, the accepted one reaches the collaborator handed to the
      constructor. */
  method CreateTwoAccounts() returns (first: Outcome, second: Outcome, saved: seq<Account>)
    ensures first == Thrown(ArgumentException(RequiredMessage))
    ensures second == Returned
    ensures saved == [Account("alice", "pw123")]
  {
    var store := new DataStore();
    var creator := new AccountCreator(store);
    first := creator.CreateAccount(Some(""), Some("pw123"));
    second := creator.CreateAccount(Some("alice"), Some("pw123"));
    saved := store.saved;
  }
}
