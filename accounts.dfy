/** The identity part shared by every user (admin, driver, rider) and the
    credential lookup that the login screens run over a list of users. */
module Accounts {

  datatype Option<T> = None | Some(value: T)

  /** The fields of the abstract base class User. They are set once by the
      constructor and never reassigned, so each user class keeps one as a
      `const`. */
  datatype Account = Account(userId: string, name: string, phone: string, password: string)
  {
    /** User.authenticate: accepts the stored password and nothing else. */
    predicate Authenticate(given: string)
      ensures Authenticate(given) <==> given == password
    {
      password == given
    }

    /** The test a login loop applies to each user: id equal, then authenticate. */
    predicate Matches(id: string, given: string)
    {
      userId == id && Authenticate(given)
    }
  }

  /** The index of the first account, scanning in list order from `from`,
      whose id and password both match; None when no account from `from` on
      matches. */
  function FirstMatchFrom(accounts: seq<Account>, id: string, password: string, from: nat): (r: Option<nat>)
    requires from <= |accounts|
    decreases |accounts| - from
    ensures r.Some? ==> from <= r.value < |accounts| && accounts[r.value].Matches(id, password)
    ensures r.Some? ==> forall j :: from <= j < r.value ==> !accounts[j].Matches(id, password)
    ensures r.None? <==> forall j :: from <= j < |accounts| ==> !accounts[j].Matches(id, password)
  {
    if from == |accounts| then None
    else if accounts[from].Matches(id, password) then Some(from)
    else FirstMatchFrom(accounts, id, password, from + 1)
  }

  /** The login lookup over the whole list: the first account in list order
      whose id and password both match, or None when none does. */
  function FirstMatch(accounts: seq<Account>, id: string, password: string): (r: Option<nat>)
    ensures r.Some? ==> r.value < |accounts| && accounts[r.value].Matches(id, password)
    ensures r.Some? ==> forall j :: 0 <= j < r.value ==> !accounts[j].Matches(id, password)
    ensures r.None? <==> forall j :: 0 <= j < |accounts| ==> !accounts[j].Matches(id, password)
  {
    FirstMatchFrom(accounts, id, password, 0)
  }

  /** Appending an account (a registration) never changes whom an existing
      credential pair logs in as; the new account is found only when no
      earlier one matches. */
  lemma {:induction false} FirstMatchAfterAppend(accounts: seq<Account>, a: Account, id: string, password: string)
    ensures FirstMatch(accounts + [a], id, password) ==
              match FirstMatch(accounts, id, password)
              case Some(k) => Some(k)
              case None => if a.Matches(id, password) then Some(|accounts|) else None
  {
    var ext := accounts + [a];
    assert forall j :: 0 <= j < |accounts| ==> ext[j] == accounts[j];
    assert ext[|accounts|] == a;
  }
}
