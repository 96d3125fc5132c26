/**
 * The decision of the `/check-account` (login) handler: look up the customer by
 * phone number, take the first row, and compare passwords exactly.
 */
module CheckAccount {
  import opened Wrappers

  /** The columns of a customer row, joined with its plan, that the decision reads. */
  datatype Account = Account(customerId: int, phoneNumber: string, pwd: string)

  /** The handler's outcomes: "No account found.", "Password incorrect.", or the profile. */
  datatype LoginResult = NoAccountFound | PasswordIncorrect | LoggedIn(account: Account)

  /** The lookup by phone number followed by `rows[0]`: the index of the first row
      with that phone number. */
  function FirstWithPhone(accounts: seq<Account>, phone: string): (k: Option<nat>)
    ensures k.Some? ==> k.value < |accounts| && accounts[k.value].phoneNumber == phone
    ensures k.Some? ==> forall j :: 0 <= j < k.value ==> accounts[j].phoneNumber != phone
    ensures k.None? <==> forall j :: 0 <= j < |accounts| ==> accounts[j].phoneNumber != phone
  {
    if accounts == [] then None
    else if accounts[0].phoneNumber == phone then Some(0)
    else match FirstWithPhone(accounts[1..], phone)
      case None => None
      case Some(i) => Some(i + 1)
  }

  /** The login decision. It only reads, so it cannot change any table. */
  function Login(accounts: seq<Account>, phone: string, pwd: string): (r: LoginResult)
    ensures r.NoAccountFound? <==> forall j :: 0 <= j < |accounts| ==> accounts[j].phoneNumber != phone
    ensures r.LoggedIn? ==> r.account in accounts && r.account.phoneNumber == phone && r.account.pwd == pwd
    ensures r.PasswordIncorrect? ==>
      exists j :: 0 <= j < |accounts| && accounts[j].phoneNumber == phone && accounts[j].pwd != pwd
  {
    match FirstWithPhone(accounts, phone)
    case None => NoAccountFound
    case Some(k) => if accounts[k].pwd == pwd then LoggedIn(accounts[k]) else PasswordIncorrect
  }

  /** No two rows share a phone number. */
  predicate UniquePhones(accounts: seq<Account>)
  {
    forall i, j :: 0 <= i < j < |accounts| ==> accounts[i].phoneNumber != accounts[j].phoneNumber
  }

  /** When phone numbers are unique, login succeeds exactly when some row has both the
      phone number and the password, and then it returns that row. */
  lemma LoginWithUniquePhones(accounts: seq<Account>, phone: string, pwd: string)
    requires UniquePhones(accounts)
    ensures Login(accounts, phone, pwd).LoggedIn? <==>
      exists j :: 0 <= j < |accounts| && accounts[j].phoneNumber == phone && accounts[j].pwd == pwd
    ensures forall j :: 0 <= j < |accounts| && accounts[j].phoneNumber == phone && accounts[j].pwd == pwd ==>
      Login(accounts, phone, pwd) == LoggedIn(accounts[j])
  {
    forall j | 0 <= j < |accounts| && accounts[j].phoneNumber == phone && accounts[j].pwd == pwd
      ensures Login(accounts, phone, pwd) == LoggedIn(accounts[j])
    {
      assert FirstWithPhone(accounts, phone) == Some(j);
    }
  }
}
