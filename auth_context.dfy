/**
 * The session of src/contexts/AuthContext.tsx: the demo accounts, login by
 * exact email and password match of an active account, logout, and the
 * derived `isAuthenticated` and `isAdmin` flags.
 */
module AuthContext {
  import opened Collections

  datatype Role = Admin | Cashier

  datatype User = User(
    id: string,
    email: string,
    name: string,
    role: Role,
    branchId: string,
    branchName: string,
    isActive: bool)

  /** A demo account: the credentials and the user they log in as. */
  datatype Account = Account(email: string, password: string, user: User)

  const MockAccounts: seq<Account> := [
    Account("admin@diff.ng", "admin123",
      User("1", "admin@diff.ng", "Admin User", Admin, "branch-1", "Diff Lagos - Lekki", true)),
    Account("cashier@diff.ng", "cashier123",
      User("2", "cashier@diff.ng", "Jane Cashier", Cashier, "branch-1", "Diff Lagos - Lekki", true))
  ]

  predicate Matches(a: Account, email: string, password: string)
  {
    a.email == email && a.password == password
  }

  /**
   * The user a login attempt signs in: the first account whose email and
   * password both match, provided that account is active.
   */
  function LoginUser(accounts: seq<Account>, email: string, password: string): (r: Option<User>)
    ensures r.Some? <==> exists k :: 0 <= k < |accounts| && Matches(accounts[k], email, password)
                                   && accounts[k].user.isActive
                                   && forall j :: 0 <= j < k ==> !Matches(accounts[j], email, password)
    ensures r.Some? ==> exists k :: 0 <= k < |accounts| && Matches(accounts[k], email, password)
                                  && r.value == accounts[k].user
                                  && forall j :: 0 <= j < k ==> !Matches(accounts[j], email, password)
  {
    var found := Find(accounts, (a: Account) => Matches(a, email, password));
    if found.Some? && found.value.user.isActive then Some(found.value.user) else None
  }

  /** `isAuthenticated`: a user is signed in. */
  predicate IsAuthenticated(user: Option<User>)
  {
    user.Some?
  }

  /** `isAdmin`: a user is signed in and has the admin role. */
  predicate IsAdmin(user: Option<User>)
  {
    user.Some? && user.value.role == Admin
  }

  /** The provider's `user` state. */
  class Session {
    var user: Option<User>

    /** A session that starts from the user the browser storage held, if any. */
    constructor (saved: Option<User>)
      ensures user == saved
    {
      user := saved;
    }

    /** `login`: true and the matching active user on success; false and no change otherwise. */
    method Login(email: string, password: string) returns (ok: bool)
      modifies this
      ensures ok <==> LoginUser(MockAccounts, email, password).Some?
      ensures ok ==> user == LoginUser(MockAccounts, email, password)
      ensures !ok ==> user == old(user)
    {
      var signedIn := LoginUser(MockAccounts, email, password);
      if signedIn.Some? {
        user := signedIn;
        return true;
      }
      return false;
    }

    /** `logout`: nobody is signed in afterwards. */
    method Logout()
      modifies this
      ensures user == None
    {
      user := None;
    }
  }

  /** Every demo account is active and their emails differ. */
  lemma MockAccountsActiveAndDistinct()
    ensures forall k :: 0 <= k < |MockAccounts| ==> MockAccounts[k].user.isActive
    ensures forall i, j :: 0 <= i < j < |MockAccounts| ==> MockAccounts[i].email != MockAccounts[j].email
  {
  }

  /** With the demo accounts, login succeeds exactly when some account matches both email and password. */
  lemma MockLoginIff(email: string, password: string)
    ensures LoginUser(MockAccounts, email, password).Some?
        <==> exists k :: 0 <= k < |MockAccounts| && Matches(MockAccounts[k], email, password)
    ensures forall k :: (0 <= k < |MockAccounts| && Matches(MockAccounts[k], email, password) ==>
                         LoginUser(MockAccounts, email, password) == Some(MockAccounts[k].user))
  {
    MockAccountsActiveAndDistinct();
    if exists k :: 0 <= k < |MockAccounts| && Matches(MockAccounts[k], email, password) {
      var k :| 0 <= k < |MockAccounts| && Matches(MockAccounts[k], email, password);
      var r := LoginUser(MockAccounts, email, password);
      var m :| 0 <= m < |MockAccounts| && Matches(MockAccounts[m], email, password)
        && r.value == MockAccounts[m].user;
    }
  }

  /** The admin credentials sign in the admin, who is authenticated and an admin. */
  lemma AdminLogin()
    ensures LoginUser(MockAccounts, "admin@diff.ng", "admin123") == Some(MockAccounts[0].user)
    ensures IsAdmin(LoginUser(MockAccounts, "admin@diff.ng", "admin123"))
  {
    MockLoginIff("admin@diff.ng", "admin123");
  }

  /** The cashier credentials sign in the cashier, who is authenticated but not an admin. */
  lemma CashierLogin()
    ensures LoginUser(MockAccounts, "cashier@diff.ng", "cashier123") == Some(MockAccounts[1].user)
    ensures IsAuthenticated(LoginUser(MockAccounts, "cashier@diff.ng", "cashier123"))
    ensures !IsAdmin(LoginUser(MockAccounts, "cashier@diff.ng", "cashier123"))
  {
    MockLoginIff("cashier@diff.ng", "cashier123");
  }
}
