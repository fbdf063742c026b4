/**
 * The in-memory user store behind the authentication routes: a map from
 * email to user record, seeded with a demo account, that registration,
 * email verification and balance updates change in place.
 */
module Auth {
  import opened Wrappers
  import opened Strings
  import opened Seqs

  const DemoEmail: string := "demo@mcluck.com"
  const DemoPassword: string := "demo123"
  const DemoBalance: real := 1250.0
  const SignupBonus: real := 100.0
  const MinPasswordLength: nat := 6
  /** The one code the verification route accepts. */
  const VerificationCode: string := "123456"

  /** A stored account. `createdAt` is the clock reading (ms) that the ISO timestamp renders. */
  datatype User = User(id: string, email: string, password: string, balance: real,
                       verified: bool, referralCode: string, createdAt: int)

  /** The account as register, login and the user lookup send it: every field but the password. */
  datatype PublicUser = PublicUser(id: string, email: string, balance: real, verified: bool,
                                   referralCode: string, createdAt: int)

  /** One row of the admin user list: no password and no referral code. */
  datatype UserSummary = UserSummary(id: string, email: string, balance: real, verified: bool, createdAt: int)

  datatype Session = Session(token: string, user: PublicUser)

  /** The store after a handler ran, with the handler's reply. */
  datatype Outcome<T> = Outcome(users: map<string, User>, response: Response<T>)

  function Public(u: User): (p: PublicUser)
    ensures p.id == u.id && p.email == u.email && p.balance == u.balance
    ensures p.verified == u.verified && p.referralCode == u.referralCode && p.createdAt == u.createdAt
  {
    PublicUser(u.id, u.email, u.balance, u.verified, u.referralCode, u.createdAt)
  }

  function Summary(u: User): (s: UserSummary)
    ensures s.id == u.id && s.email == u.email && s.balance == u.balance
    ensures s.verified == u.verified && s.createdAt == u.createdAt
  {
    UserSummary(u.id, u.email, u.balance, u.verified, u.createdAt)
  }

  /** What the request schema accepts: a valid address and a password of at least six characters. */
  predicate ValidCredentials(email: string, password: string) {
    ValidEmail(email) && |password| >= MinPasswordLength
  }

  /** The id a registration made at clock reading `now` receives. */
  function UserId(now: nat): string {
    "user-" + Decimal(now)
  }

  /** `REF` followed by the upper-cased last six characters of the user id. */
  function ReferralCode(userId: string): (r: string)
    ensures |r| == 3 + (if |userId| < 6 then |userId| else 6)
    ensures r[..3] == "REF"
  {
    "REF" + Upper(TakeLast(userId, 6))
  }

  /**
   * Every id the store hands out is at least six characters long, so its
   * referral code has nine characters; once the clock reading has six
   * digits the code is `REF` and those last six digits.
   */
  lemma ReferralCodeOfId(now: nat)
    ensures |ReferralCode(UserId(now))| == 9
    ensures |Decimal(now)| >= 6 ==>
      ReferralCode(UserId(now)) == "REF" + Decimal(now)[|Decimal(now)| - 6..]
  {
    var id := UserId(now);
    var d := Decimal(now);
    if |d| >= 6 {
      var tail := TakeLast(id, 6);
      assert tail == d[|d| - 6..];
      assert Upper(tail) == tail;
    }
  }

  function Token(userId: string, now: nat): string {
    "token-" + userId + "-" + Decimal(now)
  }

  /** The account a registration at clock reading `now` creates. */
  function NewUser(email: string, password: string, now: nat): User {
    User(UserId(now), email, password, SignupBonus, false, ReferralCode(UserId(now)), now)
  }

  /** Every key is the email of its record and every balance is non-negative. */
  predicate WellFormed(users: map<string, User>) {
    forall e :: e in users ==> users[e].email == e && users[e].balance >= 0.0
  }

  /** Registration (auth.ts handleRegister). */
  function Register(users: map<string, User>, email: string, password: string, now: nat): (o: Outcome<Session>)
    ensures !ValidCredentials(email, password) ==> o == Outcome(users, Error(400, "Invalid request"))
    ensures ValidCredentials(email, password) && email in users ==>
      o == Outcome(users, Error(400, "Email already registered"))
    ensures ValidCredentials(email, password) && email !in users ==>
      && o.users.Keys == users.Keys + {email}
      && |o.users| == |users| + 1
      && (forall e :: e in users ==> o.users[e] == users[e])
      && o.users[email].email == email
      && o.users[email].password == password
      && o.users[email].balance == SignupBonus
      && !o.users[email].verified
      && o.users[email].id == UserId(now) && o.users[email].createdAt == now
      && o.users[email].referralCode == ReferralCode(o.users[email].id)
      && o.response.IsOk() && o.response.status == 201
      && o.response.body.token == Token(UserId(now), now)
      && o.response.body.user == Public(o.users[email])
    ensures WellFormed(users) ==> WellFormed(o.users)
  {
    if !ValidCredentials(email, password) then
      Outcome(users, Error(400, "Invalid request"))
    else if email in users then
      Outcome(users, Error(400, "Email already registered"))
    else
      var u := NewUser(email, password, now);
      Outcome(users[email := u], Reply(201, Session(Token(u.id, now), Public(u))))
  }

  /** Login (auth.ts handleLogin): a read-only credential check. */
  function Login(users: map<string, User>, email: string, password: string, now: nat): (r: Response<Session>)
    ensures r.IsOk() <==> ValidCredentials(email, password) && email in users && users[email].password == password
    ensures !ValidCredentials(email, password) ==> r == Error(400, "Invalid request")
    ensures ValidCredentials(email, password) && !r.IsOk() ==> r == Error(401, "Invalid credentials")
    ensures r.IsOk() ==> r.status == 200 && r.body.user == Public(users[email])
  {
    if !ValidCredentials(email, password) then Error(400, "Invalid request")
    else if email !in users || users[email].password != password then Error(401, "Invalid credentials")
    else
      var u := users[email];
      Reply(200, Session(Token(u.id, now), Public(u)))
  }

  /** Email verification (auth.ts handleVerifyEmail). */
  function VerifyEmail(users: map<string, User>, email: string, code: string): (o: Outcome<string>)
    ensures email !in users ==> o == Outcome(users, Error(404, "User not found"))
    ensures email in users && code != VerificationCode ==> o == Outcome(users, Error(400, "Invalid verification code"))
    ensures email in users && code == VerificationCode ==>
      && o.response.IsOk()
      && o.users.Keys == users.Keys
      && o.users[email] == users[email].(verified := true)
      && (forall e :: e in users && e != email ==> o.users[e] == users[e])
    ensures WellFormed(users) ==> WellFormed(o.users)
  {
    if email !in users then Outcome(users, Error(404, "User not found"))
    else if code == VerificationCode then
      Outcome(users[email := users[email].(verified := true)], Reply(200, "Email verified successfully"))
    else Outcome(users, Error(400, "Invalid verification code"))
  }

  /** `Math.max(0, balance + amount)`. */
  function ClampedBalance(balance: real, amount: real): (b: real)
    ensures b >= 0.0
    ensures b >= balance + amount
    ensures balance + amount >= 0.0 ==> b == balance + amount
    ensures balance + amount < 0.0 ==> b == 0.0
  {
    if balance + amount > 0.0 then balance + amount else 0.0
  }

  /** Balance update (auth.ts updateUserBalance); replies with the new balance. */
  function UpdateBalance(users: map<string, User>, email: string, amount: real): (o: Outcome<real>)
    ensures email !in users ==> o == Outcome(users, Error(404, "User not found"))
    ensures email in users ==>
      && o.response == Reply(200, ClampedBalance(users[email].balance, amount))
      && o.users == users[email := users[email].(balance := o.response.body)]
    ensures WellFormed(users) ==> WellFormed(o.users)
  {
    if email !in users then Outcome(users, Error(404, "User not found"))
    else
      var b := ClampedBalance(users[email].balance, amount);
      Outcome(users[email := users[email].(balance := b)], Reply(200, b))
  }

  /** User lookup (auth.ts getUser): an absent or empty email means the demo account. */
  function GetUser(users: map<string, User>, email: string): (r: Response<PublicUser>)
    ensures var key := if email == "" then DemoEmail else email;
      && (key in users ==> r == Reply(200, Public(users[key])))
      && (key !in users ==> r == Error(404, "User not found"))
  {
    var key := if email == "" then DemoEmail else email;
    if key in users then Reply(200, Public(users[key])) else Error(404, "User not found")
  }

  /** The admin list: one summary per key, in the given order. */
  function Summaries(users: map<string, User>, keys: seq<string>): (r: seq<UserSummary>)
    requires forall i :: 0 <= i < |keys| ==> keys[i] in users
    ensures |r| == |keys|
    ensures forall i :: 0 <= i < |keys| ==> r[i] == Summary(users[keys[i]])
  {
    if keys == [] then [] else [Summary(users[keys[0]])] + Summaries(users, keys[1..])
  }

  /** A successful registration can be followed by a successful login with the same credentials. */
  lemma RegisterThenLogin(users: map<string, User>, email: string, password: string, now: nat, later: nat)
    requires Register(users, email, password, now).response.IsOk()
    ensures Login(Register(users, email, password, now).users, email, password, later).IsOk()
  {
  }

  /** Registration never overwrites an account: the stored record of an existing email is unchanged. */
  lemma RegisterKeepsExisting(users: map<string, User>, email: string, password: string, now: nat, e: string)
    requires e in users
    ensures e in Register(users, email, password, now).users
    ensures Register(users, email, password, now).users[e] == users[e]
  {
  }

  /**
   * The store. `order` lists the keys in insertion order, which is the
   * order in which the admin list enumerates them.
   */
  class UserStore {
    var users: map<string, User>
    var order: seq<string>

    ghost predicate Valid()
      reads this
    {
      && WellFormed(users)
      && (forall i, j :: 0 <= i < j < |order| ==> order[i] != order[j])
      && (forall i :: 0 <= i < |order| ==> order[i] in users)
      && (forall e :: e in users ==> e in order)
    }

    /** The store at start-up, holding only the demo account created at `startedAt`. */
    constructor (startedAt: nat)
      ensures Valid()
      ensures users == map[DemoEmail := User("user-1", DemoEmail, DemoPassword, DemoBalance, true, "MCLUCK2024", startedAt)]
      ensures order == [DemoEmail]
    {
      users := map[DemoEmail := User("user-1", DemoEmail, DemoPassword, DemoBalance, true, "MCLUCK2024", startedAt)];
      order := [DemoEmail];
    }

    method HandleRegister(email: string, password: string, now: nat) returns (r: Response<Session>)
      requires Valid()
      modifies this
      ensures Valid()
      ensures users == Register(old(users), email, password, now).users
      ensures r == Register(old(users), email, password, now).response
      ensures order == if r.IsOk() then old(order) + [email] else old(order)
    {
      var o := Register(users, email, password, now);
      if o.response.IsOk() {
        order := order + [email];
      }
      users := o.users;
      r := o.response;
    }

    method HandleVerifyEmail(email: string, code: string) returns (r: Response<string>)
      requires Valid()
      modifies this
      ensures Valid()
      ensures users == VerifyEmail(old(users), email, code).users
      ensures r == VerifyEmail(old(users), email, code).response
      ensures order == old(order)
    {
      var o := VerifyEmail(users, email, code);
      users := o.users;
      r := o.response;
    }

    method UpdateUserBalance(email: string, amount: real) returns (r: Response<real>)
      requires Valid()
      modifies this
      ensures Valid()
      ensures users == UpdateBalance(old(users), email, amount).users
      ensures r == UpdateBalance(old(users), email, amount).response
      ensures order == old(order)
    {
      var o := UpdateBalance(users, email, amount);
      users := o.users;
      r := o.response;
    }

    /** The admin list (auth.ts getAllUsers): one row per stored account, in insertion order. */
    function GetAllUsers(): (r: seq<UserSummary>)
      reads this
      requires Valid()
      ensures |r| == |users|
      ensures forall i :: 0 <= i < |r| ==> r[i].email in users && r[i] == Summary(users[r[i].email])
      ensures forall e :: e in users ==> exists i :: 0 <= i < |r| && r[i].email == e
    {
      OrderCoversKeys();
      var r := Summaries(users, order);
      assert forall e :: e in users ==> exists i :: 0 <= i < |r| && r[i].email == e by {
        forall e | e in users ensures exists i :: 0 <= i < |r| && r[i].email == e {
          var i :| 0 <= i < |order| && order[i] == e;
          assert r[i].email == e;
        }
      }
      r
    }

    /** Distinct keys listing every key of the map: as many as the map has. */
    lemma OrderCoversKeys()
      requires Valid()
      ensures |order| == |users|
    {
      var ks := set i | 0 <= i < |order| :: order[i];
      assert ks == users.Keys;
      DistinctCard(order);
    }
  }
}
