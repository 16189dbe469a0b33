/**
 * The account lifecycle of the Express backend (backend/routes/auth.js):
 * registration with an expiring verification token, verification, and
 * login.
 *
 * The user collection, the outbox of sent mail and a counter that stands
 * for fresh document ids form a `Store` value. Registration and verification
 * are pure functions from the old store to an outcome and a new store, and
 * also methods of the class `AuthService`, which updates the same store in
 * place; login only reads the collection and stays a function.
 */
module ExpressAuth {
  import opened Wrappers
  import opened Strings

  /** `24 * 60 * 60 * 1000`: how long a verification token stays valid, in milliseconds. */
  const DayMs: int := 24 * 60 * 60 * 1000
  /** The bcrypt cost factor passed to `bcrypt.hash`. */
  const BcryptRounds: nat := 12
  const VerifyLinkBase := "http://your-vps-ip:2024/api/auth/verify/"
  const VerifySubject := "Verify your email"

  /**
   * A user document as this code reads and writes it. `None` stands for a
   * field that is absent (never written, or set to `undefined`).
   */
  datatype User = User(
    id: nat,
    email: string,
    password: string,
    verificationToken: Option<string>,
    verificationTokenExpiry: Option<int>,
    isVerified: Option<bool>)

  /** The payloads the code signs with `jwt.sign`. */
  datatype Claims = EmailClaim(email: string) | UserIdClaim(userId: nat)

  /**
   * The collaborators: `bcrypt.hash` (password, cost), `bcrypt.compare`
   * (plaintext, hash), `jwt.sign` (payload, expiresIn, issue time) with the
   * secret built in, the sender address, and whatever value the user schema
   * gives `isVerified` when a document is created without it.
   */
  datatype Config = Config(
    bcryptHash: (string, nat) -> string,
    bcryptCompare: (string, string) -> bool,
    jwtSign: (Claims, string, int) -> string,
    emailUser: string,
    isVerifiedDefault: Option<bool>)

  datatype Mail = Mail(sender: string, recipient: string, subject: string, html: string)

  datatype Store = Store(users: seq<User>, nextId: nat, outbox: seq<Mail>)

  /** Outcomes of each route; `Status` is the HTTP status the client sees. */
  datatype RegisterOutcome = Registered | EmailTaken | ServerError
  {
    function Status(): nat {
      match this
      case Registered => 201
      case EmailTaken => 400
      case ServerError => 500
    }
  }

  datatype VerifyOutcome = VerifiedOk | InvalidOrExpired
  {
    function Status(): nat {
      match this
      case VerifiedOk => 200
      case InvalidOrExpired => 400
    }
  }

  datatype LoginOutcome = Token(token: string) | InvalidCredentials | VerifyFirst
  {
    function Status(): nat {
      match this
      case Token(_) => 200
      case InvalidCredentials => 400
      case VerifyFirst => 400
    }
  }

  // ---------------------------------------------------------------------------
  // findOne

  /** The first element satisfying `p`, as `findOne` returns it in natural order. */
  function FirstIndex<T>(s: seq<T>, p: T -> bool): (r: Option<nat>)
    ensures r.None? <==> forall j :: 0 <= j < |s| ==> !p(s[j])
    ensures r.Some? ==> r.value < |s| && p(s[r.value]) && forall j :: 0 <= j < r.value ==> !p(s[j])
  {
    if |s| == 0 then None
    else if p(s[0]) then Some(0)
    else match FirstIndex(s[1..], p)
      case None => None
      case Some(k) => Some(k + 1)
  }

  predicate EmailRegistered(users: seq<User>, email: string) {
    exists i :: 0 <= i < |users| && users[i].email == email
  }

  /** `User.findOne({ email })` returns document `i`. */
  predicate FirstWithEmail(users: seq<User>, email: string, i: int) {
    && 0 <= i < |users|
    && users[i].email == email
    && forall j :: 0 <= j < i ==> users[j].email != email
  }

  /** The verification query: the token matches exactly and the expiry lies strictly after `now`. */
  predicate MatchesToken(u: User, token: string, now: int)
    ensures MatchesToken(u, token, now) ==> u.verificationToken == Some(token)
    ensures u.verificationTokenExpiry.None? ==> !MatchesToken(u, token, now)
    ensures forall e :: u.verificationTokenExpiry == Some(e) && e <= now ==> !MatchesToken(u, token, now)
    ensures forall e :: u.verificationToken == Some(token) && u.verificationTokenExpiry == Some(e) && e > now ==>
      MatchesToken(u, token, now)
  {
    && u.verificationToken == Some(token)
    && u.verificationTokenExpiry.Some?
    && u.verificationTokenExpiry.value > now
  }

  /** The document `i` is the first the verification query returns. */
  predicate FirstMatch(users: seq<User>, token: string, now: int, i: int) {
    && 0 <= i < |users|
    && MatchesToken(users[i], token, now)
    && forall j :: 0 <= j < i ==> !MatchesToken(users[j], token, now)
  }

  /** No document holds this verification token. */
  predicate NoHolder(users: seq<User>, token: string) {
    forall i :: 0 <= i < |users| ==> users[i].verificationToken != Some(token)
  }

  /** JavaScript truthiness of `user.isVerified`. */
  predicate IsVerified(u: User)
    ensures u.isVerified.None? ==> !IsVerified(u)
    ensures u.isVerified == Some(false) ==> !IsVerified(u)
    ensures u.isVerified == Some(true) ==> IsVerified(u)
  {
    u.isVerified == Some(true)
  }

  /**
   * Ids are below the counter and increase along the collection, emails are
   * unique, and a token and its expiry are present or absent together.
   */
  ghost predicate ValidStore(st: Store) {
    && (forall i :: 0 <= i < |st.users| ==> st.users[i].id < st.nextId)
    && (forall i, j :: 0 <= i < j < |st.users| ==> st.users[i].id < st.users[j].id)
    && (forall i, j :: 0 <= i < j < |st.users| ==> st.users[i].email != st.users[j].email)
    && (forall i :: 0 <= i < |st.users| ==>
          (st.users[i].verificationToken.Some? <==> st.users[i].verificationTokenExpiry.Some?))
  }

  // ---------------------------------------------------------------------------
  // POST /register

  /** The verification mail sent to a newly registered address. */
  function VerificationMail(cfg: Config, email: string, token: string): (m: Mail)
    ensures m.recipient == email && m.sender == cfg.emailUser && m.subject == VerifySubject
    ensures Contains(m.html, VerifyLinkBase + token)
  {
    var link := VerifyLinkBase + token;
    var before := "Please click <a href=\"";
    var html := before + link + "\">here</a> to verify your email.";
    assert html[|before|..|before| + |link|] == link;
    assert OccursAt(html, link, |before|);
    Mail(cfg.emailUser, email, VerifySubject, html)
  }

  /**
   * `/register`: refuse a registered email; otherwise store the user with the
   * bcrypt hash, a signed token and an expiry one day ahead, then mail the
   * link. A failing mail transport gives a server error after the user is
   * stored.
   */
  function RegisterResult(cfg: Config, st: Store, email: string, password: string, now: int,
                          mailDelivered: bool): (r: (RegisterOutcome, Store))
    ensures r.0 == EmailTaken <==> EmailRegistered(st.users, email)
    ensures r.0 == EmailTaken ==> r.1 == st
    ensures r.0 != EmailTaken ==>
      && |r.1.users| == |st.users| + 1
      && r.1.users[..|st.users|] == st.users
      && var u := r.1.users[|st.users|];
         && u.email == email
         && u.password == cfg.bcryptHash(password, 12)
         && u.verificationToken == Some(cfg.jwtSign(EmailClaim(email), "24h", now))
         && u.verificationTokenExpiry == Some(now + 86_400_000)
         && u.isVerified == cfg.isVerifiedDefault
    ensures r.0 == Registered <==> !EmailRegistered(st.users, email) && mailDelivered
    ensures r.0 == Registered ==>
      r.1.outbox == st.outbox + [VerificationMail(cfg, email, cfg.jwtSign(EmailClaim(email), "24h", now))]
    ensures r.0 != Registered ==> r.1.outbox == st.outbox
    ensures ValidStore(st) ==> ValidStore(r.1)
  {
    if EmailRegistered(st.users, email) then (EmailTaken, st)
    else
      var hashed := cfg.bcryptHash(password, BcryptRounds);
      var token := cfg.jwtSign(EmailClaim(email), "24h", now);
      var user := User(st.nextId, email, hashed, Some(token), Some(now + DayMs), cfg.isVerifiedDefault);
      var stored := st.(users := st.users + [user], nextId := st.nextId + 1);
      assert stored.users[..|st.users|] == st.users;
      if mailDelivered then (Registered, stored.(outbox := st.outbox + [VerificationMail(cfg, email, token)]))
      else (ServerError, stored)
  }

  // ---------------------------------------------------------------------------
  // GET /verify/:token

  /** The fields `/verify` writes: verified, token and expiry removed. */
  function Consume(u: User): (v: User)
    ensures IsVerified(v) && v.verificationToken.None? && v.verificationTokenExpiry.None?
    ensures v.id == u.id && v.email == u.email && v.password == u.password
  {
    u.(isVerified := Some(true), verificationToken := None, verificationTokenExpiry := None)
  }

  /**
   * `/verify/:token`: the first user whose token equals `token` and whose
   * expiry is after `now` is marked verified and loses token and expiry;
   * without such a user nothing changes.
   */
  function VerifyResult(st: Store, token: string, now: int): (r: (VerifyOutcome, Store))
    ensures r.0 == VerifiedOk <==> exists i :: 0 <= i < |st.users| && MatchesToken(st.users[i], token, now)
    ensures r.0 == InvalidOrExpired ==> r.1 == st
    ensures r.1.nextId == st.nextId && r.1.outbox == st.outbox
    ensures r.0 == VerifiedOk ==>
      exists i :: FirstMatch(st.users, token, now, i) && r.1.users == st.users[i := Consume(st.users[i])]
    ensures ValidStore(st) ==> ValidStore(r.1)
  {
    match FirstIndex(st.users, u => MatchesToken(u, token, now))
    case None => (InvalidOrExpired, st)
    case Some(i) =>
      assert FirstMatch(st.users, token, now, i);
      (VerifiedOk, st.(users := st.users[i := Consume(st.users[i])]))
  }

  /**
   * A token is rejected from one day after its registration on: whatever
   * token is presented at such a time, the new user's document is left as
   * registration wrote it, and a token no earlier user held is refused.
   */
  lemma TokenExpiresAfterADay(cfg: Config, st: Store, email: string, password: string, now: int,
                              mailDelivered: bool, token: string, t: int)
    requires RegisterResult(cfg, st, email, password, now, mailDelivered).0 != EmailTaken
    requires t >= now + DayMs
    ensures var registered := RegisterResult(cfg, st, email, password, now, mailDelivered).1;
            VerifyResult(registered, token, t).1.users[|st.users|] == registered.users[|st.users|]
    ensures var registered := RegisterResult(cfg, st, email, password, now, mailDelivered).1;
            NoHolder(st.users, token) ==> VerifyResult(registered, token, t) == (InvalidOrExpired, registered)
  {
  }

  /** Before the day is over, the freshly issued token verifies its user, unless an older user holds it too. */
  lemma TokenValidWithinADay(cfg: Config, st: Store, email: string, password: string, now: int,
                             mailDelivered: bool, t: int)
    requires RegisterResult(cfg, st, email, password, now, mailDelivered).0 != EmailTaken
    requires NoHolder(st.users, cfg.jwtSign(EmailClaim(email), "24h", now))
    requires t < now + DayMs
    ensures var registered := RegisterResult(cfg, st, email, password, now, mailDelivered).1;
            var verified := VerifyResult(registered, cfg.jwtSign(EmailClaim(email), "24h", now), t);
            && verified.0 == VerifiedOk
            && verified.1.users == registered.users[|st.users| := Consume(registered.users[|st.users|])]
  {
  }

  /**
   * Once a token has verified its only holder it is gone: presenting it
   * again, at any time, is refused and changes nothing.
   */
  lemma ReusedTokenRejected(st: Store, token: string, now: int, later: int)
    requires forall i, j :: 0 <= i < j < |st.users| ==>
      !(st.users[i].verificationToken == Some(token) && st.users[j].verificationToken == Some(token))
    requires VerifyResult(st, token, now).0 == VerifiedOk
    ensures var verified := VerifyResult(st, token, now).1;
            VerifyResult(verified, token, later) == (InvalidOrExpired, verified)
  {
  }

  // ---------------------------------------------------------------------------
  // POST /login

  /**
   * `/login`: an unknown email, then an unverified user, then a password that
   * does not compare equal are refused in that order; otherwise a token for
   * the user's id is issued. Login only reads the collection.
   */
  function LoginResult(cfg: Config, users: seq<User>, email: string, password: string, now: int): (r: LoginOutcome)
    ensures !EmailRegistered(users, email) ==> r == InvalidCredentials
    ensures forall i :: FirstWithEmail(users, email, i) ==>
      && (!IsVerified(users[i]) ==> r == VerifyFirst)
      && (IsVerified(users[i]) && !cfg.bcryptCompare(password, users[i].password) ==> r == InvalidCredentials)
      && (IsVerified(users[i]) && cfg.bcryptCompare(password, users[i].password) ==>
            r == Token(cfg.jwtSign(UserIdClaim(users[i].id), "7d", now)))
  {
    match FirstIndex(users, (u: User) => u.email == email)
    case None => InvalidCredentials
    case Some(i) =>
      assert forall k :: FirstWithEmail(users, email, k) ==> k == i;
      var user := users[i];
      if !IsVerified(user) then VerifyFirst
      else if !cfg.bcryptCompare(password, user.password) then InvalidCredentials
      else Token(cfg.jwtSign(UserIdClaim(user.id), "7d", now))
  }

  /** An unverified user is turned away whatever password is given: the password is never compared. */
  lemma UnverifiedIgnoresPassword(cfg: Config, users: seq<User>, email: string, p1: string, p2: string, now: int)
    requires LoginResult(cfg, users, email, p1, now) == VerifyFirst
    ensures LoginResult(cfg, users, email, p2, now) == VerifyFirst
  {
  }

  /**
   * The whole lifecycle of one new user: registration succeeds; login is
   * refused until the email is verified; verification within the day
   * succeeds; login with the registered password then issues a token; the
   * verification link cannot be used again. That `bcrypt.compare` accepts
   * the password `bcrypt.hash` was given is an assumption about bcrypt,
   * stated as a requirement.
   */
  lemma RegisterVerifyLogin(cfg: Config, st: Store, email: string, password: string, guess: string,
                            now: int, t: int, later: int)
    requires ValidStore(st)
    requires !EmailRegistered(st.users, email)
    requires NoHolder(st.users, cfg.jwtSign(EmailClaim(email), "24h", now))
    requires cfg.isVerifiedDefault != Some(true)
    requires cfg.bcryptCompare(password, cfg.bcryptHash(password, BcryptRounds))
    requires t < now + DayMs
    ensures var token := cfg.jwtSign(EmailClaim(email), "24h", now);
            var registered := RegisterResult(cfg, st, email, password, now, true);
            var verified := VerifyResult(registered.1, token, t);
            && registered.0 == Registered
            && LoginResult(cfg, registered.1.users, email, guess, t) == VerifyFirst
            && verified.0 == VerifiedOk
            && LoginResult(cfg, verified.1.users, email, password, later).Token?
            && VerifyResult(verified.1, token, later) == (InvalidOrExpired, verified.1)
  {
    var token, n := cfg.jwtSign(EmailClaim(email), "24h", now), |st.users|;
    var registered := RegisterResult(cfg, st, email, password, now, true).1;
    assert FirstWithEmail(registered.users, email, n) by {
      forall j | 0 <= j < n ensures registered.users[j].email != email {
        assert registered.users[j] == st.users[j];
      }
    }
    TokenValidWithinADay(cfg, st, email, password, now, true, t);
    var verified := VerifyResult(registered, token, t).1;
    assert FirstWithEmail(verified.users, email, n);
    assert verified.users[n].password == cfg.bcryptHash(password, BcryptRounds);
    assert verified.users[n].id == registered.users[n].id;
    forall i, j | 0 <= i < j < |registered.users|
      ensures !(registered.users[i].verificationToken == Some(token) && registered.users[j].verificationToken == Some(token))
    {
      assert registered.users[i] == st.users[i];
    }
    ReusedTokenRejected(registered, token, t, later);
  }

  // ---------------------------------------------------------------------------
  // The routes over a user collection updated in place

  class AuthService {
    const cfg: Config
    var users: seq<User>
    var nextId: nat
    var outbox: seq<Mail>

    function State(): Store
      reads this
    {
      Store(users, nextId, outbox)
    }

    ghost predicate Valid()
      reads this
    {
      ValidStore(State())
    }

    constructor (cfg: Config)
      ensures this.cfg == cfg
      ensures Valid() && State() == Store([], 0, [])
    {
      this.cfg := cfg;
      users, nextId, outbox := [], 0, [];
    }

    /** `/register`, with the clock reading `now` and the mail transport's success `mailDelivered`. */
    method Register(email: string, password: string, now: int, mailDelivered: bool)
      returns (outcome: RegisterOutcome)
      requires Valid()
      modifies this
      ensures (outcome, State()) == RegisterResult(cfg, old(State()), email, password, now, mailDelivered)
      ensures Valid()
    {
      if EmailRegistered(users, email) {
        return EmailTaken;
      }
      var hashed := cfg.bcryptHash(password, BcryptRounds);
      var token := cfg.jwtSign(EmailClaim(email), "24h", now);
      var user := User(nextId, email, hashed, Some(token), Some(now + DayMs), cfg.isVerifiedDefault);
      users := users + [user];
      nextId := nextId + 1;
      if !mailDelivered {
        return ServerError;
      }
      outbox := outbox + [VerificationMail(cfg, email, token)];
      outcome := Registered;
    }

    /** `/verify/:token`, with the clock reading `now`. */
    method Verify(token: string, now: int) returns (outcome: VerifyOutcome)
      requires Valid()
      modifies this
      ensures (outcome, State()) == VerifyResult(old(State()), token, now)
      ensures Valid()
    {
      var found := FirstIndex(users, u => MatchesToken(u, token, now));
      if found.None? {
        return InvalidOrExpired;
      }
      var i := found.value;
      var user := users[i];
      user := user.(isVerified := Some(true));
      user := user.(verificationToken := None);
      user := user.(verificationTokenExpiry := None);
      users := users[i := user];
      outcome := VerifiedOk;
    }
  }
}
