/**
 * The account lifecycle of the Django backend (backend/grayapp/views.py):
 * signup with an emailed signed link, email verification, the public user
 * listing, and the authenticated user's own profile read and update.
 *
 * The account table, the outbox of sent mail and the id counter form a
 * `Store` value. Each operation is first given as a pure function from the
 * old store to an outcome and a new store, and then as a method of the class
 * `AccountService`, which keeps the same store in fields and updates them in
 * place; each method is proved to do exactly what its function says.
 */
module DjangoAccounts {
  import opened Wrappers
  import opened Strings

  /** Fixed parts of the verification mail. */
  const VerifyLinkBase := "http://localhost:8000/api/verify-email/"
  const VerifySubject := "Vérification de votre email"
  const VerifyIntro := "Cliquez sur le lien suivant pour vérifier votre email : "

  /** A row of Django's user table, restricted to the fields this code uses. */
  datatype Account = Account(id: nat, username: string, email: string, password: string, isActive: bool)

  /** What `UserSerializer` exposes of an account. */
  datatype PublicUser = PublicUser(id: nat, username: string, email: string)

  datatype Mail = Mail(subject: string, message: string, fromEmail: string, recipients: seq<string>)

  /**
   * The process-wide `Signer`: `unsign` gives `None` where Django raises
   * `BadSignature`. Nothing is assumed about how the two are related.
   */
  datatype Signer = Signer(sign: string -> string, unsign: string -> Option<string>)

  /** The collaborators: the signer, `make_password` and `DEFAULT_FROM_EMAIL`. */
  datatype Config = Config(signer: Signer, makePassword: string -> string, defaultFromEmail: string)

  datatype Store = Store(accounts: seq<Account>, nextId: nat, outbox: seq<Mail>)

  /** Outcomes of each view; `Status` is the HTTP status the client sees. */
  datatype SignupOutcome = Created | DuplicateUsername | MailFailed
  {
    function Status(): nat {
      match this
      case Created => 201
      case DuplicateUsername => 400
      case MailFailed => 500
    }
  }

  datatype VerifyOutcome = Verified | AlreadyVerified | InvalidLink | MultipleAccounts
  {
    function Status(): nat {
      match this
      case Verified => 200
      case AlreadyVerified => 400
      case InvalidLink => 400
      case MultipleAccounts => 500
    }
  }

  datatype UpdateOutcome = Updated | SaveRejected
  {
    function Status(): nat {
      match this
      case Updated => 200
      case SaveRejected => 500
    }
  }

  /** A value of the request body, as far as this code distinguishes them. */
  datatype JsonValue = JsonNull | JsonString(s: string)

  /** The body of an update request: `None` where the key is absent. */
  datatype Patch = Patch(username: Option<JsonValue>, email: Option<JsonValue>, password: Option<JsonValue>)

  // ---------------------------------------------------------------------------
  // Store invariant and queries

  /**
   * Ids are positive, below the counter and increase along the table, and
   * usernames are unique (the user table declares `username` unique).
   */
  ghost predicate ValidStore(st: Store) {
    && 0 < st.nextId
    && (forall i :: 0 <= i < |st.accounts| ==> 0 < st.accounts[i].id < st.nextId)
    && (forall i, j :: 0 <= i < j < |st.accounts| ==> st.accounts[i].id < st.accounts[j].id)
    && (forall i, j :: 0 <= i < j < |st.accounts| ==> st.accounts[i].username != st.accounts[j].username)
  }

  predicate UsernameTaken(accounts: seq<Account>, username: string) {
    exists i :: 0 <= i < |accounts| && accounts[i].username == username
  }

  predicate UsernameTakenByOther(accounts: seq<Account>, username: string, who: nat) {
    exists i :: 0 <= i < |accounts| && i != who && accounts[i].username == username
  }

  predicate NoAccountWith(accounts: seq<Account>, email: string) {
    forall i :: 0 <= i < |accounts| ==> accounts[i].email != email
  }

  /** Account `i` is the one and only account with this email. */
  predicate SoleHolder(accounts: seq<Account>, email: string, i: int) {
    && 0 <= i < |accounts|
    && accounts[i].email == email
    && forall j :: 0 <= j < |accounts| && j != i ==> accounts[j].email != email
  }

  /** The three ways `User.objects.get(email=...)` can end. */
  datatype Lookup = NotFound | Found(index: nat) | Ambiguous

  function LookupByEmail(accounts: seq<Account>, email: string): (r: Lookup)
    ensures r.NotFound? <==> NoAccountWith(accounts, email)
    ensures r.Found? ==> SoleHolder(accounts, email, r.index)
    ensures r.Ambiguous? ==>
      exists i, j :: 0 <= i < j < |accounts| && accounts[i].email == email && accounts[j].email == email
  {
    if |accounts| == 0 then NotFound
    else
      var n := |accounts| - 1;
      var prefix := accounts[..n];
      var r := LookupByEmail(prefix, email);
      assert forall i :: 0 <= i < n ==> prefix[i] == accounts[i];
      if accounts[n].email != email then r
      else if r.NotFound? then Found(n)
      else if r.Found? then
        assert accounts[r.index].email == email;
        Ambiguous
      else Ambiguous
  }

  // ---------------------------------------------------------------------------
  // send_verification_email and signup

  /** The mail `send_verification_email` sends for an account with this email. */
  function VerificationMail(cfg: Config, email: string): (m: Mail)
    ensures m.recipients == [email] && m.subject == VerifySubject && m.fromEmail == cfg.defaultFromEmail
    ensures Contains(m.message, VerifyLinkBase + cfg.signer.sign(email))
  {
    var link := VerifyLinkBase + cfg.signer.sign(email);
    var message := VerifyIntro + link;
    assert message[|VerifyIntro|..|VerifyIntro| + |link|] == link;
    assert OccursAt(message, link, |VerifyIntro|);
    Mail(VerifySubject, message, cfg.defaultFromEmail, [email])
  }

  /** The account `signup` creates, apart from its id. */
  predicate FreshAccount(a: Account, username: string, email: string, hashed: string) {
    a.username == username && a.email == email && a.password == hashed && !a.isActive
  }

  /**
   * `signup`: refuse a taken username; otherwise create an inactive account
   * with the hashed password, then mail the signed link. A failing mail
   * transport raises after the account is stored. Django's `send_mail` drops
   * empty addresses and, with no recipient left, returns without sending or
   * raising, so an empty email gives success and no mail.
   */
  function SignupResult(cfg: Config, st: Store, username: string, password: string, email: string,
                        mailDelivered: bool): (r: (SignupOutcome, Store))
    ensures r.0 == DuplicateUsername <==> UsernameTaken(st.accounts, username)
    ensures r.0 == DuplicateUsername ==> r.1 == st
    ensures r.0 != DuplicateUsername ==>
      && |r.1.accounts| == |st.accounts| + 1
      && r.1.accounts[..|st.accounts|] == st.accounts
      && FreshAccount(r.1.accounts[|st.accounts|], username, email, cfg.makePassword(password))
    ensures r.0 == Created <==> !UsernameTaken(st.accounts, username) && (email == "" || mailDelivered)
    ensures r.1.outbox ==
      if r.0 == Created && email != "" then st.outbox + [VerificationMail(cfg, email)] else st.outbox
    ensures ValidStore(st) ==> ValidStore(r.1)
  {
    if UsernameTaken(st.accounts, username) then (DuplicateUsername, st)
    else
      var account := Account(st.nextId, username, email, cfg.makePassword(password), false);
      var stored := st.(accounts := st.accounts + [account], nextId := st.nextId + 1);
      assert stored.accounts[..|st.accounts|] == st.accounts;
      if email == "" then (Created, stored)
      else if mailDelivered then (Created, stored.(outbox := st.outbox + [VerificationMail(cfg, email)]))
      else (MailFailed, stored)
  }

  // ---------------------------------------------------------------------------
  // verify_email

  /** The table with account `i` switched to active and nothing else touched. */
  function Activate(accounts: seq<Account>, i: nat): (r: seq<Account>)
    requires i < |accounts|
    ensures |r| == |accounts| && r[i].isActive
    ensures r[i].id == accounts[i].id && r[i].username == accounts[i].username
    ensures r[i].email == accounts[i].email && r[i].password == accounts[i].password
    ensures forall j :: 0 <= j < |accounts| && j != i ==> r[j] == accounts[j]
  {
    accounts[i := accounts[i].(isActive := true)]
  }

  /**
   * `verify_email`: a token that does not unsign or names no account is an
   * invalid link; several accounts with that email make `get` raise; an
   * active account is already verified; otherwise it is activated.
   */
  function VerifyEmailResult(cfg: Config, st: Store, token: string): (r: (VerifyOutcome, Store))
    ensures r.0 != Verified ==> r.1 == st
    ensures r.1.nextId == st.nextId && r.1.outbox == st.outbox
    ensures r.0 == InvalidLink <==>
      cfg.signer.unsign(token).None? || NoAccountWith(st.accounts, cfg.signer.unsign(token).value)
    ensures r.0 == MultipleAccounts ==>
      && cfg.signer.unsign(token).Some?
      && var e := cfg.signer.unsign(token).value;
         exists i, j :: 0 <= i < j < |st.accounts| && st.accounts[i].email == e && st.accounts[j].email == e
    ensures r.0 == Verified || r.0 == AlreadyVerified ==>
      && cfg.signer.unsign(token).Some?
      && exists i :: SoleHolder(st.accounts, cfg.signer.unsign(token).value, i)
                     && (st.accounts[i].isActive <==> r.0 == AlreadyVerified)
                     && (r.0 == Verified ==> r.1.accounts == Activate(st.accounts, i))
    ensures ValidStore(st) ==> ValidStore(r.1)
  {
    match cfg.signer.unsign(token)
    case None => (InvalidLink, st)
    case Some(email) =>
      match LookupByEmail(st.accounts, email)
      case NotFound => (InvalidLink, st)
      case Ambiguous => (MultipleAccounts, st)
      case Found(i) =>
        if st.accounts[i].isActive then (AlreadyVerified, st)
        else (Verified, st.(accounts := Activate(st.accounts, i)))
  }

  /** A second verification with the token that just succeeded reports "already verified". */
  lemma VerifyTwiceIsAlreadyVerified(cfg: Config, st: Store, token: string)
    requires VerifyEmailResult(cfg, st, token).0 == Verified
    ensures var st' := VerifyEmailResult(cfg, st, token).1;
            VerifyEmailResult(cfg, st', token) == (AlreadyVerified, st')
  {
    var st' := VerifyEmailResult(cfg, st, token).1;
    var e := cfg.signer.unsign(token).value;
    var i :| SoleHolder(st.accounts, e, i) && !st.accounts[i].isActive
             && st'.accounts == Activate(st.accounts, i);
    assert SoleHolder(st'.accounts, e, i);
    assert st'.accounts[i].isActive;
  }

  // ---------------------------------------------------------------------------
  // get_users, get_authenticated_user

  /** `UserSerializer`: the id, username and email of an account, and nothing else. */
  function Serialize(a: Account): (r: PublicUser)
    ensures r.id == a.id && r.username == a.username && r.email == a.email
  {
    PublicUser(a.id, a.username, a.email)
  }

  /** `get_users`: one public record per account, in the order of the sequence. */
  function GetUsers(accounts: seq<Account>): (r: seq<PublicUser>)
    ensures |r| == |accounts|
    ensures forall i :: 0 <= i < |accounts| ==>
      r[i].id == accounts[i].id && r[i].username == accounts[i].username && r[i].email == accounts[i].email
  {
    if |accounts| == 0 then []
    else GetUsers(accounts[..|accounts| - 1]) + [Serialize(accounts[|accounts| - 1])]
  }

  /** Two tables that agree on ids, usernames and emails list the same. */
  lemma ListingHidesSecrets(a: seq<Account>, b: seq<Account>)
    requires |a| == |b|
    requires forall i :: 0 <= i < |a| ==> Serialize(a[i]) == Serialize(b[i])
    ensures GetUsers(a) == GetUsers(b)
  {
  }

  /** Verification never changes what the listing shows: activation is not exposed. */
  lemma VerifyKeepsListing(cfg: Config, st: Store, token: string)
    ensures GetUsers(VerifyEmailResult(cfg, st, token).1.accounts) == GetUsers(st.accounts)
  {
  }

  /** `get_authenticated_user`: the caller's own entry of the listing. */
  function GetAuthenticatedUser(st: Store, who: nat): (r: PublicUser)
    requires who < |st.accounts|
    ensures r == GetUsers(st.accounts)[who]
  {
    Serialize(st.accounts[who])
  }

  // ---------------------------------------------------------------------------
  // update_authenticated_user

  /** `request.data.get(key, current)`; `None` stands for a JSON null. */
  function GetOr(field: Option<JsonValue>, current: string): (r: Option<string>)
    ensures field.None? ==> r == Some(current)
    ensures r.None? <==> field == Some(JsonNull)
    ensures forall s :: field == Some(JsonString(s)) ==> r == Some(s)
  {
    match field
    case None => Some(current)
    case Some(JsonNull) => None
    case Some(JsonString(s)) => Some(s)
  }

  /** Python truthiness of `request.data.get('password')`. */
  predicate Truthy(field: Option<JsonValue>)
    ensures field.None? ==> !Truthy(field)
    ensures field == Some(JsonNull) ==> !Truthy(field)
    ensures field == Some(JsonString("")) ==> !Truthy(field)
    ensures forall s :: field == Some(JsonString(s)) && s != "" ==> Truthy(field)
  {
    field.Some? && field.value.JsonString? && field.value.s != ""
  }

  /**
   * `update_authenticated_user`: username and email are taken from the body
   * whenever their key is present, the password only when it is truthy and
   * then hashed; one `save` writes all three. The save fails, and nothing is
   * written, when a NOT NULL column gets a null or the username clashes with
   * another account's.
   */
  function UpdateResult(cfg: Config, st: Store, who: nat, patch: Patch): (r: (UpdateOutcome, Store))
    requires who < |st.accounts|
    ensures r.0 == SaveRejected <==>
      || patch.username == Some(JsonNull)
      || patch.email == Some(JsonNull)
      || (patch.username.Some? && patch.username.value.JsonString?
          && UsernameTakenByOther(st.accounts, patch.username.value.s, who))
      || (patch.username.None? && UsernameTakenByOther(st.accounts, st.accounts[who].username, who))
    ensures r.0 == SaveRejected ==> r.1 == st
    ensures r.1.nextId == st.nextId && r.1.outbox == st.outbox && |r.1.accounts| == |st.accounts|
    ensures forall j :: 0 <= j < |st.accounts| && j != who ==> r.1.accounts[j] == st.accounts[j]
    ensures r.0 == Updated ==>
      var old_, new_ := st.accounts[who], r.1.accounts[who];
      && new_.id == old_.id && new_.isActive == old_.isActive
      && (patch.username.None? ==> new_.username == old_.username)
      && (patch.username.Some? ==> new_.username == patch.username.value.s)
      && (patch.email.None? ==> new_.email == old_.email)
      && (patch.email.Some? ==> new_.email == patch.email.value.s)
      && (Truthy(patch.password) ==> new_.password == cfg.makePassword(patch.password.value.s))
      && (!Truthy(patch.password) ==> new_.password == old_.password)
    ensures ValidStore(st) ==> ValidStore(r.1)
  {
    var user := st.accounts[who];
    var username := GetOr(patch.username, user.username);
    var email := GetOr(patch.email, user.email);
    var password := if Truthy(patch.password) then cfg.makePassword(patch.password.value.s) else user.password;
    if username.None? || email.None? || UsernameTakenByOther(st.accounts, username.value, who) then
      (SaveRejected, st)
    else
      var user' := user.(username := username.value, email := email.value, password := password);
      (Updated, st.(accounts := st.accounts[who := user']))
  }

  /** An update that carries only a new email changes only the email. */
  lemma UpdateEmailOnly(cfg: Config, st: Store, who: nat, email: string)
    requires ValidStore(st) && who < |st.accounts|
    ensures var r := UpdateResult(cfg, st, who, Patch(None, Some(JsonString(email)), None));
            && r.0 == Updated
            && r.1.accounts == st.accounts[who := st.accounts[who].(email := email)]
  {
  }

  /**
   * The whole lifecycle of one new account: signup succeeds, the account is
   * listed, the link mailed to a non-empty address carries the token, the first verification
   * with that token activates the account and the second reports "already
   * verified". That `unsign` inverts `sign` is an assumption about Django's
   * signer, stated as a requirement.
   */
  lemma SignupThenVerifyTwice(cfg: Config, st: Store, username: string, password: string, email: string)
    requires ValidStore(st)
    requires !UsernameTaken(st.accounts, username)
    requires NoAccountWith(st.accounts, email)
    requires cfg.signer.unsign(cfg.signer.sign(email)) == Some(email)
    ensures var n, token := |st.accounts|, cfg.signer.sign(email);
            var signedUp := SignupResult(cfg, st, username, password, email, true);
            var first := VerifyEmailResult(cfg, signedUp.1, token);
            var second := VerifyEmailResult(cfg, first.1, token);
            && signedUp.0 == Created
            && GetUsers(signedUp.1.accounts)[n].username == username
            && GetUsers(signedUp.1.accounts)[n].email == email
            && (email != "" ==> Contains(signedUp.1.outbox[|st.outbox|].message, VerifyLinkBase + token))
            && first.0 == Verified
            && first.1.accounts[n].isActive
            && second == (AlreadyVerified, first.1)
  {
  }

  /** No operation turns an active account back to inactive. */
  lemma ActivationIsPermanent(cfg: Config, st: Store, i: nat, username: string, password: string,
                              email: string, mailDelivered: bool, token: string, who: nat, patch: Patch)
    requires i < |st.accounts| && st.accounts[i].isActive
    ensures SignupResult(cfg, st, username, password, email, mailDelivered).1.accounts[i].isActive
    ensures VerifyEmailResult(cfg, st, token).1.accounts[i].isActive
    ensures who < |st.accounts| ==> UpdateResult(cfg, st, who, patch).1.accounts[i].isActive
  {
  }

  // ---------------------------------------------------------------------------
  // The account service: the same store, updated in place

  class AccountService {
    const cfg: Config
    var accounts: seq<Account>
    var nextId: nat
    var outbox: seq<Mail>

    function State(): Store
      reads this
    {
      Store(accounts, nextId, outbox)
    }

    ghost predicate Valid()
      reads this
    {
      ValidStore(State())
    }

    constructor (cfg: Config)
      ensures this.cfg == cfg
      ensures Valid() && State() == Store([], 1, [])
    {
      this.cfg := cfg;
      accounts, nextId, outbox := [], 1, [];
    }

    /**
     * `send_verification_email`; `delivered` is whether the transport accepts
     * the mail, and `ok` is false when `send_mail` raises. An empty address
     * leaves no recipient, and then nothing is sent and nothing raised.
     */
    method SendVerificationEmail(email: string, delivered: bool) returns (ok: bool)
      modifies this`outbox
      ensures ok <==> email == "" || delivered
      ensures outbox == if email != "" && delivered then old(outbox) + [VerificationMail(cfg, email)] else old(outbox)
    {
      if email == "" {
        return true;
      }
      ok := delivered;
      if delivered {
        outbox := outbox + [VerificationMail(cfg, email)];
      }
    }

    method Signup(username: string, password: string, email: string, mailDelivered: bool)
      returns (outcome: SignupOutcome)
      requires Valid()
      modifies this
      ensures (outcome, State()) == SignupResult(cfg, old(State()), username, password, email, mailDelivered)
      ensures Valid()
    {
      if UsernameTaken(accounts, username) {
        return DuplicateUsername;
      }
      accounts := accounts + [Account(nextId, username, email, cfg.makePassword(password), false)];
      nextId := nextId + 1;
      var ok := SendVerificationEmail(email, mailDelivered);
      outcome := if ok then Created else MailFailed;
    }

    method VerifyEmail(token: string) returns (outcome: VerifyOutcome)
      requires Valid()
      modifies this
      ensures Valid()
      ensures (outcome, State()) == VerifyEmailResult(cfg, old(State()), token)
    {
      var email := cfg.signer.unsign(token);
      if email.None? {
        return InvalidLink;
      }
      var found := LookupByEmail(accounts, email.value);
      match found
      case NotFound =>
        outcome := InvalidLink;
      case Ambiguous =>
        outcome := MultipleAccounts;
      case Found(i) =>
        if accounts[i].isActive {
          outcome := AlreadyVerified;
        } else {
          accounts := accounts[i := accounts[i].(isActive := true)];
          outcome := Verified;
        }
    }

    /** The caller is the authenticated account at position `who`. */
    method UpdateAuthenticatedUser(who: nat, patch: Patch) returns (outcome: UpdateOutcome)
      requires Valid() && who < |accounts|
      modifies this
      ensures Valid()
      ensures (outcome, State()) == UpdateResult(cfg, old(State()), who, patch)
    {
      var user := accounts[who];
      var username := GetOr(patch.username, user.username);
      var email := GetOr(patch.email, user.email);
      if Truthy(patch.password) {
        user := user.(password := cfg.makePassword(patch.password.value.s));
      }
      if username.None? || email.None? || UsernameTakenByOther(accounts, username.value, who) {
        return SaveRejected;
      }
      user := user.(username := username.value, email := email.value);
      accounts := accounts[who := user];
      outcome := Updated;
    }
  }
}
