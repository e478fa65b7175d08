/** The account-activation workflow of the users router: signup stores a fresh
    verification code in the cache under the new user's email, and activation
    checks the user, the first-login flag and the code, in that order, before
    flipping the user's two flags.

    The user table is a map from email to the user's flags, the cache a map
    from email to the stored code and its expiry.  The pure functions below
    give the outcome and the new state of each handler; the class Router runs
    them on mutable state, and the lemmas state what the workflow promises,
    over one call and over any sequence of signups, activations and expiries. */
module UserRouter {
  import opened Codes

  type Email = string

  datatype Option<T> = None | Some(value: T)

  /** The two columns of a user row that the workflow reads and writes. */
  datatype UserFlags = UserFlags(isFirstLogin: bool, isVerified: bool)

  /** A cache value together with the expiry it was stored with, in seconds. */
  datatype CacheEntry = CacheEntry(code: string, ttl: nat)

  /** The persistent user table and the ephemeral cache. */
  datatype Store = Store(users: map<Email, UserFlags>, cache: map<Email, CacheEntry>)

  datatype SignupResult =
    | Created(code: string)  // the code that was cached and mailed
    | EmailTaken            // the user row could not be created

  datatype ActivateResult =
    | NotFound          // 404 "user not found"
    | AlreadyActivated  // 403 "You've already activated your account"
    | CodeExpired       // 403 "code has expired": wrong code or no cached code
    | Activated         // 200 "account confirmed sucessfully"
  {
    /** The HTTP status the handler answers with. */
    function Status(): (status: int)
      ensures status == 200 <==> Activated?
      ensures status == 404 <==> NotFound?
      ensures status == 403 <==> (AlreadyActivated? || CodeExpired?)
    {
      match this
      case NotFound => 404
      case AlreadyActivated => 403
      case CodeExpired => 403
      case Activated => 200
    }
  }

  /** What cache.get(email) returns: the stored text, or nothing once the entry
      has expired or was never set. */
  function Lookup(cache: map<Email, CacheEntry>, email: Email): (r: Option<string>)
    ensures r.Some? <==> email in cache
    ensures r.Some? ==> r.value == cache[email].code
  {
    if email in cache then Some(cache[email].code) else None
  }

  // ---------------------------------------------------------------- signup

  /** The outcome of signup when the draw gives `draw`: the new row can be
      created only for an email that has no row yet. */
  function SignupOutcome(s: Store, email: Email, draw: CodeDraw): (r: SignupResult)
    ensures r == EmailTaken <==> email in s.users
    ensures r.Created? ==> r.code == DecimalString(draw) && IsVerificationCode(r.code)
  {
    DrawIsVerificationCode(draw);
    if email in s.users then EmailTaken else Created(DecimalString(draw))
  }

  /** The state after signup: a row with the flags the store gives a new user,
      and the code's text cached under the email with expiry CodeTtl. */
  function AfterSignup(s: Store, email: Email, initial: UserFlags, draw: CodeDraw): (t: Store)
    ensures email in s.users ==> t == s
    ensures email !in s.users ==>
              t.users == s.users[email := initial] &&
              t.cache == s.cache[email := CacheEntry(DecimalString(draw), CodeTtl)]
  {
    if email in s.users then s
    else Store(s.users[email := initial], s.cache[email := CacheEntry(DecimalString(draw), CodeTtl)])
  }

  // ------------------------------------------------------------ activation

  /** The outcome of activation: the three guards in the handler's order. */
  function ActivateOutcome(s: Store, email: Email, code: string): (r: ActivateResult)
    ensures r == NotFound <==> email !in s.users
    ensures r == AlreadyActivated <==> email in s.users && !s.users[email].isFirstLogin
    ensures r == CodeExpired <==>
              email in s.users && s.users[email].isFirstLogin && Lookup(s.cache, email) != Some(code)
    ensures r == Activated <==>
              email in s.users && s.users[email].isFirstLogin && Lookup(s.cache, email) == Some(code)
  {
    if email !in s.users then NotFound
    else if !s.users[email].isFirstLogin then AlreadyActivated
    else if Lookup(s.cache, email) != Some(code) then CodeExpired
    else Activated
  }

  /** The state after activation: on success the user is verified and no
      longer on first login; nothing else, and never the cache, changes. */
  function AfterActivate(s: Store, email: Email, code: string): (t: Store)
    ensures t.cache == s.cache && t.users.Keys == s.users.Keys
    ensures ActivateOutcome(s, email, code) == Activated ==>
              t.users == s.users[email := UserFlags(false, true)]
    ensures ActivateOutcome(s, email, code) != Activated ==> t == s
  {
    if ActivateOutcome(s, email, code) == Activated
    then s.(users := s.users[email := UserFlags(isFirstLogin := false, isVerified := true)])
    else s
  }

  // --------------------------------------------------------------- expiry

  /** The state once the cache has dropped the email's entry (its TTL ran out). */
  function AfterExpiry(s: Store, email: Email): (t: Store)
    ensures t.users == s.users && email !in t.cache
    ensures t.cache == s.cache - {email}
  {
    s.(cache := s.cache - {email})
  }

  // ------------------------------------------------------ the handlers

  /** The users router's state: the user table and the cache it shares. */
  class Router {
    var users: map<Email, UserFlags>
    var cache: map<Email, CacheEntry>

    function State(): Store
      reads this
    {
      Store(users, cache)
    }

    constructor (users0: map<Email, UserFlags>, cache0: map<Email, CacheEntry>)
      ensures State() == Store(users0, cache0)
    {
      users := users0;
      cache := cache0;
    }

    /** POST /users/signup: create the row, draw a code, cache its text under
        the email.  `initial` is what the store gives a new row. */
    method Signup(email: Email, initial: UserFlags) returns (r: SignupResult)
      modifies this
      ensures exists draw: CodeDraw ::
                r == SignupOutcome(old(State()), email, draw) &&
                State() == AfterSignup(old(State()), email, initial, draw)
      ensures r == EmailTaken <==> email in old(users)
      ensures r.Created? ==> IsVerificationCode(r.code) && cache[email] == CacheEntry(r.code, CodeTtl)
    {
      if email in users {
        r := EmailTaken;
        assert State() == AfterSignup(old(State()), email, initial, MinCode);
        return;
      }
      users := users[email := initial];
      var draw: CodeDraw :| true;
      var code := DecimalString(draw);
      cache := cache[email := CacheEntry(code, CodeTtl)];
      r := Created(code);
      assert r == SignupOutcome(old(State()), email, draw);
    }

    /** POST /users/activate-account. */
    method Activate(email: Email, code: string) returns (r: ActivateResult)
      modifies this
      ensures r == ActivateOutcome(old(State()), email, code)
      ensures State() == AfterActivate(old(State()), email, code)
    {
      if email !in users {
        return NotFound;
      }
      var user := users[email];
      if !user.isFirstLogin {
        return AlreadyActivated;
      }
      var cached := Lookup(cache, email);
      if cached != Some(code) {
        return CodeExpired;
      }
      user := user.(isVerified := true);
      user := user.(isFirstLogin := false);
      users := users[email := user];
      r := Activated;
    }

    /** The cache dropping the email's entry when its expiry has passed. */
    method Expire(email: Email)
      modifies this
      ensures State() == AfterExpiry(old(State()), email)
    {
      cache := cache - {email};
    }
  }

  // ------------------------------------------------- properties of a call

  /** The already-activated answer does not depend on the code submitted. */
  lemma AlreadyActivatedWhateverCode(s: Store, email: Email, code: string, other: string)
    requires ActivateOutcome(s, email, code) == AlreadyActivated
    ensures ActivateOutcome(s, email, other) == AlreadyActivated
    ensures AfterActivate(s, email, other) == s
  {
  }

  /** A user that has just been activated answers every later activation with
      already-activated, whatever the code. */
  lemma ActivateTwice(s: Store, email: Email, code: string, again: string)
    requires ActivateOutcome(s, email, code) == Activated
    ensures ActivateOutcome(AfterActivate(s, email, code), email, again) == AlreadyActivated
  {
    ActivatedStaysActivated(s, email, code, [], again);
  }

  /** The code signup caches is accepted by the first activation of the new
      user, and any other code is refused as expired (when the store starts
      new users on first login). */
  lemma SignupThenActivate(s: Store, email: Email, initial: UserFlags, draw: CodeDraw, code: string)
    requires email !in s.users && initial.isFirstLogin
    ensures ActivateOutcome(AfterSignup(s, email, initial, draw), email, code) ==
              if code == DecimalString(draw) then Activated else CodeExpired
  {
  }

  /** Once the cache has dropped the signup code, even that code is refused as expired. */
  lemma SignupExpireThenActivate(s: Store, email: Email, initial: UserFlags, draw: CodeDraw)
    requires email !in s.users && initial.isFirstLogin
    ensures ActivateOutcome(AfterExpiry(AfterSignup(s, email, initial, draw), email), email, DecimalString(draw))
              == CodeExpired
  {
  }

  // --------------------------------------------- properties over any run

  /** One call of a modelled handler, or the cache expiring an entry.  The
      other user handlers (delete, update) are not events, so every statement
      below about sequences of calls is about signups, activations and expiries. */
  datatype Event =
    | SignupCall(email: Email, initial: UserFlags, draw: CodeDraw)
    | ActivateCall(email: Email, code: string)
    | Expiry(email: Email)

  function Step(s: Store, e: Event): Store {
    match e
    case SignupCall(email, initial, draw) => AfterSignup(s, email, initial, draw)
    case ActivateCall(email, code) => AfterActivate(s, email, code)
    case Expiry(email) => AfterExpiry(s, email)
  }

  function Run(s: Store, trace: seq<Event>): Store
    decreases |trace|
  {
    if trace == [] then s else Run(Step(s, trace[0]), trace[1..])
  }

  /** How many calls in the run activate `email` successfully. */
  function Activations(s: Store, trace: seq<Event>, email: Email): nat
    decreases |trace|
  {
    if trace == [] then 0
    else
      var hit := trace[0].ActivateCall? && trace[0].email == email &&
                 ActivateOutcome(s, email, trace[0].code) == Activated;
      (if hit then 1 else 0) + Activations(Step(s, trace[0]), trace[1..], email)
  }

  /** An activated user stays activated and verified-status never goes back:
      no step sets isFirstLogin to true or isVerified to false on an existing row. */
  lemma StepIsOneWay(s: Store, e: Event, email: Email)
    requires email in s.users
    ensures email in Step(s, e).users
    ensures !s.users[email].isFirstLogin ==> !Step(s, e).users[email].isFirstLogin
    ensures s.users[email].isVerified ==> Step(s, e).users[email].isVerified
  {
  }

  /** A user's flags change only through a successful activation of that user,
      which needed the submitted code to equal the cached one. */
  lemma FlagsChangeOnlyByActivation(s: Store, e: Event, email: Email)
    requires email in s.users && Step(s, e).users[email] != s.users[email]
    ensures e.ActivateCall? && e.email == email && ActivateOutcome(s, email, e.code) == Activated
    ensures Lookup(s.cache, email) == Some(e.code)
  {
  }

  /** Over any sequence of calls, a user whose flags end up different from
      where they started has been activated successfully by one of the calls. */
  lemma {:induction false} RunFlagsChangeOnlyByActivation(s: Store, trace: seq<Event>, email: Email)
    requires email in s.users && email in Run(s, trace).users
    requires Run(s, trace).users[email] != s.users[email]
    ensures Activations(s, trace, email) >= 1
    decreases |trace|
  {
    if trace != [] {
      var t := Step(s, trace[0]);
      StepIsOneWay(s, trace[0], email);
      if t.users[email] != s.users[email] {
        FlagsChangeOnlyByActivation(s, trace[0], email);
      } else {
        RunFlagsChangeOnlyByActivation(t, trace[1..], email);
      }
    }
  }

  /** Once a user's first login is over, no sequence of calls activates it again. */
  lemma {:induction false} NoActivationAfterFirstLogin(s: Store, trace: seq<Event>, email: Email)
    requires email in s.users && !s.users[email].isFirstLogin
    ensures Activations(s, trace, email) == 0
    ensures email in Run(s, trace).users && !Run(s, trace).users[email].isFirstLogin
    decreases |trace|
  {
    if trace != [] {
      StepIsOneWay(s, trace[0], email);
      NoActivationAfterFirstLogin(Step(s, trace[0]), trace[1..], email);
    }
  }

  /** Any sequence of signups, activations and expiries activates each email at
      most once: the transition out of first login happens a single time. */
  lemma {:induction false} ActivationsAtMostOnce(s: Store, trace: seq<Event>, email: Email)
    ensures Activations(s, trace, email) <= 1
    decreases |trace|
  {
    if trace != [] {
      var e := trace[0];
      var t := Step(s, e);
      if e.ActivateCall? && e.email == email && ActivateOutcome(s, email, e.code) == Activated {
        NoActivationAfterFirstLogin(t, trace[1..], email);
      } else {
        ActivationsAtMostOnce(t, trace[1..], email);
      }
    }
  }

  /** After a successful activation, whatever calls follow, activating the same
      email again with any code is refused as already activated. */
  lemma ActivatedStaysActivated(s: Store, email: Email, code: string, trace: seq<Event>, again: string)
    requires ActivateOutcome(s, email, code) == Activated
    ensures ActivateOutcome(Run(AfterActivate(s, email, code), trace), email, again) == AlreadyActivated
  {
    NoActivationAfterFirstLogin(AfterActivate(s, email, code), trace, email);
  }

  /** Every cached value was put there by signup: a five-digit code stored
      with expiry CodeTtl. */
  predicate CacheHoldsCodes(s: Store) {
    forall e :: e in s.cache ==> IsVerificationCode(s.cache[e].code) && s.cache[e].ttl == CodeTtl
  }

  lemma StepKeepsCacheHoldsCodes(s: Store, e: Event)
    requires CacheHoldsCodes(s)
    ensures CacheHoldsCodes(Step(s, e))
  {
    if e.SignupCall? {
      DrawIsVerificationCode(e.draw);
    }
  }

  lemma {:induction false} RunKeepsCacheHoldsCodes(s: Store, trace: seq<Event>)
    requires CacheHoldsCodes(s)
    ensures CacheHoldsCodes(Run(s, trace))
    decreases |trace|
  {
    if trace != [] {
      StepKeepsCacheHoldsCodes(s, trace[0]);
      RunKeepsCacheHoldsCodes(Step(s, trace[0]), trace[1..]);
    }
  }

  /** Starting from an empty cache, a code that is not five digits with no
      leading zero never activates any account, after any sequence of calls. */
  lemma ActivatingCodeIsVerificationCode(s: Store, trace: seq<Event>, email: Email, code: string)
    requires s.cache == map[]
    requires ActivateOutcome(Run(s, trace), email, code) == Activated
    ensures IsVerificationCode(code)
  {
    RunKeepsCacheHoldsCodes(s, trace);
  }
}
