/** First-password setup by a mailed one-time code: keys with expiry, an attempt counter
    and a resend cooldown, for requests served one after another. */
module OneTimeCodes {

  const CODE_SECONDS := 600
  const MAX_ATTEMPTS := 5
  const COOLDOWN_SECONDS := 60

  datatype Key = CodeKey(customer: string) | AttemptsKey(customer: string) | CooldownKey(customer: string)

  datatype Value = Hash(text: string) | Count(n: nat) | Flag

  datatype Entry = Entry(value: Value, expires: int)

  datatype Customer = Customer(hasPassword: bool, hasEmail: bool)

  /** What happened, oldest first: codes mailed and guesses compared with a stored code. */
  datatype Event =
    | Issued(customer: string, at: int)
    | WrongGuess(customer: string, at: int)
    | RightGuess(customer: string, at: int)

  datatype State = State(now: int, keys: map<Key, Entry>, customers: map<string, Customer>, log: seq<Event>) {
    predicate Live(k: Key) { k in keys && now < keys[k].expires }

    function Set(k: Key, v: Value, ttl: int): State { this.(keys := keys[k := Entry(v, now + ttl)]) }

    function Del(k: Key): State { this.(keys := keys - {k}) }

    function Log(e: Event): State { this.(log := log + [e]) }
  }

  // ---- The three requests ----

  predicate MayIssue(s: State, c: string) {
    c in s.customers && !s.customers[c].hasPassword && s.customers[c].hasEmail && !s.Live(CooldownKey(c))
  }

  function RequestCode(s: State, c: string, hash: string): State {
    if !MayIssue(s, c) then s
    else
      s.Set(CodeKey(c), Hash(hash), CODE_SECONDS)
       .Del(AttemptsKey(c))
       .Set(CooldownKey(c), Flag, COOLDOWN_SECONDS)
       .Log(Issued(c, s.now))
  }

  datatype Outcome = UnknownCustomer | PasswordExists | NoCode | Wrong | Accepted

  function AttemptsSoFar(s: State, c: string): nat {
    var k := AttemptsKey(c);
    if s.Live(k) && s.keys[k].value.Count? then s.keys[k].value.n else 0
  }

  /** A wrong guess raises the counter for another full term, or ends the code. */
  function CountWrong(s: State, c: string): State {
    var attempts := AttemptsSoFar(s, c) + 1;
    if attempts >= MAX_ATTEMPTS then s.Del(CodeKey(c)).Del(AttemptsKey(c))
    else s.Set(AttemptsKey(c), Count(attempts), CODE_SECONDS)
  }

  function SetPassword(s: State, c: string, guess: string): (State, Outcome) {
    if c !in s.customers then (s, UnknownCustomer)
    else if s.customers[c].hasPassword then (s, PasswordExists)
    else if !s.Live(CodeKey(c)) then (s, NoCode)
    else if s.keys[CodeKey(c)].value != Hash(guess) then (CountWrong(s, c).Log(WrongGuess(c, s.now)), Wrong)
    else
      (s.(customers := s.customers[c := s.customers[c].(hasPassword := true)])
        .Del(CodeKey(c)).Del(AttemptsKey(c)).Del(CooldownKey(c))
        .Log(RightGuess(c, s.now)), Accepted)
  }

  datatype Request = Ask(customer: string, hash: string) | Try(customer: string, guess: string) | Wait(seconds: nat)

  function Next(s: State, r: Request): State {
    match r
    case Ask(c, hash) => RequestCode(s, c, hash)
    case Try(c, guess) => SetPassword(s, c, guess).0
    case Wait(seconds) => s.(now := s.now + seconds)
  }

  function Run(s: State, requests: seq<Request>): State {
    if requests == [] then s else Next(Run(s, requests[..|requests| - 1]), requests[|requests| - 1])
  }

  // ---- What each request does ----

  /** Every key but those in `touched` is as it was. */
  ghost predicate OtherKeysStay(s: State, t: State, touched: set<Key>) {
    forall k | k !in touched :: (k in t.keys <==> k in s.keys) && (k in s.keys ==> t.keys[k] == s.keys[k])
  }

  /** A code goes out exactly to a known customer with an email, without a password and out
      of cooldown: it holds for ten minutes, its counter starts afresh, and the next one has
      to wait a minute. */
  lemma {:induction false} AskEffects(s: State, c: string, hash: string)
    ensures var t := RequestCode(s, c, hash);
      var cooling := CooldownKey(c) in s.keys && s.now < s.keys[CooldownKey(c)].expires;
      if c in s.customers && !s.customers[c].hasPassword && s.customers[c].hasEmail && !cooling then
        && t.now == s.now && t.customers == s.customers && t.log == s.log + [Issued(c, s.now)]
        && CodeKey(c) in t.keys && t.keys[CodeKey(c)] == Entry(Hash(hash), s.now + 600)
        && CooldownKey(c) in t.keys && t.keys[CooldownKey(c)] == Entry(Flag, s.now + 60)
        && AttemptsKey(c) !in t.keys
        && OtherKeysStay(s, t, {CodeKey(c), CooldownKey(c), AttemptsKey(c)})
      else t == s
  {
  }

  /** What a try answers: the password is set exactly when the customer is known and has
      none, a code is live, and the guess is that code. */
  lemma {:induction false} TryAnswers(s: State, c: string, guess: string)
    ensures var r := SetPassword(s, c, guess).1;
      var open := c in s.customers && !s.customers[c].hasPassword;
      var live := CodeKey(c) in s.keys && s.now < s.keys[CodeKey(c)].expires;
      && (r == UnknownCustomer <==> c !in s.customers)
      && (r == PasswordExists <==> c in s.customers && s.customers[c].hasPassword)
      && (r == NoCode <==> open && !live)
      && (r == Wrong <==> open && live && s.keys[CodeKey(c)].value != Hash(guess))
      && (r == Accepted <==> open && live && s.keys[CodeKey(c)].value == Hash(guess))
  {
  }

  /** Nobody but the caller, and only with the right code, gets a password. */
  lemma {:induction false} TryCustomers(s: State, c: string, guess: string)
    ensures var (t, r) := SetPassword(s, c, guess);
      && t.now == s.now && t.customers.Keys == s.customers.Keys
      && forall x <- s.customers ::
           && t.customers[x].hasEmail == s.customers[x].hasEmail
           && (t.customers[x].hasPassword <==> s.customers[x].hasPassword || (x == c && r == Accepted))
  {
  }

  /** A right guess uses up the code, its counter and the cooldown; a wrong one raises the
      counter for ten minutes, and the fifth ends the code; any other try writes nothing. */
  lemma {:induction false} TryKeys(s: State, c: string, guess: string)
    ensures var (t, r) := SetPassword(s, c, guess);
      var k := AttemptsKey(c);
      var n := if k in s.keys && s.now < s.keys[k].expires && s.keys[k].value.Count? then s.keys[k].value.n else 0;
      match r
      case Accepted =>
        && t.keys == s.keys - {CodeKey(c), k, CooldownKey(c)} && t.log == s.log + [RightGuess(c, s.now)]
      case Wrong =>
        && t.log == s.log + [WrongGuess(c, s.now)]
        && (n >= 4 ==> t.keys == s.keys - {CodeKey(c), k})
        && (n < 4 ==> k in t.keys && t.keys[k] == Entry(Count(n + 1), s.now + 600) && OtherKeysStay(s, t, {k}))
      case _ => t == s
  {
  }

  /** The code last sent to the customer in a run, and when. */
  datatype Sent = Nothing | Code(hash: string, at: int)

  function LastSent(s: State, requests: seq<Request>, c: string): Sent {
    if requests == [] then Nothing
    else
      var n := |requests| - 1;
      var before := Run(s, requests[..n]);
      match requests[n]
      case Ask(x, hash) =>
        if x == c && Next(before, requests[n]) != before then Code(hash, before.now) else LastSent(s, requests[..n], c)
      case _ => LastSent(s, requests[..n], c)
  }

  /** A stored code is the last one sent, for its ten minutes. */
  lemma {:induction false} StoredIsSent(s: State, requests: seq<Request>, c: string)
    requires CodeKey(c) !in s.keys
    ensures var t, sent := Run(s, requests), LastSent(s, requests, c);
      CodeKey(c) in t.keys ==> sent.Code? && t.keys[CodeKey(c)] == Entry(Hash(sent.hash), sent.at + 600)
  {
    if requests != [] {
      var n := |requests| - 1;
      var before := Run(s, requests[..n]);
      StoredIsSent(s, requests[..n], c);
      match requests[n]
      case Ask(x, hash) => AskEffects(before, x, hash);
      case Try(x, guess) => TryKeys(before, x, guess);
      case Wait(_) =>
    }
  }

  /** The try sets the password: its guess is the code last sent, less than ten minutes ago. */
  predicate Proves(s: State, requests: seq<Request>, c: string, k: nat)
    requires k < |requests|
  {
    var sent := LastSent(s, requests[..k], c);
    requests[k].Try? && requests[k].customer == c && sent.Code? && sent.hash == requests[k].guess &&
    Run(s, requests[..k]).now < sent.at + 600
  }

  /** In every run a customer without a password comes to one only by a try with the code
      last sent to that customer, within ten minutes of its sending. */
  lemma {:induction false} PasswordNeedsCode(s: State, requests: seq<Request>, c: string)
    requires CodeKey(c) !in s.keys && c in s.customers && !s.customers[c].hasPassword
    ensures var t := Run(s, requests);
      c in t.customers && (t.customers[c].hasPassword ==> exists k | 0 <= k < |requests| :: Proves(s, requests, c, k))
  {
    if requests != [] {
      var n := |requests| - 1;
      var before, t := Run(s, requests[..n]), Run(s, requests);
      PasswordNeedsCode(s, requests[..n], c);
      if before.customers[c].hasPassword {
        var k :| 0 <= k < n && Proves(s, requests[..n], c, k);
        assert requests[..n][..k] == requests[..k];
        assert Proves(s, requests, c, k);
      } else if requests[n].Try? {
        TryCustomers(before, requests[n].customer, requests[n].guess);
        TryAnswers(before, requests[n].customer, requests[n].guess);
        StoredIsSent(s, requests[..n], c);
        if t.customers[c].hasPassword {
          assert Proves(s, requests, c, n);
        }
      }
    }
  }

  // ---- Wrong guesses against one issued code ----

  /** Wrong guesses logged for the customer since the last code was issued. */
  function WrongSince(log: seq<Event>, c: string): nat {
    if log == [] then 0
    else
      match log[|log| - 1]
      case Issued(x, _) => if x == c then 0 else WrongSince(log[..|log| - 1], c)
      case WrongGuess(x, _) => WrongSince(log[..|log| - 1], c) + (if x == c then 1 else 0)
      case RightGuess(_, _) => WrongSince(log[..|log| - 1], c)
  }

  lemma WrongSinceAppend(log: seq<Event>, e: Event, c: string)
    ensures WrongSince(log + [e], c) ==
      if e == Issued(e.customer, e.at) && e.customer == c then 0
      else WrongSince(log, c) + (if e == WrongGuess(c, e.at) then 1 else 0)
  {
    assert (log + [e])[..|log|] == log;
  }

  /** While a code lives, the counter is exact and cannot expire before the code. */
  predicate Counted(s: State, c: string) {
    var w, k := WrongSince(s.log, c), AttemptsKey(c);
    && w <= MAX_ATTEMPTS
    && (s.Live(CodeKey(c)) ==>
          && w < MAX_ATTEMPTS
          && s.keys[CodeKey(c)].expires <= s.now + CODE_SECONDS
          && (if w == 0 then k !in s.keys
              else k in s.keys && s.keys[k].value == Count(w) && s.keys[k].expires >= s.keys[CodeKey(c)].expires))
  }

  lemma AskCounted(s: State, x: string, hash: string, c: string)
    requires Counted(s, c)
    ensures Counted(RequestCode(s, x, hash), c)
  {
    WrongSinceAppend(s.log, Issued(x, s.now), c);
  }

  lemma WrongCounted(s: State, x: string, c: string)
    requires Counted(s, c) && (x == c ==> s.Live(CodeKey(c)))
    ensures Counted(CountWrong(s, x).Log(WrongGuess(x, s.now)), c)
  {
    WrongSinceAppend(s.log, WrongGuess(x, s.now), c);
    if x == c {
      assert AttemptsSoFar(s, c) == WrongSince(s.log, c);
    }
  }

  lemma RightCounted(s: State, x: string, customers: map<string, Customer>, c: string)
    requires Counted(s, c)
    ensures Counted(s.(customers := customers).Del(CodeKey(x)).Del(AttemptsKey(x)).Del(CooldownKey(x))
                     .Log(RightGuess(x, s.now)), c)
  {
    WrongSinceAppend(s.log, RightGuess(x, s.now), c);
  }

  lemma NextCounted(s: State, r: Request, c: string)
    requires Counted(s, c)
    ensures Counted(Next(s, r), c)
  {
    match r
    case Ask(x, hash) => AskCounted(s, x, hash, c);
    case Try(x, guess) =>
      if x in s.customers && s.Live(CodeKey(x)) {
        WrongCounted(s, x, c);
        RightCounted(s, x, s.customers[x := s.customers[x].(hasPassword := true)], c);
      }
    case Wait(_) =>
  }

  /** Whatever the order and timing of requests, an issued code is compared with at most
      five wrong guesses, and the fifth removes it. */
  lemma {:induction false} AtMostFiveGuesses(s: State, requests: seq<Request>, c: string)
    requires Counted(s, c)
    ensures var t := Run(s, requests);
      Counted(t, c) && WrongSince(t.log, c) <= 5 && (WrongSince(t.log, c) == 5 ==> !t.Live(CodeKey(c)))
  {
    if requests != [] {
      AtMostFiveGuesses(s, requests[..|requests| - 1], c);
      NextCounted(Run(s, requests[..|requests| - 1]), requests[|requests| - 1], c);
    }
  }

  /** The code mailed at `at` is stored, for its full term. */
  predicate Armed(s: State, c: string, hash: string, at: int) {
    CodeKey(c) in s.keys && s.keys[CodeKey(c)] == Entry(Hash(hash), at + CODE_SECONDS)
  }

  lemma CountWrongArmed(s: State, x: string, c: string, hash: string, at: int)
    requires Counted(s, c) && Armed(s, c, hash, at) && s.Live(CodeKey(c))
    ensures var t := CountWrong(s, x).Log(WrongGuess(x, s.now));
      Armed(t, c, hash, at) || WrongSince(t.log, c) == MAX_ATTEMPTS
  {
    WrongSinceAppend(s.log, WrongGuess(x, s.now), c);
    if x == c {
      assert AttemptsSoFar(s, c) == WrongSince(s.log, c);
    }
  }

  /** A live code is lost only by being replaced, used or guessed at five times; until then
      the right guess is accepted. */
  lemma CodeHolds(s: State, r: Request, c: string, hash: string, at: int)
    requires Counted(s, c) && Armed(s, c, hash, at) && s.now < at + CODE_SECONDS
    ensures var t := Next(s, r);
      || Armed(t, c, hash, at)
      || WrongSince(t.log, c) == MAX_ATTEMPTS
      || t.log == s.log + [Issued(c, s.now)]
      || t.log == s.log + [RightGuess(c, s.now)]
    ensures c in s.customers && !s.customers[c].hasPassword ==> SetPassword(s, c, hash).1 == Accepted
  {
    if r.Try? {
      CountWrongArmed(s, r.customer, c, hash, at);
    }
  }

  // ---- How often codes are issued ----

  predicate Spaced(log: seq<Event>, c: string) {
    forall i, j | 0 <= i < j < |log| && log[i] == Issued(c, log[i].at) && log[j] == Issued(c, log[j].at) ::
      log[j].at - log[i].at >= COOLDOWN_SECONDS
  }

  /** The cooldown key outlasts every issue, until a password ends the protocol. */
  predicate Cooling(s: State, c: string) {
    && Spaced(s.log, c)
    && forall i | 0 <= i < |s.log| && s.log[i] == Issued(c, s.log[i].at) ::
         || s.log[i].at + COOLDOWN_SECONDS <= s.now
         || (c in s.customers && s.customers[c].hasPassword)
         || (CooldownKey(c) in s.keys && s.keys[CooldownKey(c)].expires >= s.log[i].at + COOLDOWN_SECONDS)
  }

  lemma NextCooling(s: State, r: Request, c: string)
    requires Cooling(s, c)
    ensures Cooling(Next(s, r), c)
  {
  }

  /** Two codes for one customer are at least a minute apart in every run. */
  lemma {:induction false} CodesAreSpaced(s: State, requests: seq<Request>, c: string)
    requires Cooling(s, c)
    ensures Cooling(Run(s, requests), c) && Spaced(Run(s, requests).log, c)
  {
    if requests != [] {
      CodesAreSpaced(s, requests[..|requests| - 1], c);
      NextCooling(Run(s, requests[..|requests| - 1]), requests[|requests| - 1], c);
    }
  }

  // ---- The service over a mutable key store ----

  class CodeService {
    var now: int
    var keys: map<Key, Entry>
    var customers: map<string, Customer>
    ghost var log: seq<Event>

    ghost function Contents(): State
      reads this
    {
      State(now, keys, customers, log)
    }

    method RequestPasswordOtp(c: string, hash: string) returns (sent: bool)
      modifies this
      ensures Contents() == RequestCode(old(Contents()), c, hash)
      ensures sent <==> MayIssue(old(Contents()), c)
    {
      var cooling := CooldownKey(c) in keys && now < keys[CooldownKey(c)].expires;
      sent := c in customers && !customers[c].hasPassword && customers[c].hasEmail && !cooling;
      if sent {
        keys := keys[CodeKey(c) := Entry(Hash(hash), now + CODE_SECONDS)];
        keys := keys - {AttemptsKey(c)};
        keys := keys[CooldownKey(c) := Entry(Flag, now + COOLDOWN_SECONDS)];
        log := log + [Issued(c, now)];
      }
    }

    method VerifyOtp(c: string, guess: string) returns (ok: bool, compared: bool)
      modifies this`keys, this`log
      ensures var s := old(Contents());
        && compared == s.Live(CodeKey(c))
        && (ok <==> compared && s.keys[CodeKey(c)].value == Hash(guess))
        && Contents() == if compared && !ok then CountWrong(s, c).Log(WrongGuess(c, s.now)) else s
    {
      ok, compared := false, false;
      if CodeKey(c) !in keys || now >= keys[CodeKey(c)].expires {
        return;
      }
      compared := true;
      ok := keys[CodeKey(c)].value == Hash(guess);
      if !ok {
        var k := AttemptsKey(c);
        var attempts := 1;
        if k in keys && now < keys[k].expires && keys[k].value.Count? {
          attempts := keys[k].value.n + 1;
        }
        if attempts >= MAX_ATTEMPTS {
          keys := keys - {CodeKey(c)};
          keys := keys - {k};
        } else {
          keys := keys[k := Entry(Count(attempts), now + CODE_SECONDS)];
        }
        log := log + [WrongGuess(c, now)];
      }
    }

    method SetCustomerPassword(c: string, guess: string) returns (r: Outcome)
      modifies this
      ensures (Contents(), r) == SetPassword(old(Contents()), c, guess)
    {
      if c !in customers {
        return UnknownCustomer;
      }
      if customers[c].hasPassword {
        return PasswordExists;
      }
      var ok, compared := VerifyOtp(c, guess);
      if !ok {
        return if compared then Wrong else NoCode;
      }
      customers := customers[c := customers[c].(hasPassword := true)];
      keys := keys - {CodeKey(c)};
      keys := keys - {AttemptsKey(c)};
      keys := keys - {CooldownKey(c)};
      log := log + [RightGuess(c, now)];
      r := Accepted;
    }
  }
}
