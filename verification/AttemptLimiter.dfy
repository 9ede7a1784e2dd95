/** Timed attempt counters kept in a cache: the login lockout and the two PIN counters. A counter is one cache
    cell that a failed try rewrites with a fresh time to live and a success deletes. */
module AttemptLimiter {
  import opened FiniteSums

  datatype Cell = Cell(count: nat, expires: int)

  datatype Policy = Policy(max: nat, ttl: nat)

  const PIN := Policy(5, 900)
  const LOGIN := Policy(5, 60)

  /** What a comparison would find. `Denied` is a try that neither counts nor clears: right credentials for an
      account that may not log in, or a request turned away before any comparison. */
  datatype Outcome = Wrong | Right | Denied

  datatype Try = Try(at: int, outcome: Outcome)

  /** A cell past its time to live reads as absent. */
  function Count(cell: Option<Cell>, now: int): nat {
    if cell.Some? && now < cell.value.expires then cell.value.count else 0
  }

  predicate Blocked(p: Policy, cell: Option<Cell>, now: int) { Count(cell, now) >= p.max }

  function Step(p: Policy, cell: Option<Cell>, t: Try): Option<Cell> {
    if Blocked(p, cell, t.at) then cell else
    match t.outcome
    case Wrong => Some(Cell(Count(cell, t.at) + 1, t.at + p.ttl))
    case Right => None
    case Denied => cell
  }

  /** The cell after a trace of tries. */
  function After(p: Policy, ts: seq<Try>): Option<Cell> {
    if ts == [] then None else Step(p, After(p, ts[..|ts| - 1]), ts[|ts| - 1])
  }

  predicate Sequential(ts: seq<Try>) { forall i, j :: 0 <= i < j < |ts| ==> ts[i].at <= ts[j].at }

  predicate Compared(p: Policy, ts: seq<Try>, i: nat, o: Outcome)
    requires i < |ts|
  {
    ts[i].outcome == o && !Blocked(p, After(p, ts[..i]), ts[i].at)
  }

  /** How many comparisons failed at times in the half-open window. */
  function Failures(p: Policy, ts: seq<Try>, from: int, to: int): nat {
    if ts == [] then 0 else
    var n := |ts| - 1;
    Failures(p, ts[..n], from, to) + (if from <= ts[n].at < to && Compared(p, ts, n, Wrong) then 1 else 0)
  }

  predicate NoSuccess(p: Policy, ts: seq<Try>, from: int, to: int) {
    forall i :: 0 <= i < |ts| && from <= ts[i].at < to ==> !Compared(p, ts, i, Right)
  }

  lemma NoSuccessPrefix(p: Policy, ts: seq<Try>, from: int, to: int)
    requires ts != [] && NoSuccess(p, ts, from, to)
    ensures NoSuccess(p, ts[..|ts| - 1], from, to)
  {
    var init := ts[..|ts| - 1];
    forall i | 0 <= i < |init| && from <= init[i].at < to ensures !Compared(p, init, i, Right) {
      assert init[..i] == ts[..i] && !Compared(p, ts, i, Right);
    }
  }

  /** While a window is open, the cell remembers every failure in it and outlives it. */
  lemma {:induction false} WindowIsRemembered(p: Policy, ts: seq<Try>, from: int)
    requires Sequential(ts) && NoSuccess(p, ts, from, from + p.ttl)
    ensures var k := Failures(p, ts, from, from + p.ttl);
      && k <= p.max
      && (k > 0 ==> from <= ts[|ts| - 1].at)
      && (k > 0 && ts[|ts| - 1].at < from + p.ttl ==>
            var cell := After(p, ts); cell.Some? && k <= cell.value.count && from + p.ttl <= cell.value.expires)
  {
    if ts == [] {
    } else {
      var init, t := ts[..|ts| - 1], ts[|ts| - 1];
      NoSuccessPrefix(p, ts, from, from + p.ttl);
      WindowIsRemembered(p, init, from);
      if init != [] { assert init[|init| - 1].at <= t.at; }
      if from <= t.at < from + p.ttl { assert !Compared(p, ts, |ts| - 1, Right); }
    }
  }

  /** Any half-open window as long as the time to live, with no success in it, holds at most `max` failing
      comparisons, however many tries were made. */
  lemma AtMostMaxFailures(p: Policy, ts: seq<Try>, from: int)
    requires Sequential(ts) && NoSuccess(p, ts, from, from + p.ttl)
    ensures Failures(p, ts, from, from + p.ttl) <= p.max
  {
    WindowIsRemembered(p, ts, from);
  }

  /** The limit does bite: once a window holds `max` failures, everything until its end is turned away. */
  lemma MaxFailuresBlock(p: Policy, ts: seq<Try>, from: int, now: int)
    requires Sequential(ts) && NoSuccess(p, ts, from, from + p.ttl)
    requires 0 < p.max == Failures(p, ts, from, from + p.ttl)
    requires ts[|ts| - 1].at <= now < from + p.ttl
    ensures Blocked(p, After(p, ts), now)
  {
    WindowIsRemembered(p, ts, from);
  }

  lemma AfterSnoc(p: Policy, ts: seq<Try>, t: Try)
    ensures After(p, ts + [t]) == Step(p, After(p, ts), t)
  {
    assert (ts + [t])[..|ts|] == ts;
  }

  /** Blocked tries do not extend a block: until the cell expires nothing changes it, whatever is tried, and
      from that moment on the next try is compared again. */
  lemma {:induction false} BlockEndsOnTime(p: Policy, ts: seq<Try>, us: seq<Try>)
    requires 0 < p.max && After(p, ts).Some? && After(p, ts).value.count >= p.max
    requires forall i :: 0 <= i < |us| ==> us[i].at < After(p, ts).value.expires
    ensures After(p, ts + us) == After(p, ts)
    ensures forall now :: Blocked(p, After(p, ts + us), now) <==> now < After(p, ts).value.expires
  {
    if us == [] {
      assert ts + us == ts;
    } else {
      BlockEndsOnTime(p, ts, us[..|us| - 1]);
      assert ts + us == ts + us[..|us| - 1] + [us[|us| - 1]];
      AfterSnoc(p, ts + us[..|us| - 1], us[|us| - 1]);
    }
  }

  /** A wrong try blocks exactly when it is the fifth, and for exactly its counter's time: a minute for logins, fifteen for
      PINs. */
  lemma FifthTryBlocks(cell: Option<Cell>, at: int, now: int)
    ensures var n := Count(cell, at);
      && (Blocked(LOGIN, cell, at) <==> n >= 5) && (Blocked(PIN, cell, at) <==> n >= 5)
      && (n < 5 ==> (Blocked(LOGIN, Step(LOGIN, cell, Try(at, Wrong)), now) <==> n == 4 && now < at + 60))
      && (n < 5 ==> (Blocked(PIN, Step(PIN, cell, Try(at, Wrong)), now) <==> n == 4 && now < at + 900))
  {
  }

  /** Any minute without a successful login holds at most five failed ones, and five of them turn away the rest of it. */
  lemma FiveLoginsAMinute(ts: seq<Try>, from: int, now: int)
    requires Sequential(ts) && NoSuccess(LOGIN, ts, from, from + 60)
    ensures Failures(LOGIN, ts, from, from + 60) <= 5
    ensures Failures(LOGIN, ts, from, from + 60) == 5 && ts != [] && ts[|ts| - 1].at <= now < from + 60 ==> Blocked(LOGIN, After(LOGIN, ts), now)
  {
    hide *;
    LoginTerms();
    AtMostMaxFailures(LOGIN, ts, from);
    if Failures(LOGIN, ts, from, from + 60) == 5 && ts != [] && ts[|ts| - 1].at <= now < from + 60 { MaxFailuresBlock(LOGIN, ts, from, now); }
  }

  lemma LoginTerms()
    ensures LOGIN.max == 5 && LOGIN.ttl == 60
  {
  }

  // ---- The login lockout ---------------------------------------------------------------------------

  /** The (ip, username) bucket of the login view. */
  class LoginBucket {
    var cell: Option<Cell>

    constructor ()
      ensures cell == None
    {
      cell := None;
    }

    predicate IsLocked(now: int)
      reads this
    {
      Count(cell, now) >= LOGIN.max
    }

    method RecordFailure(now: int)
      modifies this
      ensures cell == Some(Cell(Count(old(cell), now) + 1, now + LOGIN.ttl))
    {
      var attempts := Count(cell, now) + 1;
      cell := Some(Cell(attempts, now + LOGIN.ttl));
    }

    method Reset()
      modifies this
      ensures cell == None
    {
      cell := None;
    }

    /** One POST of the login form; `allowed` when the user is let in. */
    method Login(t: Try) returns (allowed: bool)
      modifies this
      ensures cell == Step(LOGIN, old(cell), t)
      ensures allowed <==> !Blocked(LOGIN, old(cell), t.at) && t.outcome == Right
    {
      if IsLocked(t.at) { return false; }
      match t.outcome
      case Wrong =>
        RecordFailure(t.at);
        return false;
      case Denied => return false;
      case Right =>
        Reset();
        return true;
    }
  }

  // ---- The PIN gates -------------------------------------------------------------------------------

  /** What is known about a PIN before it is compared, and whether it is the user's PIN. */
  datatype Entry = Entry(configured: bool, blank: bool, correct: bool)

  datatype Verdict = Accepted | NotConfigured | Missing | TooMany | Incorrect

  /** `validate_user_pin`: its verdict and the new cell. */
  function Validate(cell: Option<Cell>, now: int, e: Entry): (r: (Verdict, Option<Cell>))
    ensures r.1 == Step(PIN, cell, Try(now, ComparedAs(e)))
    ensures r.0 == Accepted <==> ComparedAs(e) == Right && !Blocked(PIN, cell, now)
    ensures r.0 == Incorrect <==> ComparedAs(e) == Wrong && !Blocked(PIN, cell, now)
  {
    if !e.configured then (NotConfigured, cell) else
    if e.blank then (Missing, cell) else
    if Count(cell, now) >= 5 then (TooMany, cell) else
    if !e.correct then (Incorrect, Some(Cell(Count(cell, now) + 1, now + 900))) else
    (Accepted, None)
  }

  function ComparedAs(e: Entry): Outcome {
    if !e.configured || e.blank then Denied else if e.correct then Right else Wrong
  }

  /** A user's two counters. */
  datatype Counters = Counters(pin: Option<Cell>, ledger: Option<Cell>)

  /** The outer gate of ledger edits keeps its own counter, which every inner rejection raises. */
  function LedgerGate(s: Counters, now: int, e: Entry): (r: (Verdict, Counters))
    ensures r.0 == Accepted <==> !Blocked(PIN, s.ledger, now) && !Blocked(PIN, s.pin, now) && ComparedAs(e) == Right
    ensures r.1.ledger == Step(PIN, s.ledger, Try(now, if Validate(s.pin, now, e).0 == Accepted then Right else Wrong))
  {
    if Count(s.ledger, now) >= 5 then (TooMany, s) else
    var (verdict, cell) := Validate(s.pin, now, e);
    if verdict != Accepted then (verdict, Counters(cell, Some(Cell(Count(s.ledger, now) + 1, now + 900)))) else
    (Accepted, Counters(cell, None))
  }

  class PinGate {
    var pin: Option<Cell>
    var ledger: Option<Cell>

    constructor ()
      ensures State() == Counters(None, None)
    {
      pin, ledger := None, None;
    }

    function State(): Counters
      reads this
    {
      Counters(pin, ledger)
    }

    method ValidatePin(now: int, e: Entry) returns (v: Verdict)
      modifies this
      ensures ledger == old(ledger) && (v, pin) == Validate(old(pin), now, e)
    {
      if !e.configured { return NotConfigured; }
      if e.blank { return Missing; }
      var attempts := Count(pin, now);
      if attempts >= PIN.max { return TooMany; }
      if !e.correct {
        pin := Some(Cell(attempts + 1, now + PIN.ttl));
        return Incorrect;
      }
      pin := None;
      return Accepted;
    }

    method CheckLedgerPin(now: int, e: Entry) returns (v: Verdict)
      modifies this
      ensures (v, State()) == LedgerGate(old(State()), now, e)
    {
      var attempts := Count(ledger, now);
      if attempts >= PIN.max { return TooMany; }
      v := ValidatePin(now, e);
      if v != Accepted {
        ledger := Some(Cell(attempts + 1, now + PIN.ttl));
        return;
      }
      ledger := None;
    }
  }

  // ---- Every place that asks for the PIN -----------------------------------------------------------------

  /** `Direct` and `AtLedger` go through `validate_user_pin` and its counter. `InSession` is the remittance PIN dialog
      and the screen lock, which count in the login session; `Bare` is finalizing on creation, which does not count. */
  datatype Place = Direct | AtLedger | InSession | Bare

  datatype PinUse = PinUse(at: int, entry: Entry, place: Place, session: Id)

  /** The cached counters, the wrong tries of each login session, and the sessions that were logged out. */
  datatype PinState = PinState(counters: Counters, tries: map<Id, nat>, ended: set<Id>)

  const SESSION_MAX := 3

  datatype Answer = Answered(verdict: Verdict) | SignedOut

  predicate Counted(p: Place) { p == Direct || p == AtLedger }

  /** Without a counter: the PIN, blank or not, is compared with the stored one. */
  predicate Matches(e: Entry) { e.configured && !e.blank && e.correct }

  function Tries(s: PinState, session: Id): nat { if session in s.tries then s.tries[session] else 0 }

  function UseSession(s: PinState, u: PinUse): (Verdict, PinState) {
    if u.entry.blank then (Missing, s) else
    if Matches(u.entry) then (Accepted, s.(tries := s.tries[u.session := 0])) else
    var n := Tries(s, u.session) + 1;
    (Incorrect, s.(tries := s.tries[u.session := n], ended := if n >= SESSION_MAX then s.ended + {u.session} else s.ended))
  }

  function Use(s: PinState, u: PinUse): (Answer, PinState) {
    if u.session in s.ended then (SignedOut, s) else
    match u.place
    case Direct =>
      var (v, cell) := Validate(s.counters.pin, u.at, u.entry);
      (Answered(v), s.(counters := s.counters.(pin := cell)))
    case AtLedger =>
      var (v, counters) := LedgerGate(s.counters, u.at, u.entry);
      (Answered(v), s.(counters := counters))
    case InSession =>
      var (v, t) := UseSession(s, u);
      (Answered(v), t)
    case Bare => (Answered(if Matches(u.entry) then Accepted else Incorrect), s)
  }

  function AfterUses(us: seq<PinUse>): PinState {
    if us == [] then PinState(Counters(None, None), map[], {}) else Use(AfterUses(us[..|us| - 1]), us[|us| - 1]).1
  }

  function AnswerAt(us: seq<PinUse>, i: nat): Answer
    requires i < |us|
  {
    Use(AfterUses(us[..i]), us[i]).0
  }

  /** How the shared PIN counter sees one use: what did not reach it was never compared. */
  function Seen(s: PinState, u: PinUse): (t: Try)
    ensures t.at == u.at
  {
    var turnedAway := u.session in s.ended || !Counted(u.place) || (u.place == AtLedger && Blocked(PIN, s.counters.ledger, u.at));
    Try(u.at, if turnedAway then Denied else ComparedAs(u.entry))
  }

  function SeenByPin(us: seq<PinUse>): (ts: seq<Try>)
    ensures |ts| == |us| && forall i :: 0 <= i < |us| ==> ts[i].at == us[i].at
  {
    if us == [] then [] else
    var init, u := us[..|us| - 1], us[|us| - 1];
    SeenByPin(init) + [Seen(AfterUses(init), u)]
  }

  lemma UseIsSeen(s: PinState, u: PinUse)
    ensures Use(s, u).1.counters.pin == Step(PIN, s.counters.pin, Seen(s, u))
  {
  }

  lemma {:induction false} PinCounterIsLimiter(us: seq<PinUse>)
    ensures AfterUses(us).counters.pin == After(PIN, SeenByPin(us))
  {
    hide Use, Seen, Step;
    if us != [] {
      var init, u := us[..|us| - 1], us[|us| - 1];
      PinCounterIsLimiter(init);
      UseIsSeen(AfterUses(init), u);
      AfterSnoc(PIN, SeenByPin(init), Seen(AfterUses(init), u));
    }
  }

  lemma {:induction false} SeenPrefix(us: seq<PinUse>, i: nat)
    requires i <= |us|
    ensures SeenByPin(us)[..i] == SeenByPin(us[..i])
  {
    if i == |us| {
      assert us[..i] == us;
    } else {
      SeenPrefix(us[..|us| - 1], i);
      assert us[..|us| - 1][..i] == us[..i];
      assert SeenByPin(us)[..|us| - 1] == SeenByPin(us[..|us| - 1]);
    }
  }

  predicate CountedAnswer(us: seq<PinUse>, i: nat, v: Verdict)
    requires i < |us|
  {
    Counted(us[i].place) && AnswerAt(us, i) == Answered(v)
  }

  /** One use: what the user is told at a counted place is what the shared counter compared. */
  lemma UseAnswers(s: PinState, u: PinUse)
    ensures Counted(u.place) && Use(s, u).0 == Answered(Incorrect)
       <==> Seen(s, u).outcome == Wrong && !Blocked(PIN, s.counters.pin, u.at)
    ensures Counted(u.place) && Use(s, u).0 == Answered(Accepted)
       <==> Seen(s, u).outcome == Right && !Blocked(PIN, s.counters.pin, u.at)
  {
  }

  lemma SeenAt(us: seq<PinUse>, i: nat)
    requires i < |us|
    ensures SeenByPin(us)[i] == Seen(AfterUses(us[..i]), us[i]) && SeenByPin(us)[..i] == SeenByPin(us[..i])
  {
    hide Seen;
    SeenPrefix(us, i);
    SeenPrefix(us, i + 1);
    assert us[..i + 1][..i] == us[..i];
    assert SeenByPin(us)[i] == SeenByPin(us)[..i + 1][i] == SeenByPin(us[..i + 1])[i];
  }

  /** At a counted place, a failing or passed comparison of the shared counter is what the user is told. */
  lemma AnswerIsComparison(us: seq<PinUse>, i: nat)
    requires i < |us|
    ensures CountedAnswer(us, i, Incorrect) <==> Compared(PIN, SeenByPin(us), i, Wrong)
    ensures CountedAnswer(us, i, Accepted) <==> Compared(PIN, SeenByPin(us), i, Right)
  {
    hide Use, Seen, Blocked, AfterUses, SeenByPin, After, Counted;
    SeenAt(us, i);
    PinCounterIsLimiter(us[..i]);
    UseAnswers(AfterUses(us[..i]), us[i]);
  }

  /** PINs compared and found wrong in the window: through the shared counter, or elsewhere. */
  function WrongPins(us: seq<PinUse>, counted: bool, from: int, to: int): nat {
    if us == [] then 0 else
    var n := |us| - 1;
    WrongPins(us[..n], counted, from, to)
    + (if from <= us[n].at < to && Counted(us[n].place) == counted && AnswerAt(us, n) == Answered(Incorrect) then 1 else 0)
  }

  lemma {:induction false} WrongPinsAreFailures(us: seq<PinUse>, from: int, to: int)
    ensures WrongPins(us, true, from, to) == Failures(PIN, SeenByPin(us), from, to)
  {
    if us != [] {
      var n := |us| - 1;
      WrongPinsAreFailures(us[..n], from, to);
      SeenPrefix(us, n);
      AnswerIsComparison(us, n);
    }
  }

  predicate InOrder(us: seq<PinUse>) { forall i, j :: 0 <= i < j < |us| ==> us[i].at <= us[j].at }

  /** No counted place accepted a PIN in the window. */
  predicate NoneAccepted(us: seq<PinUse>, from: int, to: int) {
    forall i :: 0 <= i < |us| && from <= us[i].at < to ==> !CountedAnswer(us, i, Accepted)
  }

  /** In any 15 minutes without an accepted PIN, at most five PINs are compared and found wrong at the counted places
      together: the ledger gate and every caller of `validate_user_pin`. */
  lemma AtMostFiveCountedWrongPins(us: seq<PinUse>, from: int)
    requires InOrder(us) && NoneAccepted(us, from, from + 900)
    ensures WrongPins(us, true, from, from + 900) <= 5
  {
    var ts := SeenByPin(us);
    forall i | 0 <= i < |ts| && from <= ts[i].at < from + PIN.ttl ensures !Compared(PIN, ts, i, Right) {
      AnswerIsComparison(us, i);
    }
    WrongPinsAreFailures(us, from, from + 900);
    AtMostMaxFailures(PIN, ts, from);
  }

  predicate Within(us: seq<PinUse>, places: set<Place>) { forall i :: 0 <= i < |us| ==> us[i].place in places }

  lemma {:induction false} NoneElsewhere(us: seq<PinUse>, from: int, to: int)
    requires Within(us, {Direct, AtLedger})
    ensures WrongPins(us, false, from, to) == 0
  {
    if us != [] { NoneElsewhere(us[..|us| - 1], from, to); }
  }

  /** Wrong PINs at all places. */
  function AllWrong(us: seq<PinUse>, from: int, to: int): nat { WrongPins(us, true, from, to) + WrongPins(us, false, from, to) }

  /** A trace within some places, with no PIN accepted at a counted one in the 15 minutes. */
  predicate Quiet(us: seq<PinUse>, places: set<Place>, from: int) {
    InOrder(us) && Within(us, places) && NoneAccepted(us, from, from + 900)
  }

  ghost predicate BoundedTo(places: set<Place>) {
    forall us: seq<PinUse>, from: int :: Quiet(us, places, from) ==> AllWrong(us, from, from + 900) <= 5
  }

  const WRONG := Entry(true, false, false)

  /** `n` wrong PINs at one place in one second, three to a login session. */
  function Guesses(p: Place, n: nat): (us: seq<PinUse>)
    ensures |us| == n && forall i :: 0 <= i < n ==> us[i] == PinUse(0, WRONG, p, i / 3)
  {
    if n == 0 then [] else Guesses(p, n - 1) + [PinUse(0, WRONG, p, (n - 1) / 3)]
  }

  lemma GuessesPrefix(p: Place, n: nat)
    requires n > 0
    ensures Guesses(p, n)[..n - 1] == Guesses(p, n - 1)
  {
  }

  lemma BareGuess(session: Id)
    ensures Use(AfterUses([]), PinUse(0, WRONG, Bare, session)) == (Answered(Incorrect), AfterUses([]))
  {
  }

  lemma {:induction false} BareGuessesAreCompared(n: nat)
    ensures AfterUses(Guesses(Bare, n)) == AfterUses([])
    ensures WrongPins(Guesses(Bare, n), false, 0, 900) == n
  {
    hide Use;
    if n > 0 {
      GuessesPrefix(Bare, n);
      BareGuessesAreCompared(n - 1);
      BareGuess((n - 1) / 3);
    }
  }

  /** Three tries are spent in every session before the current one. */
  ghost predicate Spent(s: PinState, n: nat) {
    forall k: Id :: Tries(s, k) == (if 3 * k + 3 <= n then 3 else if 3 * k <= n then n - 3 * k else 0)
      && (k in s.ended <==> 3 * k + 3 <= n)
  }

  lemma NothingSpent()
    ensures Spent(AfterUses([]), 0)
  {
  }

  lemma SpendOne(s: PinState, n: nat)
    requires Spent(s, n)
    ensures var (a, t) := Use(s, PinUse(0, WRONG, InSession, n / 3)); a == Answered(Incorrect) && Spent(t, n + 1)
  {
    var k: Id := n / 3;
    var t := Use(s, PinUse(0, WRONG, InSession, k)).1;
    assert 3 * k <= n < 3 * k + 3;
    assert Tries(s, k) == n - 3 * k && k !in s.ended;
    forall j: Id ensures Tries(t, j) == (if j == k then n - 3 * k + 1 else Tries(s, j)) {}
    forall j: Id ensures j in t.ended <==> j in s.ended || (j == k && n + 1 == 3 * k + 3) {}
  }

  lemma {:induction false} SessionGuessesAreCompared(n: nat)
    ensures Spent(AfterUses(Guesses(InSession, n)), n)
    ensures WrongPins(Guesses(InSession, n), false, 0, 900) == n
  {
    hide Use, Spent;
    if n == 0 {
      NothingSpent();
    } else {
      GuessesPrefix(InSession, n);
      SessionGuessesAreCompared(n - 1);
      SpendOne(AfterUses(Guesses(InSession, n - 1)), n - 1);
    }
  }

  /** Six wrong PINs in one second are compared at a place that does not use the shared counter. */
  lemma SixGuesses(p: Place)
    requires !Counted(p)
    ensures Quiet(Guesses(p, 6), {p}, 0) && AllWrong(Guesses(p, 6), 0, 900) == 6
  {
    var us := Guesses(p, 6);
    if p == Bare { BareGuessesAreCompared(6); } else { SessionGuessesAreCompared(6); }
    NoneCounted(us, 0, 900);
  }

  lemma {:induction false} NoneCounted(us: seq<PinUse>, from: int, to: int)
    requires Within(us, {InSession, Bare})
    ensures WrongPins(us, true, from, to) == 0
  {
    if us != [] { NoneCounted(us[..|us| - 1], from, to); }
  }

  /** Five wrong PINs bound a set of places exactly when all of them use the shared counter. */
  lemma FiveExactlyForCountedPlaces(places: set<Place>)
    ensures BoundedTo(places) <==> places <= {Direct, AtLedger}
  {
    if places <= {Direct, AtLedger} {
      forall us: seq<PinUse>, from: int | Quiet(us, places, from) ensures AllWrong(us, from, from + 900) <= 5 {
        AtMostFiveCountedWrongPins(us, from);
        NoneElsewhere(us, from, from + 900);
      }
    } else {
      var p :| p in places && p !in {Direct, AtLedger};
      SixGuesses(p);
      assert Quiet(Guesses(p, 6), places, 0) && AllWrong(Guesses(p, 6), 0, 0 + 900) > 5;
    }
  }

  /** Wrong tries of a login session since it last had a right one. */
  function SessionWrong(us: seq<PinUse>, session: Id): nat {
    if us == [] then 0 else
    var n := |us| - 1;
    if us[n].session != session || us[n].place != InSession then SessionWrong(us[..n], session) else
    match AnswerAt(us, n)
    case Answered(Accepted) => 0
    case Answered(Incorrect) => SessionWrong(us[..n], session) + 1
    case _ => SessionWrong(us[..n], session)
  }

  /** A session is logged out exactly at its third wrong try in a row, and then asks for no PIN again. */
  lemma {:induction false} SessionEndsAtThree(us: seq<PinUse>, session: Id)
    ensures var s := AfterUses(us);
      SessionWrong(us, session) == Tries(s, session) <= 3 && (session in s.ended <==> SessionWrong(us, session) == 3)
  {
    if us != [] { SessionEndsAtThree(us[..|us| - 1], session); }
  }
}
