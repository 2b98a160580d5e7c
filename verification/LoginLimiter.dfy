/** Password attempts per client address: five failures in a window of fifteen
    minutes block the address for thirty. Times are in nanoseconds; a zero time is None. */
module LoginLimiter {
  import opened Items

  const MINUTE := 60_000_000_000
  const WINDOW := 15 * MINUTE
  const BLOCK := 30 * MINUTE

  datatype Attempt = Attempt(count: nat, windowStart: Option<int>, blockedTill: Option<int>)

  const NO_ATTEMPT := Attempt(0, None, None)

  function Lookup(attempts: map<string, Attempt>, address: string): Attempt {
    if address in attempts then attempts[address] else NO_ATTEMPT
  }

  predicate Blocked(attempt: Attempt, now: int) {
    attempt.blockedTill.Some? && now < attempt.blockedTill.value
  }

  predicate Expired(attempt: Attempt, now: int) {
    attempt.windowStart.None? || now - attempt.windowStart.value > WINDOW
  }

  function AfterAllow(attempt: Attempt, now: int): Attempt {
    if !Blocked(attempt, now) && Expired(attempt, now) then NO_ATTEMPT else attempt
  }

  function AfterFailure(attempt: Attempt, now: int): Attempt {
    var current := if Expired(attempt, now) then Attempt(0, Some(now), None) else attempt;
    if current.count + 1 >= 5 then current.(count := 0, blockedTill := Some(now + BLOCK))
    else current.(count := current.count + 1)
  }

  class Limiter {
    var attempts: map<string, Attempt>

    constructor ()
      ensures attempts == map[]
    {
      attempts := map[];
    }

    /** `later` is the second reading of the clock, for the interval after which to try again. */
    method Allow(address: string, now: int, later: int) returns (allowed: bool, retryAfter: int)
      modifies this
      ensures allowed == !Blocked(Lookup(old(attempts), address), now)
      ensures retryAfter == if allowed then 0 else Lookup(old(attempts), address).blockedTill.value - later
      ensures Lookup(attempts, address) == AfterAllow(Lookup(old(attempts), address), now)
      ensures attempts - {address} == old(attempts) - {address}
      ensures var attempt := Lookup(old(attempts), address);
        Lookup(attempts, address) ==
          if allowed && (attempt.windowStart == None || now - attempt.windowStart.value > 15 * 60_000_000_000)
          then Attempt(0, None, None) else attempt
    {
      var attempt := Lookup(attempts, address);
      if attempt.blockedTill.Some? && now < attempt.blockedTill.value {
        return false, attempt.blockedTill.value - later;
      }
      if attempt.windowStart == None || now - attempt.windowStart.value > WINDOW {
        attempts := attempts - {address};
      }
      return true, 0;
    }

    method Failure(address: string, now: int)
      modifies this
      ensures attempts == old(attempts)[address := AfterFailure(Lookup(old(attempts), address), now)]
    {
      var attempt := Lookup(attempts, address);
      if attempt.windowStart == None || now - attempt.windowStart.value > WINDOW {
        attempt := Attempt(0, Some(now), None);
      }
      attempt := attempt.(count := attempt.count + 1);
      if attempt.count >= 5 {
        attempt := attempt.(blockedTill := Some(now + BLOCK), count := 0);
      }
      attempts := attempts[address := attempt];
    }

    method Success(address: string)
      modifies this
      ensures attempts == old(attempts) - {address}
    {
      attempts := attempts - {address};
    }
  }

  /** A login is checked after it is allowed, so a failure comes no earlier than
      the question. The address and both times are the caller's. */
  datatype Login = Wrong(address: string, asked: int, failed: int) | Right(address: string, asked: int, passed: int)

  /** Logins one after another under a clock that does not go back. The theorems ask this of the logins of
      one address only; those of others may overlap them. */
  ghost predicate InSequence(logins: seq<Login>) {
    && (forall i :: 0 <= i < |logins| ==> logins[i].asked <= Closed(logins[i]))
    && (forall i :: 0 <= i < |logins| - 1 ==> Closed(logins[i]) <= logins[i + 1].asked)
  }

  function Closed(login: Login): int {
    match login
    case Wrong(_, _, failed) => failed
    case Right(_, _, passed) => passed
  }

  /** What the limiter holds after the logins, and, per address, the times of the
      failures it let through since that address last succeeded. */
  datatype Log = Log(attempts: map<string, Attempt>, failures: map<string, seq<int>>)

  function Failures(log: Log, address: string): seq<int> {
    if address in log.failures then log.failures[address] else []
  }

  function Step(log: Log, login: Login): Log {
    var attempt := Lookup(log.attempts, login.address);
    if Blocked(attempt, login.asked) then log
    else
      match login
      case Wrong(address, asked, failed) =>
        Log(log.attempts[address := AfterFailure(AfterAllow(attempt, asked), failed)],
            log.failures[address := Failures(log, address) + [failed]])
      case Right(address, _, _) =>
        Log(log.attempts - {address}, log.failures - {address})
  }

  function Play(logins: seq<Login>): Log {
    if logins == [] then Log(map[], map[])
    else Step(Play(logins[..|logins| - 1]), logins[|logins| - 1])
  }

  /** The index at which the window of failure `k` starts, judged from the times alone. */
  function WindowOf(times: seq<int>, k: nat): (start: nat)
    requires k < |times|
    ensures start <= k
  {
    if k == 0 then 0
    else
      var start := WindowOf(times, k - 1);
      if times[k] - times[start] > WINDOW then k else start
  }

  lemma {:induction false} WindowOfPrefix(times: seq<int>, more: seq<int>, k: nat)
    requires k < |times|
    ensures WindowOf(times + more, k) == WindowOf(times, k)
  {
    if k > 0 {
      WindowOfPrefix(times, more, k - 1);
    }
  }

  ghost predicate Ascending(times: seq<int>) {
    forall i, j :: 0 <= i <= j < |times| ==> times[i] <= times[j]
  }

  ghost predicate InLimit(times: seq<int>, k: nat)
    requires k < |times|
  {
    && k - WindowOf(times, k) <= 4
    && (k + 1 < |times| && k - WindowOf(times, k) == 4 ==> times[k + 1] >= times[k] + BLOCK)
  }

  /** A window holds at most five failures, and the fifth is followed by thirty
      minutes without any. */
  ghost predicate Limited(times: seq<int>) {
    && Ascending(times)
    && (forall k: nat :: k < |times| ==> InLimit(times, k))
  }

  ghost predicate Records(attempt: Attempt, times: seq<int>) {
    if times == [] then attempt == NO_ATTEMPT
    else
      var last := |times| - 1;
      var start := WindowOf(times, last);
      && attempt.windowStart == Some(times[start])
      && attempt.count == (if last - start == 4 then 0 else last - start + 1)
      && attempt.blockedTill == (if last - start == 4 then Some(times[last] + BLOCK) else None)
  }

  /** A failure after `times` and the window it falls in. */
  ghost predicate MayFollow(times: seq<int>, failed: int) {
    times != [] ==>
      && times[|times| - 1] <= failed
      && (|times| - 1 - WindowOf(times, |times| - 1) == 4 ==> failed >= times[|times| - 1] + BLOCK)
  }

  lemma NextWindow(times: seq<int>, failed: int)
    ensures forall k: nat :: k < |times| ==> WindowOf(times + [failed], k) == WindowOf(times, k)
    ensures WindowOf(times + [failed], |times|) ==
              if times == [] || failed - times[WindowOf(times, |times| - 1)] > WINDOW then |times|
              else WindowOf(times, |times| - 1)
  {
    forall k: nat | k < |times| ensures WindowOf(times + [failed], k) == WindowOf(times, k) {
      WindowOfPrefix(times, [failed], k);
    }
  }

  lemma LimitedExtends(times: seq<int>, failed: int)
    requires Limited(times) && MayFollow(times, failed)
    ensures Limited(times + [failed])
  {
    var longer := times + [failed];
    NextWindow(times, failed);
    forall k: nat | k < |longer| ensures InLimit(longer, k) {
      if k < |times| {
        assert InLimit(times, k);
        assert WindowOf(longer, k) == WindowOf(times, k);
      } else if times != [] {
        assert InLimit(times, |times| - 1);
        WindowGrowsByOne(times, failed);
      }
    }
    assert Ascending(longer);
  }

  /** A full window is over by the time the next failure is let through. */
  lemma WindowGrowsByOne(times: seq<int>, failed: int)
    requires times != [] && Ascending(times) && MayFollow(times, failed)
    requires |times| - 1 - WindowOf(times, |times| - 1) <= 4
    ensures |times| - WindowOf(times + [failed], |times|) <= 4
  {
    NextWindow(times, failed);
    assert times[WindowOf(times, |times| - 1)] <= times[|times| - 1];
  }

  lemma RecordsExtends(attempt: Attempt, times: seq<int>, asked: int, failed: int)
    requires Limited(times) && Records(attempt, times)
    requires asked <= failed && (times != [] ==> times[|times| - 1] <= asked)
    requires !Blocked(attempt, asked)
    ensures MayFollow(times, failed)
    ensures Records(AfterFailure(AfterAllow(attempt, asked), failed), times + [failed])
  {
    var n := |times|;
    NextWindow(times, failed);
    if n > 0 {
      var start := WindowOf(times, n - 1);
      assert InLimit(times, n - 1);
      assert times[start] <= times[n - 1];
      assert (times + [failed])[start] == times[start];
      if n - 1 - start == 4 {
        assert Expired(attempt, asked);
      }
    }
  }

  ghost predicate Inv(log: Log, address: string, now: Option<int>) {
    var times := Failures(log, address);
    && Limited(times)
    && Records(Lookup(log.attempts, address), times)
    && (times != [] ==> now.Some? && times[|times| - 1] <= now.value)
  }

  lemma StepKeepsInv(log: Log, login: Login, address: string, now: Option<int>)
    requires Inv(log, address, now)
    requires (now.Some? ==> now.value <= login.asked) && login.asked <= Closed(login)
    ensures Inv(Step(log, login), address, Some(Closed(login)))
  {
    var times := Failures(log, address);
    var attempt := Lookup(log.attempts, address);
    var next := Step(log, login);
    if login.address != address || Blocked(attempt, login.asked) {
      assert Failures(next, address) == times;
      assert Lookup(next.attempts, address) == attempt;
    } else if login.Wrong? {
      RecordsExtends(attempt, times, login.asked, login.failed);
      LimitedExtends(times, login.failed);
      assert Failures(next, address) == times + [login.failed];
    } else {
      assert Failures(next, address) == [];
    }
  }

  lemma {:induction false} EveryLogIsLimited(logins: seq<Login>, address: string)
    requires InSequence(logins)
    ensures Inv(Play(logins), address, if logins == [] then None else Some(Closed(logins[|logins| - 1])))
  {
    if logins != [] {
      var before := logins[..|logins| - 1];
      var login := logins[|logins| - 1];
      EveryLogIsLimited(before, address);
      if before != [] {
        assert before[|before| - 1] == logins[|logins| - 2];
        assert Closed(logins[|logins| - 2]) <= logins[|logins| - 2 + 1].asked;
      }
      assert login.asked <= Closed(login);
      StepKeepsInv(Play(before), login, address, if before == [] then None else Some(Closed(before[|before| - 1])));
    }
  }

  /** From the times alone: nine admitted failures never fit in fifteen minutes. */
  lemma NineFailuresTakeLonger(times: seq<int>, i: nat)
    requires Limited(times) && i + 8 < |times|
    ensures times[i + 8] - times[i] > WINDOW
  {
    var n := i + 8;
    var start := WindowOf(times, n);
    WindowStartsItself(times, n);
    assert InLimit(times, n);
    assert start >= 4 && WindowOf(times, start) == start;
    var before := WindowOf(times, start - 1);
    assert InLimit(times, start - 1);
    if start - 1 - before == 4 {
      assert times[start] >= times[start - 1] + BLOCK;
      assert times[i] <= times[start - 1] && times[start] <= times[n];
    } else {
      assert i <= before;
      assert times[i] <= times[before] && times[start] <= times[n];
    }
  }

  lemma {:induction false} WindowStartsItself(times: seq<int>, k: nat)
    requires k < |times|
    ensures WindowOf(times, WindowOf(times, k)) == WindowOf(times, k)
  {
    if k > 0 {
      WindowStartsItself(times, k - 1);
    }
  }

  /** However the logins of other addresses overlap, any closed span of fifteen minutes holds at most eight
      failures of one address since its last success. */
  lemma AtMostEightFailuresInAnySpan(logins: seq<Login>, address: string, i: nat)
    requires InSequence(OnlyOf(logins, address))
    requires i + 8 < |Failures(Play(logins), address)|
    ensures var times := Failures(Play(logins), address);
      times[i + 8] - times[i] > 15 * 60_000_000_000
  {
    AddressesAreIndependent(logins, address);
    EveryLogIsLimited(OnlyOf(logins, address), address);
    NineFailuresTakeLonger(Failures(Play(logins), address), i);
  }

  /** No failure is let through for thirty minutes after a fifth in one window. */
  lemma AFifthFailureBlocks(logins: seq<Login>, address: string, k: nat)
    requires InSequence(OnlyOf(logins, address))
    requires k < |Failures(Play(logins), address)|
    requires k - WindowOf(Failures(Play(logins), address), k) >= 4
    ensures var times := Failures(Play(logins), address);
      && k - WindowOf(times, k) == 4
      && (k + 1 < |times| ==> times[k + 1] >= times[k] + 30 * 60_000_000_000)
      && (k + 1 == |times| ==>
            forall now :: now < times[k] + 30 * 60_000_000_000 ==> Blocked(Lookup(Play(logins).attempts, address), now))
  {
    AddressesAreIndependent(logins, address);
    EveryLogIsLimited(OnlyOf(logins, address), address);
    assert InLimit(Failures(Play(logins), address), k);
  }

  /** Logins of one address have no effect on another. */
  lemma {:induction false} AddressesAreIndependent(logins: seq<Login>, address: string)
    ensures var own := OnlyOf(logins, address);
      && Lookup(Play(logins).attempts, address) == Lookup(Play(own).attempts, address)
      && Failures(Play(logins), address) == Failures(Play(own), address)
  {
    if logins != [] {
      var before := logins[..|logins| - 1];
      var login := logins[|logins| - 1];
      AddressesAreIndependent(before, address);
      if login.address == address {
        var own := OnlyOf(before, address) + [login];
        assert own[..|own| - 1] == OnlyOf(before, address);
      }
    }
  }

  function OnlyOf(logins: seq<Login>, address: string): seq<Login> {
    if logins == [] then []
    else
      var before := OnlyOf(logins[..|logins| - 1], address);
      var login := logins[|logins| - 1];
      if login.address == address then before + [login] else before
  }

  /** Eight are reached: three at the end of one window, five at the start of the next. */
  lemma EightFailuresInANanosecond()
    ensures exists logins: seq<Login> ::
      && InSequence(logins)
      && |Failures(Play(logins), "a")| == 9
      && Failures(Play(logins), "a")[8] - Failures(Play(logins), "a")[1] == 1
  {
    var before := AWindowRunsOut();
    Repeat(Play(before), "a", WINDOW + 1, 4);
    PlayAgain(before, "a", WINDOW + 1, 4);
    var logins := before + Times("a", WINDOW + 1, 4);
    assert Failures(Play(logins), "a") == [0] + Copies(WINDOW, 3) + [WINDOW + 1] + Copies(WINDOW + 1, 4);
    assert InSequence(logins);
  }

  /** Four failures, the last three when the window is just not over, and a fifth right after. */
  lemma AWindowRunsOut() returns (logins: seq<Login>)
    ensures |logins| == 5 && InSequence(logins) && Closed(logins[4]) == WINDOW + 1
    ensures Failures(Play(logins), "a") == [0] + Copies(WINDOW, 3) + [WINDOW + 1]
    ensures Lookup(Play(logins).attempts, "a") == Attempt(1, Some(WINDOW + 1), None)
  {
    var first := [Wrong("a", 0, 0)];
    assert first[..0] == [];
    assert Play([]) == Log(map[], map[]);
    assert Failures(Play(first), "a") == [0];
    Repeat(Play(first), "a", WINDOW, 3);
    PlayAgain(first, "a", WINDOW, 3);
    var ending, next := first + Times("a", WINDOW, 3), Wrong("a", WINDOW + 1, WINDOW + 1);
    PlayOneMore(ending, next);
    logins := ending + [next];
  }

  function Times(address: string, at: int, n: nat): (logins: seq<Login>)
    ensures |logins| == n && forall i :: 0 <= i < n ==> logins[i] == Wrong(address, at, at)
  {
    seq(n, i => Wrong(address, at, at))
  }

  ghost predicate Open(attempt: Attempt, at: int, n: nat) {
    && attempt.blockedTill.None? && attempt.windowStart.Some?
    && 0 <= at - attempt.windowStart.value <= WINDOW && attempt.count + n <= 5
  }

  function Counting(attempt: Attempt, at: int, n: nat): Attempt {
    if attempt.count + n == 5 then attempt.(count := 0, blockedTill := Some(at + BLOCK))
    else attempt.(count := attempt.count + n)
  }

  lemma OneMoreFailure(attempt: Attempt, at: int, n: nat)
    requires Open(attempt, at, n + 1)
    ensures !Blocked(Counting(attempt, at, n), at)
    ensures AfterFailure(AfterAllow(Counting(attempt, at, n), at), at) == Counting(attempt, at, n + 1)
  {
  }

  /** The log after the same wrong login `n` times more. */
  function Again(log: Log, address: string, at: int, n: nat): Log {
    if n == 0 then log else Step(Again(log, address, at, n - 1), Wrong(address, at, at))
  }

  function Copies(at: int, n: nat): (times: seq<int>)
    ensures |times| == n && forall i :: 0 <= i < n ==> times[i] == at
  {
    if n == 0 then [] else Copies(at, n - 1) + [at]
  }

  /** Further failures within the window, none of them beyond the fifth. */
  lemma {:induction false} Repeat(log: Log, address: string, at: int, n: nat)
    requires Open(Lookup(log.attempts, address), at, n) && Lookup(log.attempts, address).count < 5
    ensures var later := Again(log, address, at, n);
      && Failures(later, address) == Failures(log, address) + Copies(at, n)
      && Lookup(later.attempts, address) == Counting(Lookup(log.attempts, address), at, n)
  {
    if n > 0 {
      Repeat(log, address, at, n - 1);
      OneMoreFailure(Lookup(log.attempts, address), at, n - 1);
      LetThrough(Again(log, address, at, n - 1), address, at);
    }
  }

  lemma {:induction false} PlayAgain(logins: seq<Login>, address: string, at: int, n: nat)
    ensures Play(logins + Times(address, at, n)) == Again(Play(logins), address, at, n)
  {
    if n == 0 {
      assert logins + Times(address, at, 0) == logins;
    } else {
      var before, next := logins + Times(address, at, n - 1), Wrong(address, at, at);
      PlayAgain(logins, address, at, n - 1);
      PlayOneMore(before, next);
      assert logins + Times(address, at, n) == before + [next];
    }
  }

  lemma LetThrough(log: Log, address: string, at: int)
    requires !Blocked(Lookup(log.attempts, address), at)
    ensures var next := Step(log, Wrong(address, at, at));
      && Failures(next, address) == Failures(log, address) + [at]
      && Lookup(next.attempts, address) == AfterFailure(AfterAllow(Lookup(log.attempts, address), at), at)
  {
  }

  lemma PlayOneMore(logins: seq<Login>, login: Login)
    ensures Play(logins + [login]) == Step(Play(logins), login)
  {
    assert (logins + [login])[..|logins|] == logins;
  }
}
