/** The sliding-window limiter for failed logins, and the authenticator that drives it. */
module Limiter {
  import opened Wrappers

  const DEFAULT_THRESHOLD := 5
  const DEFAULT_WINDOW := 900_000_000_000 // 15 minutes in nanoseconds

  datatype Config = Config(threshold: int, window: int) {
    function Threshold(): (n: int)
      ensures n > 0
    {
      if threshold <= 0 then DEFAULT_THRESHOLD else threshold
    }

    function Window(): (w: int)
      ensures w > 0
    {
      if window <= 0 then DEFAULT_WINDOW else window
    }
  }

  /** What the limiter holds for one login key. */
  datatype Slot = Slot(failures: seq<int>, blockedUntil: Option<int>)

  const FREE: Slot := Slot([], None)

  /** The timestamps not before `start`, in order. */
  function Recent(times: seq<int>, start: int): seq<int> {
    if times == [] then []
    else
      var n := |times| - 1;
      Recent(times[..n], start) + if times[n] >= start then [times[n]] else []
  }

  function CheckSlot(s: Slot, now: int): (Slot, bool) {
    if s.blockedUntil.None? then (s, false)
    else if now < s.blockedUntil.value then (s, true)
    else (FREE, false)
  }

  function FailSlot(cfg: Config, s: Slot, now: int): (Slot, bool) {
    var kept := Recent(s.failures, now - cfg.Window()) + [now];
    if |kept| >= cfg.Threshold() then (Slot(kept, Some(now + cfg.Window())), true)
    else (Slot(kept, s.blockedUntil), false)
  }

  class WindowLoginFailureLimiter {
    const cfg: Config
    var failures: map<string, seq<int>>
    var blocked: map<string, int>

    ghost function At(key: string): Slot
      reads this
    {
      Slot(if key in failures then failures[key] else [], if key in blocked then Some(blocked[key]) else None)
    }

    constructor (cfg: Config)
      ensures this.cfg == cfg && forall key :: At(key) == FREE
    {
      this.cfg, failures, blocked := cfg, map[], map[];
    }

    method Blocked(key: string, now: int) returns (r: bool)
      modifies this
      ensures (At(key), r) == CheckSlot(old(At(key)), now)
      ensures forall k | k != key :: At(k) == old(At(k))
    {
      if key !in blocked {
        return false;
      }
      if now < blocked[key] {
        return true;
      }
      blocked := blocked - {key};
      failures := failures[key := []];
      r := false;
    }

    method RecordFailure(key: string, now: int) returns (r: bool)
      modifies this
      ensures (At(key), r) == FailSlot(cfg, old(At(key)), now)
      ensures forall k | k != key :: At(k) == old(At(k))
    {
      var windowStart := now - cfg.Window();
      var times := if key in failures then failures[key] else [];
      var kept := [];
      for i := 0 to |times|
        invariant kept == Recent(times[..i], windowStart)
      {
        assert times[..i + 1][..i] == times[..i];
        if times[i] >= windowStart {
          kept := kept + [times[i]];
        }
      }
      assert times[..|times|] == times;
      kept := kept + [now];
      failures := failures[key := kept];
      if |kept| >= cfg.Threshold() {
        blocked := blocked[key := now + cfg.Window()];
        return true;
      }
      r := false;
    }

    method RecordSuccess(key: string)
      modifies this
      ensures At(key) == FREE
      ensures forall k | k != key :: At(k) == old(At(k))
    {
      failures := failures - {key};
      blocked := blocked - {key};
    }
  }

  // ---- The authenticator ------------------------------------------------------------------

  /** What the user store and the password hasher say about a login. */
  datatype Credentials = NoUser | Inactive(userID: string) | WrongPassword(userID: string) | Right(userID: string, rolesReadable: bool)

  datatype Outcome = TemporarilyBlocked | InvalidCredentials | RolesFailed | LoggedIn(userID: string)

  datatype AuditEvent = LoginFailed | LoginBlocked
  datatype AuditEntry = AuditEntry(actorID: string, targetUserID: string, event: AuditEvent)

  /** A login: the check is made at `checkedAt`, a failure recorded at `recordedAt`. */
  datatype Attempt = Attempt(credentials: Credentials, checkedAt: int, recordedAt: int)

  /** The slot of the attempt's key afterwards, and whether a failure was recorded. */
  function Attempted(cfg: Config, s: Slot, a: Attempt): (Slot, bool) {
    var (checked, blocked) := CheckSlot(s, a.checkedAt);
    if blocked then (checked, false)
    else if a.credentials.Right? then (FREE, false)
    else (FailSlot(cfg, checked, a.recordedAt).0, true)
  }

  class Authenticator {
    const limiter: WindowLoginFailureLimiter
    var audits: seq<AuditEntry>

    constructor (limiter: WindowLoginFailureLimiter)
      ensures this.limiter == limiter && audits == []
    {
      this.limiter, audits := limiter, [];
    }

    method Authenticate(key: string, a: Attempt) returns (r: Outcome)
      modifies this, limiter
      ensures var (slot, recorded) := Attempted(limiter.cfg, old(limiter.At(key)), a);
        && limiter.At(key) == slot
        && (recorded <==> r == InvalidCredentials)
        && audits == old(audits) + Trail(limiter.cfg, old(limiter.At(key)), key, a)
      ensures forall k | k != key :: limiter.At(k) == old(limiter.At(k))
      ensures r == TemporarilyBlocked <==> CheckSlot(old(limiter.At(key)), a.checkedAt).1
      ensures r != TemporarilyBlocked && a.credentials.Right? ==>
        r == if a.credentials.rolesReadable then LoggedIn(a.credentials.userID) else RolesFailed
      ensures r.LoggedIn? ==> a.credentials == Right(r.userID, true)
    {
      var blocked := limiter.Blocked(key, a.checkedAt);
      if blocked {
        audits := audits + [AuditEntry(key, "", LoginBlocked)];
        return TemporarilyBlocked;
      }
      match a.credentials {
        case NoUser =>
          RecordFailure(key, "", a.recordedAt);
          return InvalidCredentials;
        case Inactive(userID) =>
          RecordFailure(key, userID, a.recordedAt);
          return InvalidCredentials;
        case WrongPassword(userID) =>
          RecordFailure(key, userID, a.recordedAt);
          return InvalidCredentials;
        case Right(userID, rolesReadable) =>
          limiter.RecordSuccess(key);
          return if rolesReadable then LoggedIn(userID) else RolesFailed;
      }
    }

    method RecordFailure(key: string, userID: string, now: int)
      modifies this, limiter
      ensures var (slot, blocked) := FailSlot(limiter.cfg, old(limiter.At(key)), now);
        && limiter.At(key) == slot
        && audits == old(audits) + FailureTrail(key, userID, blocked)
      ensures forall k | k != key :: limiter.At(k) == old(limiter.At(k))
    {
      var blocked := limiter.RecordFailure(key, now);
      audits := audits + [AuditEntry(key, userID, LoginFailed)];
      if blocked {
        audits := audits + [AuditEntry(key, userID, LoginBlocked)];
      }
    }
  }

  function FailureTrail(key: string, userID: string, blocked: bool): seq<AuditEntry> {
    [AuditEntry(key, userID, LoginFailed)] + if blocked then [AuditEntry(key, userID, LoginBlocked)] else []
  }

  /** Audit entries of one attempt: refused, failed, failed and thereby blocked, or none. */
  function Trail(cfg: Config, s: Slot, key: string, a: Attempt): seq<AuditEntry> {
    var (checked, blocked) := CheckSlot(s, a.checkedAt);
    if blocked then [AuditEntry(key, "", LoginBlocked)]
    else if a.credentials.Right? then []
    else FailureTrail(key, if a.credentials.NoUser? then "" else a.credentials.userID, FailSlot(cfg, checked, a.recordedAt).1)
  }

  // ---- Login bound ------------------------------------------------------------------------------

  /** Attempts on one key, one after the other, on a clock that does not go back. */
  ghost predicate InOrder(attempts: seq<Attempt>) {
    && (forall i | 0 <= i < |attempts| :: attempts[i].checkedAt <= attempts[i].recordedAt)
    && (forall i, j | 0 <= i < j < |attempts| :: attempts[i].recordedAt <= attempts[j].checkedAt)
  }

  /** Right credentials on a key that is not blocked; a blocked key is refused whatever the credentials. */
  ghost predicate Succeeds(s: Slot, a: Attempt) {
    !CheckSlot(s, a.checkedAt).1 && a.credentials.Right?
  }

  /** No attempt succeeds at a time from `a` on and before `a + w`. */
  ghost predicate NoSuccessWithin(cfg: Config, s: Slot, attempts: seq<Attempt>, a: int)
    decreases |attempts|
  {
    attempts == [] ||
    (!(Succeeds(s, attempts[0]) && a <= attempts[0].recordedAt < a + cfg.Window())
     && NoSuccessWithin(cfg, Attempted(cfg, s, attempts[0]).0, attempts[1..], a))
  }

  /** Number of failures recorded at times from `a` on and before `a + w`. */
  ghost function FailuresWithin(cfg: Config, s: Slot, attempts: seq<Attempt>, a: int): nat
    decreases |attempts|
  {
    if attempts == [] then 0
    else
      var (next, recorded) := Attempted(cfg, s, attempts[0]);
      (if recorded && a <= attempts[0].recordedAt < a + cfg.Window() then 1 else 0)
      + FailuresWithin(cfg, next, attempts[1..], a)
  }

  /** The state of affairs after `n` failures counted in the window, at time `now`. */
  ghost predicate Contained(cfg: Config, s: Slot, a: int, n: nat, now: int) {
    && n <= cfg.Threshold() && (now < a ==> n == 0)
    && (|| now >= a + cfg.Window()
        || (s.blockedUntil.Some? && s.blockedUntil.value >= a + cfg.Window())
        || (n < cfg.Threshold() && n <= |Recent(s.failures, a)| && (s.blockedUntil.Some? ==> n == 0)))
  }

  lemma {:induction false} RecentAppend(times: seq<int>, t: int, start: int)
    ensures Recent(times + [t], start) == Recent(times, start) + if t >= start then [t] else []
  {
    assert (times + [t])[..|times|] == times;
  }

  /** Pruning with an earlier start does not matter to a later one. */
  lemma {:induction false} RecentTwice(times: seq<int>, early: int, late: int)
    requires early <= late
    ensures Recent(Recent(times, early), late) == Recent(times, late)
  {
    if times != [] {
      var n := |times| - 1;
      RecentTwice(times[..n], early, late);
      if times[n] >= early {
        RecentAppend(Recent(times[..n], early), times[n], late);
      } else {
        assert Recent(times[..n], early) + [] == Recent(times[..n], early);
      }
    }
  }

  lemma {:induction false} RecentShorter(times: seq<int>, start: int)
    ensures |Recent(times, start)| <= |times|
  {
    if times != [] {
      RecentShorter(times[..|times| - 1], start);
    }
  }

  lemma {:induction false} FailureContained(cfg: Config, s: Slot, a: int, n: nat, now: int)
    requires s.blockedUntil.None? && n < cfg.Threshold() && n <= |Recent(s.failures, a)| && (now < a ==> n == 0)
    ensures Contained(cfg, FailSlot(cfg, s, now).0, a, if a <= now < a + cfg.Window() then n + 1 else n, now)
  {
    var start := now - cfg.Window();
    var kept := Recent(s.failures, start);
    RecentAppend(kept, now, a);
    RecentShorter(kept + [now], a);
    if a <= now < a + cfg.Window() {
      RecentTwice(s.failures, start, a);
    }
  }

  lemma {:induction false} AttemptContained(cfg: Config, s: Slot, a: int, n: nat, now: int, attempt: Attempt)
    requires Contained(cfg, s, a, n, now) && now <= attempt.checkedAt <= attempt.recordedAt
    requires !(Succeeds(s, attempt) && a <= attempt.recordedAt < a + cfg.Window())
    ensures var (next, recorded) := Attempted(cfg, s, attempt);
      Contained(cfg, next, a, if recorded && a <= attempt.recordedAt < a + cfg.Window() then n + 1 else n, attempt.recordedAt)
  {
    var (checked, blocked) := CheckSlot(s, attempt.checkedAt);
    if !blocked && attempt.recordedAt < a + cfg.Window() {
      assert Recent(FREE.failures, a) == [];
      FailureContained(cfg, checked, a, n, attempt.recordedAt);
    }
  }

  lemma {:induction false} AttemptsContained(cfg: Config, s: Slot, a: int, n: nat, now: int, attempts: seq<Attempt>)
    requires Contained(cfg, s, a, n, now) && InOrder(attempts) && NoSuccessWithin(cfg, s, attempts, a)
    requires attempts != [] ==> now <= attempts[0].checkedAt
    ensures n + FailuresWithin(cfg, s, attempts, a) <= cfg.Threshold()
    decreases |attempts|
  {
    if attempts != [] {
      var attempt := attempts[0];
      AttemptContained(cfg, s, a, n, now, attempt);
      var (next, recorded) := Attempted(cfg, s, attempt);
      var m := if recorded && a <= attempt.recordedAt < a + cfg.Window() then n + 1 else n;
      assert forall i | 0 <= i < |attempts[1..]| :: attempts[1..][i] == attempts[i + 1];
      AttemptsContained(cfg, next, a, m, attempt.recordedAt, attempts[1..]);
    }
  }

  /**
    Login bound: whatever the limiter held before, a half-open interval of one window in
    which no login succeeds contains no more recorded failures than the threshold.  A right
    password tried on a blocked key is no success.
   */
  lemma {:induction false} LoginBound(cfg: Config, s: Slot, attempts: seq<Attempt>, a: int)
    requires InOrder(attempts) && NoSuccessWithin(cfg, s, attempts, a)
    ensures FailuresWithin(cfg, s, attempts, a) <= cfg.Threshold()
  {
    if attempts != [] {
      AttemptsContained(cfg, s, a, 0, attempts[0].checkedAt, attempts);
    }
  }

  // ---- Pruning refines the full history -------------------------------------------------------------

  datatype Call = Check(now: int) | Fail(now: int) | Succeed(now: int)

  function CallSlot(cfg: Config, s: Slot, c: Call): (Slot, bool) {
    match c
    case Check(now) => CheckSlot(s, now)
    case Fail(now) => FailSlot(cfg, s, now)
    case Succeed(_) => (FREE, false)
  }

  /** The same call on a limiter that forgets nothing between resets. */
  function CallFull(cfg: Config, s: Slot, c: Call): (Slot, bool) {
    match c
    case Check(now) => CheckSlot(s, now)
    case Fail(now) =>
      var all := s.failures + [now];
      if |Recent(all, now - cfg.Window())| >= cfg.Threshold() then (Slot(all, Some(now + cfg.Window())), true)
      else (Slot(all, s.blockedUntil), false)
    case Succeed(_) => (FREE, false)
  }

  function Answers(cfg: Config, s: Slot, calls: seq<Call>): seq<bool>
    decreases |calls|
  {
    if calls == [] then []
    else
      var (next, r) := CallSlot(cfg, s, calls[0]);
      [r] + Answers(cfg, next, calls[1..])
  }

  function AnswersFull(cfg: Config, s: Slot, calls: seq<Call>): seq<bool>
    decreases |calls|
  {
    if calls == [] then []
    else
      var (next, r) := CallFull(cfg, s, calls[0]);
      [r] + AnswersFull(cfg, next, calls[1..])
  }

  ghost predicate ClockForward(calls: seq<Call>) {
    forall i, j | 0 <= i < j < |calls| :: calls[i].now <= calls[j].now
  }

  /** The pruned slot holds what the full one holds from some start on that is out of reach by now. */
  ghost predicate Refines(cfg: Config, pruned: Slot, full: Slot, start: int, now: int) {
    && pruned.blockedUntil == full.blockedUntil
    && pruned.failures == Recent(full.failures, start)
    && start <= now - cfg.Window()
  }

  lemma {:induction false} CallRefines(cfg: Config, pruned: Slot, full: Slot, start: int, c: Call) returns (next: int)
    requires Refines(cfg, pruned, full, start, c.now)
    ensures CallSlot(cfg, pruned, c).1 == CallFull(cfg, full, c).1
    ensures Refines(cfg, CallSlot(cfg, pruned, c).0, CallFull(cfg, full, c).0, next, c.now)
  {
    next := start;
    assert Recent([], start) == [];
    if c.Fail? {
      next := c.now - cfg.Window();
      RecentTwice(full.failures, start, next);
      RecentAppend(full.failures, c.now, next);
    }
  }

  lemma {:induction false} CallsRefine(cfg: Config, pruned: Slot, full: Slot, start: int, calls: seq<Call>)
    requires calls != [] ==> Refines(cfg, pruned, full, start, calls[0].now)
    requires ClockForward(calls)
    ensures Answers(cfg, pruned, calls) == AnswersFull(cfg, full, calls)
    decreases |calls|
  {
    if calls != [] {
      var next := CallRefines(cfg, pruned, full, start, calls[0]);
      assert forall i | 0 <= i < |calls[1..]| :: calls[1..][i] == calls[i + 1];
      CallsRefine(cfg, CallSlot(cfg, pruned, calls[0]).0, CallFull(cfg, full, calls[0]).0, next, calls[1..]);
    }
  }

  /** Over any sequence of calls, dropping stale timestamps never changes an answer. */
  lemma {:induction false} PruningIsInvisible(cfg: Config, calls: seq<Call>)
    requires ClockForward(calls)
    ensures Answers(cfg, FREE, calls) == AnswersFull(cfg, FREE, calls)
  {
    if calls != [] {
      assert Recent([], calls[0].now - cfg.Window()) == [];
      CallsRefine(cfg, FREE, FREE, calls[0].now - cfg.Window(), calls);
    }
  }

  // ---- When a key is locked, and until when -----------------------------------------------------

  /** How many of the times are not before `start`. */
  ghost function CountFrom(times: seq<int>, start: int): nat {
    if times == [] then 0
    else CountFrom(times[..|times| - 1], start) + if times[|times| - 1] >= start then 1 else 0
  }

  /** The last of these failures has as many in the window that ends with it as the threshold asks for. */
  ghost predicate Reached(cfg: Config, failures: seq<int>) {
    failures != [] && CountFrom(failures, failures[|failures| - 1] - cfg.Window()) >= cfg.Threshold()
  }

  ghost predicate LockedAt(cfg: Config, failures: seq<int>, now: int) {
    Reached(cfg, failures) && now < failures[|failures| - 1] + cfg.Window()
  }

  /**
    The failures recorded for a key since its last success, or since the last lock that ran
    out: a locked key records nothing, and the first attempt after a lock starts anew.
   */
  ghost function OpenFailures(cfg: Config, attempts: seq<Attempt>): seq<int> {
    if attempts == [] then []
    else
      var before, a := OpenFailures(cfg, attempts[..|attempts| - 1]), attempts[|attempts| - 1];
      if LockedAt(cfg, before, a.checkedAt) then before
      else if a.credentials.Right? then []
      else (if Reached(cfg, before) then [] else before) + [a.recordedAt]
  }

  /** What the limiter holds for the key after these attempts, the first of them on a free key. */
  ghost function SlotAfter(cfg: Config, attempts: seq<Attempt>): Slot {
    if attempts == [] then FREE
    else Attempted(cfg, SlotAfter(cfg, attempts[..|attempts| - 1]), attempts[|attempts| - 1]).0
  }

  lemma {:induction false} RecentCounts(times: seq<int>, start: int)
    ensures |Recent(times, start)| == CountFrom(times, start)
  {
    if times != [] {
      RecentCounts(times[..|times| - 1], start);
    }
  }

  /** The slot holds the open failures of the last window, and the lock if they reached the threshold. */
  ghost predicate Holds(cfg: Config, s: Slot, failures: seq<int>) {
    if failures == [] then s == FREE
    else
      var last := failures[|failures| - 1];
      && s.failures == Recent(failures, last - cfg.Window())
      && s.blockedUntil == if Reached(cfg, failures) then Some(last + cfg.Window()) else None
  }

  lemma {:induction false} FailHolds(cfg: Config, s: Slot, failures: seq<int>, now: int)
    requires Holds(cfg, s, failures) && !Reached(cfg, failures)
    requires failures != [] ==> failures[|failures| - 1] <= now
    ensures Holds(cfg, FailSlot(cfg, s, now).0, failures + [now])
    ensures FailSlot(cfg, s, now).1 <==> Reached(cfg, failures + [now])
  {
    var start, all := now - cfg.Window(), failures + [now];
    if failures == [] {
      assert s.failures == Recent([], start);
    } else {
      RecentTwice(failures, failures[|failures| - 1] - cfg.Window(), start);
    }
    RecentAppend(failures, now, start);
    RecentCounts(all, start);
  }

  lemma {:induction false} AttemptHolds(cfg: Config, s: Slot, failures: seq<int>, a: Attempt)
    requires Holds(cfg, s, failures) && a.checkedAt <= a.recordedAt
    requires failures != [] ==> failures[|failures| - 1] <= a.checkedAt
    ensures CheckSlot(s, a.checkedAt).1 <==> LockedAt(cfg, failures, a.checkedAt)
    ensures !LockedAt(cfg, failures, a.checkedAt) && !a.credentials.Right? ==>
      var open := if Reached(cfg, failures) then [] else failures;
      && Holds(cfg, Attempted(cfg, s, a).0, open + [a.recordedAt])
      && (FailSlot(cfg, CheckSlot(s, a.checkedAt).0, a.recordedAt).1 <==> Reached(cfg, open + [a.recordedAt]))
  {
    if !LockedAt(cfg, failures, a.checkedAt) && !a.credentials.Right? {
      if Reached(cfg, failures) {
        FailHolds(cfg, FREE, [], a.recordedAt);
      } else {
        FailHolds(cfg, s, failures, a.recordedAt);
      }
    }
  }

  lemma {:induction false} AttemptsHold(cfg: Config, attempts: seq<Attempt>)
    requires InOrder(attempts)
    ensures Holds(cfg, SlotAfter(cfg, attempts), OpenFailures(cfg, attempts))
    ensures OpenFailures(cfg, attempts) != [] ==>
      attempts != [] && OpenFailures(cfg, attempts)[|OpenFailures(cfg, attempts)| - 1] <= attempts[|attempts| - 1].recordedAt
    decreases |attempts|
  {
    if attempts != [] {
      var n := |attempts| - 1;
      assert InOrder(attempts[..n]);
      AttemptsHold(cfg, attempts[..n]);
      assert n > 0 ==> attempts[..n][n - 1].recordedAt <= attempts[n].checkedAt;
      AttemptHolds(cfg, SlotAfter(cfg, attempts[..n]), OpenFailures(cfg, attempts[..n]), attempts[n]);
    }
  }

  /**
    The lockout, exactly: an attempt is refused if and only if the last failure recorded
    since the last success or lifted lock made the threshold full within its window, and one
    window from it is not over.  It leaves an audit entry then, and otherwise one for a failure
    and one more if with it the threshold is full.
   */
  lemma {:induction false} LockoutExactly(cfg: Config, attempts: seq<Attempt>, key: string, a: Attempt)
    requires InOrder(attempts + [a])
    ensures var s, failures := SlotAfter(cfg, attempts), OpenFailures(cfg, attempts);
      && (CheckSlot(s, a.checkedAt).1 <==> LockedAt(cfg, failures, a.checkedAt))
      && Trail(cfg, s, key, a) ==
           if LockedAt(cfg, failures, a.checkedAt) then [AuditEntry(key, "", LoginBlocked)]
           else if a.credentials.Right? then []
           else
             var user := if a.credentials.NoUser? then "" else a.credentials.userID;
             [AuditEntry(key, user, LoginFailed)]
             + if Reached(cfg, OpenFailures(cfg, attempts + [a])) then [AuditEntry(key, user, LoginBlocked)] else []
  {
    var all, n := attempts + [a], |attempts|;
    assert all[..n] == attempts && all[n] == a;
    assert forall i | 0 <= i < n :: attempts[i] == all[i];
    AttemptsHold(cfg, attempts);
    assert n > 0 ==> all[n - 1].recordedAt <= a.checkedAt;
    AttemptHolds(cfg, SlotAfter(cfg, attempts), OpenFailures(cfg, attempts), a);
  }

  lemma {:induction false} OpenFailuresRecorded(cfg: Config, attempts: seq<Attempt>, t: int)
    requires t in OpenFailures(cfg, attempts)
    ensures exists i :: 0 <= i < |attempts| && attempts[i].recordedAt == t && !attempts[i].credentials.Right?
    decreases |attempts|
  {
    var n := |attempts| - 1;
    if t in OpenFailures(cfg, attempts[..n]) {
      OpenFailuresRecorded(cfg, attempts[..n], t);
      var i :| 0 <= i < n && attempts[..n][i].recordedAt == t && !attempts[..n][i].credentials.Right?;
      assert attempts[i] == attempts[..n][i];
    }
  }

  /** Every lockout ends: one window after the last failure nothing is refused, and right credentials succeed. */
  lemma {:induction false} LockoutEnds(cfg: Config, attempts: seq<Attempt>, a: Attempt)
    requires InOrder(attempts + [a])
    requires forall i | 0 <= i < |attempts| && !attempts[i].credentials.Right? :: attempts[i].recordedAt + cfg.Window() <= a.checkedAt
    ensures !CheckSlot(SlotAfter(cfg, attempts), a.checkedAt).1
    ensures a.credentials.Right? ==> SlotAfter(cfg, attempts + [a]) == FREE
  {
    var failures := OpenFailures(cfg, attempts);
    LockoutExactly(cfg, attempts, "", a);
    if failures != [] {
      OpenFailuresRecorded(cfg, attempts, failures[|failures| - 1]);
    }
    assert (attempts + [a])[..|attempts|] == attempts;
  }

  ghost function WrongAttempts(attempts: seq<Attempt>): nat {
    if attempts == [] then 0
    else WrongAttempts(attempts[..|attempts| - 1]) + if attempts[|attempts| - 1].credentials.Right? then 0 else 1
  }

  lemma {:induction false} CountAtMost(times: seq<int>, start: int)
    ensures CountFrom(times, start) <= |times|
  {
    if times != [] {
      CountAtMost(times[..|times| - 1], start);
    }
  }

  lemma {:induction false} FailuresAreWrong(cfg: Config, attempts: seq<Attempt>)
    ensures |OpenFailures(cfg, attempts)| <= WrongAttempts(attempts)
    decreases |attempts|
  {
    if attempts != [] {
      FailuresAreWrong(cfg, attempts[..|attempts| - 1]);
    }
  }

  /** Nobody is locked out before the threshold of wrong attempts. */
  lemma {:induction false} NoEarlyLockout(cfg: Config, attempts: seq<Attempt>, a: Attempt)
    requires InOrder(attempts + [a]) && WrongAttempts(attempts) < cfg.Threshold()
    ensures !CheckSlot(SlotAfter(cfg, attempts), a.checkedAt).1
  {
    var failures := OpenFailures(cfg, attempts);
    LockoutExactly(cfg, attempts, "", a);
    FailuresAreWrong(cfg, attempts);
    if failures != [] {
      CountAtMost(failures, failures[|failures| - 1] - cfg.Window());
    }
  }

  /** Five failures in fifteen minutes, where nothing else is configured. */
  lemma DefaultLimits(cfg: Config)
    ensures cfg.Threshold() == if cfg.threshold > 0 then cfg.threshold else 5
    ensures cfg.Window() == if cfg.window > 0 then cfg.window else 15 * 60 * 1_000_000_000
  {
  }
}
