/**
 * The PID-file lock. The token file is a single optional string, one
 * character per byte, and the process id is a parameter. File reads follow
 * Python 2.7: the file is read as bytes, and a line ends only at `\n`.
 */
module PidLock {
  import opened Base
  import opened Ascii
  import opened Decimal

  /** A `Lock` object: the owning pid, the remaining retry budget, and safe mode. */
  datatype Lock = Lock(pid: nat, timeout: int, safe: bool)

  /** The token after an operation, and whether the operation raised. */
  datatype LockStep = LockStep(file: Option<string>, res: Result<()>)

  /** The outcome of the retry loop, the lock with its decremented budget, and the attempts made. */
  datatype Entered = Entered(step: LockStep, lock: Lock, attempts: nat)

  /** What `acquire` writes: the pid and a newline. */
  function PidText(pid: nat): string
  {
    Show(pid) + "\n"
  }

  /** `readline()` without its terminator: the text before the first `\n` (a `\r` is an ordinary byte). */
  function FirstLine(s: string): (r: string)
    ensures |r| <= |s| && r == s[..|r|]
    ensures forall i :: 0 <= i < |r| ==> r[i] != '\n'
    ensures |r| < |s| ==> s[|r|] == '\n'
  {
    if |s| == 0 || s[0] == '\n' then ""
    else
      var rest := FirstLine(s[1..]);
      assert [s[0]] + rest == s[..|rest| + 1];
      [s[0]] + rest
  }

  /** The first line of a token, stripped and read as an integer: the pid a token names, if it names one. */
  function StoredPid(content: string): Option<int>
  {
    ParseInt(RStrip(FirstLine(content)))
  }

  /**
   * The first line can be encoded: `check_lock` encodes the byte string it
   * read, which Python 2 first decodes as ASCII.
   */
  predicate Readable(content: string)
  {
    IsAscii(FirstLine(content))
  }

  /** A token that names a pid is readable. */
  lemma StoredPidReadable(content: string)
    ensures StoredPid(content).Some? ==> Readable(content)
  {
    if StoredPid(content).None? {
      return;
    }
    var line := FirstLine(content);
    var stripped := RStrip(line);
    ParsedAlphabet(stripped);
    forall i | 0 <= i < |line|
      ensures line[i] as int < 128
    {
      if i < |stripped| {
        assert line[i] == stripped[i];
      }
    }
  }

  /** The token is present and names `pid`. */
  predicate OwnedBy(file: Option<string>, pid: nat)
  {
    file.Some? && StoredPid(file.value) == Some(pid)
  }

  /** A token written by `pid` names `pid`. */
  lemma StoredPidText(pid: nat)
    ensures StoredPid(PidText(pid)) == Some(pid)
    ensures Readable(PidText(pid))
  {
    var digits := Show(pid);
    var text := PidText(pid);
    assert text[|digits|] == '\n';
    assert forall i :: 0 <= i < |digits| ==> text[i] == digits[i];
    assert FirstLine(text) == digits;
    assert RStrip(digits) == digits;
    ParseShow(pid);
    StoredPidReadable(text);
  }

  /** `Lock(...)`: the constructor asserts the timeout is a non-negative integer. */
  function NewLock(pid: nat, timeout: int, safe: bool): (r: Result<Lock>)
    ensures r.Ok? <==> timeout >= 0
    ensures r.Ok? ==> r.value == Lock(pid, timeout, safe)
    ensures r.Err? ==> r.error == AssertionError
  {
    if timeout >= 0 then Ok(Lock(pid, timeout, safe)) else Err(AssertionError)
  }

  /**
   * `check_lock`: passes exactly when the token names this process and,
   * unless releasing, safe mode is off. A first line with a non-ASCII byte
   * fails to encode before the `try`, so UnicodeDecodeError escapes; an
   * unparsable or negative pid is a corrupt token; another pid means someone
   * else holds the lock.
   */
  function CheckLock(l: Lock, content: string, release: bool): (r: Result<()>)
    ensures r.Ok? <==> StoredPid(content) == Some(l.pid) && (release || !l.safe)
    ensures !Readable(content) ==> r == Err(UnicodeDecodeError)
    ensures Readable(content) && r.Err? ==> r.error.LockError?
    ensures Readable(content) && (StoredPid(content).None? || StoredPid(content).value < 0) ==> r == Err(LockError(Corrupt))
    ensures StoredPid(content).Some? && StoredPid(content).value >= 0 && StoredPid(content).value != l.pid
            ==> r == Err(LockError(HeldBy(StoredPid(content).value)))
  {
    if !Readable(content) then
      StoredPidReadable(content);
      Err(UnicodeDecodeError)
    else
    match StoredPid(content)
    case None => Err(LockError(Corrupt))
    case Some(p) =>
      if p < 0 then Err(LockError(Corrupt))
      else if p != l.pid then Err(LockError(HeldBy(p)))
      else if l.safe && !release then Err(LockError(Reentrant))
      else Ok(())
  }

  /**
   * `acquire`: an absent token is created naming this process; a present
   * token is never rewritten, and acquiring succeeds only when it already
   * names this process outside safe mode. Success always leaves the token
   * naming this process. Failures are LockErrors, except on an unreadable
   * token.
   */
  function Acquire(l: Lock, file: Option<string>): (r: LockStep)
    ensures file.None? ==> r == LockStep(Some(PidText(l.pid)), Ok(()))
    ensures file.Some? ==> r.file == file
    ensures file.Some? ==> (r.res.Ok? <==> OwnedBy(file, l.pid) && !l.safe)
    ensures r.res.Ok? ==> OwnedBy(r.file, l.pid)
    ensures r.res.Err? ==> file.Some? && (if Readable(file.value) then r.res.error.LockError? else r.res.error == UnicodeDecodeError)
  {
    match file
    case None =>
      StoredPidText(l.pid);
      LockStep(Some(PidText(l.pid)), Ok(()))
    case Some(content) =>
      LockStep(file, CheckLock(l, content, false))
  }

  /**
   * `release`: a token naming this process is deleted whatever the mode; a
   * foreign or corrupt token raises and stays; a missing token raises only
   * in safe mode. An unreadable token raises UnicodeDecodeError, which the
   * `except (OSError, IOError)` does not catch.
   */
  function Release(l: Lock, file: Option<string>): (r: LockStep)
    ensures r.res.Ok? ==> r.file.None?
    ensures r.res.Err? ==> r.file == file
    ensures r.res.Err? ==> if file.Some? && !Readable(file.value) then r.res.error == UnicodeDecodeError else r.res.error.LockError?
    ensures file.None? ==> (r.res.Ok? <==> !l.safe)
    ensures file.Some? ==> (r.res.Ok? <==> OwnedBy(file, l.pid))
  {
    match file
    case None =>
      if l.safe then LockStep(None, Err(LockError(TokenMissing))) else LockStep(None, Ok(()))
    case Some(content) =>
      match CheckLock(l, content, true)
      case Err(e) => LockStep(file, Err(e))
      case Ok(_) => LockStep(None, Ok(()))
  }

  /** `force_release`: the token is gone afterwards whatever it held, and nothing is raised. */
  function ForceRelease(file: Option<string>): (r: Option<string>)
    ensures r.None?
  {
    None
  }

  /** An attempt the loop answers by sleeping and trying again: it raised a LockError. */
  predicate Refused(a: LockStep)
  {
    a.res.Err? && a.res.error.LockError?
  }

  /** The token found after a sleep: what other processes left, or the same token when they did nothing. */
  function Upcoming(during: seq<Option<string>>, file: Option<string>): Option<string>
  {
    if |during| > 0 then during[0] else file
  }

  /** The interference still to come after a sleep. */
  function Remaining(during: seq<Option<string>>): seq<Option<string>>
  {
    if |during| > 0 then during[1..] else []
  }

  /** The retry budget `timeout` allows: one attempt per unit and one more, none when it is negative. */
  function Budget(l: Lock): nat
  {
    if l.timeout >= 0 then l.timeout + 1 else 0
  }

  /**
   * The loop of `__enter__` around any attempt: while the budget is
   * non-negative, try; on a LockError spend one unit and sleep. `during[k]`
   * is the token other processes leave behind during the k-th sleep
   * (unchanged once `during` runs out). An exhausted budget raises
   * LockError; any other exception escapes the loop at once.
   */
  function Retry(l: Lock, file: Option<string>, during: seq<Option<string>>, attempt: (Lock, Option<string>) -> LockStep): (r: Entered)
    decreases Budget(l)
    ensures r.lock.pid == l.pid && r.lock.safe == l.safe
    ensures r.attempts <= Budget(l)
    ensures r.step.res != Err(LockError(TimedOut)) ==> 1 <= r.attempts && r.lock.timeout == l.timeout - (r.attempts - 1)
    ensures r.step.res != Err(LockError(TimedOut)) ==> !Refused(r.step)
    ensures r.step.res == Err(LockError(TimedOut)) ==> r.attempts == Budget(l)
    ensures r.step.res == Err(LockError(TimedOut)) ==> r.lock.timeout == (if l.timeout >= 0 then -1 else l.timeout)
  {
    if l.timeout < 0 then
      Entered(LockStep(file, Err(LockError(TimedOut))), l, 0)
    else
      var a := attempt(l, file);
      if !Refused(a) then
        Entered(a, l, 1)
      else
        var r := Retry(l.(timeout := l.timeout - 1), Upcoming(during, file), Remaining(during), attempt);
        r.(attempts := r.attempts + 1)
  }

  /** An attempt that succeeds, or raises anything but LockError, ends the loop at once. */
  lemma RetryFirst(l: Lock, file: Option<string>, during: seq<Option<string>>, attempt: (Lock, Option<string>) -> LockStep)
    requires l.timeout >= 0 && !Refused(attempt(l, file))
    ensures Retry(l, file, during, attempt) == Entered(attempt(l, file), l, 1)
  {
  }

  /** After a LockError the loop spends one unit of budget and tries again on whatever token the sleep left. */
  lemma RetryAgain(l: Lock, file: Option<string>, during: seq<Option<string>>, attempt: (Lock, Option<string>) -> LockStep)
    requires l.timeout >= 0 && Refused(attempt(l, file))
    ensures var r := Retry(l.(timeout := l.timeout - 1), Upcoming(during, file), Remaining(during), attempt);
            Retry(l, file, during, attempt) == r.(attempts := r.attempts + 1)
  {
  }

  /**
   * What the loop around `acquire` leaves behind: on success a token naming
   * this process; on any exception other than the final LockError, the
   * UnicodeDecodeError of an unreadable token.
   */
  lemma {:induction false} RetryOutcome(l: Lock, file: Option<string>, during: seq<Option<string>>)
    decreases Budget(l)
    ensures var r := Retry(l, file, during, Acquire);
            && (r.step.res.Ok? ==> OwnedBy(r.step.file, l.pid))
            && (r.step.res.Err? && r.step.res != Err(LockError(TimedOut)) ==>
                  r.step.res == Err(UnicodeDecodeError) && r.step.file.Some? && !Readable(r.step.file.value))
  {
    if l.timeout >= 0 {
      if Refused(Acquire(l, file)) {
        RetryAgain(l, file, during, Acquire);
        RetryOutcome(l.(timeout := l.timeout - 1), Upcoming(during, file), Remaining(during));
      } else {
        RetryFirst(l, file, during, Acquire);
      }
    }
  }

  /**
   * `__enter__`: the loop around `acquire`. Success leaves a token naming
   * this process; the loop raises LockError once the budget is spent, or
   * the UnicodeDecodeError of an unreadable token.
   */
  function Enter(l: Lock, file: Option<string>, during: seq<Option<string>>): (r: Entered)
    ensures r.lock.pid == l.pid && r.lock.safe == l.safe
    ensures r.attempts <= Budget(l)
    ensures r.step.res != Err(LockError(TimedOut)) ==> 1 <= r.attempts && r.lock.timeout == l.timeout - (r.attempts - 1)
    ensures r.step.res.Ok? ==> OwnedBy(r.step.file, l.pid)
    ensures r.step.res.Err? ==> r.step.res.error == LockError(TimedOut) || r.step.res.error == UnicodeDecodeError
    ensures r.step.res == Err(UnicodeDecodeError) ==> r.step.file.Some? && !Readable(r.step.file.value)
    ensures r.step.res == Err(LockError(TimedOut)) ==> r.attempts == Budget(l)
    ensures r.step.res == Err(LockError(TimedOut)) ==> r.lock.timeout == (if l.timeout >= 0 then -1 else l.timeout)
  {
    RetryOutcome(l, file, during);
    Retry(l, file, during, Acquire)
  }

  /**
   * Without interference the retry loop succeeds exactly when a single
   * `acquire` would, and stops at once on an exception other than LockError;
   * after a LockError it makes all `timeout + 1` attempts and raises.
   */
  lemma {:induction false} EnterAlone(l: Lock, file: Option<string>)
    requires l.timeout >= 0
    decreases l.timeout
    ensures Enter(l, file, []).step.res.Ok? <==> Acquire(l, file).res.Ok?
    ensures !Refused(Acquire(l, file)) ==> Enter(l, file, []) == Entered(Acquire(l, file), l, 1)
    ensures Refused(Acquire(l, file)) ==>
              Enter(l, file, []) == Entered(LockStep(file, Err(LockError(TimedOut))), l.(timeout := -1), l.timeout + 1)
  {
    if Refused(Acquire(l, file)) {
      var l' := l.(timeout := l.timeout - 1);
      RetryAgain(l, file, [], Acquire);
      if l.timeout > 0 {
        assert Acquire(l', file) == Acquire(l, file);
        EnterAlone(l', file);
      }
    } else {
      RetryFirst(l, file, [], Acquire);
    }
  }

  /** A token held by another live process makes `with Lock(timeout=t)` give up after t+1 attempts. */
  lemma EnterForeignTimesOut(l: Lock, other: nat)
    requires l.timeout >= 0 && other != l.pid
    ensures Enter(l, Some(PidText(other)), []) ==
            Entered(LockStep(Some(PidText(other)), Err(LockError(TimedOut))), l.(timeout := -1), l.timeout + 1)
  {
    StoredPidText(other);
    EnterAlone(l, Some(PidText(other)));
  }

  /**
   * The retry loop also retries a corrupt token, which another process may
   * remove while it sleeps; the second attempt then creates this process's token.
   */
  lemma EnterRetriesCorrupt(l: Lock, content: string)
    requires l.timeout >= 1 && Readable(content)
    requires StoredPid(content).None? || StoredPid(content).value < 0
    ensures Enter(l, Some(content), [None]) ==
            Entered(LockStep(Some(PidText(l.pid)), Ok(())), l.(timeout := l.timeout - 1), 2)
  {
    assert CheckLock(l, content, false) == Err(LockError(Corrupt));
    RetryAgain(l, Some(content), [None], Acquire);
    RetryFirst(l.(timeout := l.timeout - 1), None, [], Acquire);
  }

  /** An unreadable token is not retried: its UnicodeDecodeError escapes the first attempt, whatever the budget. */
  lemma EnterStopsOnUnreadable(l: Lock, content: string, during: seq<Option<string>>)
    requires l.timeout >= 0 && !Readable(content)
    ensures Enter(l, Some(content), during) == Entered(LockStep(Some(content), Err(UnicodeDecodeError)), l, 1)
  {
    RetryFirst(l, Some(content), during, Acquire);
  }

  /** Safe mode refuses a second acquisition by the holder (test_lock.test_lock). */
  lemma SafeReentryRefused(pid: nat, timeout: nat)
    ensures var l := Lock(pid, timeout, true);
            var held := Acquire(l, None);
            held.res.Ok? && Acquire(Lock(pid, 0, true), held.file) == LockStep(held.file, Err(LockError(Reentrant)))
  {
    StoredPidText(pid);
    var token := PidText(pid);
    assert CheckLock(Lock(pid, 0, true), token, false) == Err(LockError(Reentrant));
  }

  /**
   * A token whose first line puts a sign and whitespace before the digits
   * still names the pid, since `int()` skips whitespace after the sign.
   */
  lemma SpacedSignNamesPid(pid: nat, gap: string)
    requires forall i :: 0 <= i < |gap| ==> IsSpace(gap[i]) && gap[i] != '\n'
    ensures StoredPid("+" + gap + PidText(pid)) == Some(pid)
  {
    var digits := Show(pid);
    var line := "+" + gap + digits;
    var text := "+" + gap + PidText(pid);
    assert text == line + "\n";
    assert forall i :: 0 <= i < |line| ==> text[i] == line[i] && line[i] != '\n' by {
      forall i | 0 <= i < |line|
        ensures text[i] == line[i] && line[i] != '\n'
      {
        if 1 <= i < 1 + |gap| {
          assert line[i] == gap[i - 1];
        } else if i >= 1 + |gap| {
          assert line[i] == digits[i - 1 - |gap|];
        }
      }
    }
    assert text[|line|] == '\n';
    assert FirstLine(text) == line;
    assert line[|line| - 1] == digits[|digits| - 1];
    assert RStrip(line) == line;
    DigitsValueShow(pid);
    ParseSignedDigits('+', gap, digits);
  }

  /** Outside safe mode such a token counts as this process's own, and `acquire` succeeds without rewriting it. */
  lemma SpacedSignOwned(l: Lock, gap: string)
    requires !l.safe
    requires forall i :: 0 <= i < |gap| ==> IsSpace(gap[i]) && gap[i] != '\n'
    ensures Acquire(l, Some("+" + gap + PidText(l.pid))) == LockStep(Some("+" + gap + PidText(l.pid)), Ok(()))
  {
    var text := "+" + gap + PidText(l.pid);
    SpacedSignNamesPid(l.pid, gap);
    StoredPidReadable(text);
    assert CheckLock(l, text, false) == Ok(());
  }

  /** Outside safe mode the holder may acquire again, and nothing changes. */
  lemma ReentryAllowed(l: Lock)
    requires !l.safe
    ensures Acquire(l, Acquire(l, None).file) == Acquire(l, None)
  {
  }

  /** An empty token is corrupt (test_lock.test_pid_exists). */
  lemma EmptyTokenCorrupt(l: Lock)
    ensures Acquire(l, Some("")) == LockStep(Some(""), Err(LockError(Corrupt)))
  {
    assert FirstLine("") == "";
  }

  /** Acquiring and then releasing restores the absent token. */
  lemma AcquireRelease(l: Lock)
    ensures Release(l, Acquire(l, None).file) == LockStep(None, Ok(()))
  {
  }

  /** After a forced release any process can acquire the lock. */
  lemma ForceReleaseFrees(l: Lock, file: Option<string>)
    ensures Acquire(l, ForceRelease(file)) == LockStep(Some(PidText(l.pid)), Ok(()))
  {
  }
}
