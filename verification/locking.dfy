/** The per-connection lock: a .NET `Monitor` on a private object, used through
    `Monitor.TryEnter`, `Monitor.IsEntered` and `Monitor.Exit`.

    A monitor is reentrant: the owning thread may enter again, and it stays the
    owner until it has exited as many times as it entered. Exiting a monitor the
    calling thread does not own raises `SynchronizationLockException`, modelled
    as `LockExitError`. */
module Locking {
  import opened Types

  datatype MonitorState = MonitorState(owner: Option<ThreadId>, depth: nat) {
    /** A monitor has an owner exactly when it has been entered at least once. */
    predicate Valid() {
      owner.None? <==> depth == 0
    }
  }

  type Monitor = m: MonitorState | m.Valid() witness MonitorState(None, 0)

  /** The monitor nobody holds. */
  const Free: Monitor := MonitorState(None, 0)

  /** `Monitor.IsEntered`: whether thread `t` holds the monitor. */
  predicate IsEntered(m: Monitor, t: ThreadId) {
    m.owner == Some(t)
  }

  /** `Monitor.TryEnter` without a timeout: never blocks; succeeds when the
      monitor is free or already held by `t`. */
  function TryEnter(m: Monitor, t: ThreadId): (r: (bool, Monitor))
    ensures r.0 <==> m.owner.None? || m.owner == Some(t)
    ensures r.0 ==> IsEntered(r.1, t) && r.1.depth == m.depth + 1
    ensures !r.0 ==> r.1 == m
  {
    if m.owner.None? || m.owner == Some(t) then
      (true, MonitorState(Some(t), m.depth + 1))
    else
      (false, m)
  }

  /** `Monitor.Exit`: only the owner may exit; the last exit frees the monitor. */
  function Exit(m: Monitor, t: ThreadId): (r: Result<Monitor>)
    ensures r.Err? <==> !IsEntered(m, t)
    ensures r.Err? ==> r.error == LockExitError
    ensures r.Ok? ==> r.value.depth + 1 == m.depth
    ensures r.Ok? && r.value.depth > 0 ==> IsEntered(r.value, t)
    ensures r.Ok? && r.value.depth == 0 ==> r.value == Free
  {
    if m.owner != Some(t) then
      Err(LockExitError)
    else if m.depth == 1 then
      Ok(Free)
    else
      Ok(MonitorState(m.owner, m.depth - 1))
  }

  /** Thread `t` calling TryEnter `n` times in a row. */
  function EnterTimes(m: Monitor, t: ThreadId, n: nat): Monitor
    decreases n
  {
    if n == 0 then m else EnterTimes(TryEnter(m, t).1, t, n - 1)
  }

  /** Thread `t` calling Exit `n` times in a row; the first failing Exit stops it. */
  function ExitTimes(m: Monitor, t: ThreadId, n: nat): Result<Monitor>
    decreases n
  {
    if n == 0 then Ok(m)
    else match Exit(m, t)
      case Err(e) => Err(e)
      case Ok(m') => ExitTimes(m', t, n - 1)
  }

  /** A successful TryEnter means the thread now holds the monitor. */
  lemma TryEnterAcquires(m: Monitor, t: ThreadId)
    ensures TryEnter(m, t).0 ==> IsEntered(TryEnter(m, t).1, t)
    ensures m.owner.None? ==> TryEnter(m, t).0
  {
  }

  /** While one thread holds the monitor, TryEnter by any other thread fails at
      once and leaves the monitor as it was. */
  lemma TryEnterExcludesOthers(m: Monitor, holder: ThreadId, t: ThreadId)
    requires IsEntered(m, holder) && t != holder
    ensures TryEnter(m, t) == (false, m)
  {
  }

  /** From any state thread `t` holds, entering `n` more times keeps it the
      owner and raises the depth by `n`. */
  lemma {:induction false} EnterTimesDepth(m: Monitor, t: ThreadId, n: nat)
    requires m.owner.None? || IsEntered(m, t)
    ensures EnterTimes(m, t, n).depth == m.depth + n
    ensures n > 0 ==> IsEntered(EnterTimes(m, t, n), t)
    ensures n == 0 ==> EnterTimes(m, t, n) == m
    decreases n
  {
    if n > 0 {
      var m1 := TryEnter(m, t).1;
      EnterTimesDepth(m1, t, n - 1);
    }
  }

  /** Exiting `k` times from a monitor `t` holds at depth `d >= k` succeeds,
      and leaves `t` the owner at depth `d - k`, or frees the monitor when
      `k == d`. */
  lemma {:induction false} ExitTimesDepth(m: Monitor, t: ThreadId, k: nat)
    requires IsEntered(m, t) && k <= m.depth
    ensures ExitTimes(m, t, k).Ok?
    ensures ExitTimes(m, t, k).value.depth == m.depth - k
    ensures k < m.depth ==> IsEntered(ExitTimes(m, t, k).value, t)
    ensures k == m.depth ==> ExitTimes(m, t, k).value == Free
    decreases k
  {
    if k > 0 {
      var m1 := Exit(m, t).value;
      if m1.depth > 0 {
        ExitTimesDepth(m1, t, k - 1);
      }
    }
  }

  /** Reentrancy is balanced: a thread that enters a free monitor `n` times
      and exits it `n` times leaves it free, so that TryEnter by any thread
      then succeeds. One exit fewer leaves the thread still the owner. */
  lemma BalancedEnterExitFrees(t: ThreadId, n: nat, u: ThreadId)
    requires n > 0
    ensures ExitTimes(EnterTimes(Free, t, n), t, n) == Ok(Free)
    ensures ExitTimes(EnterTimes(Free, t, n), t, n - 1).Ok?
    ensures IsEntered(ExitTimes(EnterTimes(Free, t, n), t, n - 1).value, t)
    ensures TryEnter(ExitTimes(EnterTimes(Free, t, n), t, n).value, u).0
  {
    EnterTimesDepth(Free, t, n);
    ExitTimesDepth(EnterTimes(Free, t, n), t, n);
    ExitTimesDepth(EnterTimes(Free, t, n), t, n - 1);
  }
}
