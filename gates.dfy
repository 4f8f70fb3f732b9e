/**
 * The permission gates placed in front of job operations: the decorators
 * `allow_job_read` / `allow_job_write`, and the admin gate at the start of
 * `check_job_canceled`.
 */
module Gates {
  import opened Wrappers
  import opened PyValues
  import opened Permissions
  import opened Admin

  /** The keyword arguments of a decorated call. */
  type Kwargs = map<string, PyValue>

  /** One call of the permission test on a job for a level. */
  datatype PermissionTest = PermissionTest(jobId: PyValue, level: JobPermission)

  datatype GateError =
    /** `ValueError("Please provide valid job_id")`. */
    | MissingJobId
    /** The permission test raised for this job and level. */
    | PermissionDenied(jobId: PyValue, level: JobPermission)

  /** What a decorated call did: its outcome and the permission tests it ran, in order. */
  datatype GateRun<T> = GateRun(outcome: Result<T, GateError>, tests: seq<PermissionTest>)

  /**
   * The decorator body shared by `allow_job_read` and `allow_job_write`.
   * `job_id` is looked up among the keyword arguments only; `testPasses(j, l)`
   * stands for `_test_job_permission_with_cache(j, l)` finishing without
   * raising (its return value is discarded); `func` is the wrapped operation.
   */
  function AllowJob<T>(level: JobPermission, kwargs: Kwargs,
                       testPasses: (PyValue, JobPermission) -> bool,
                       func: Kwargs -> T): (run: GateRun<T>)
    // a missing or None job_id is rejected before any permission test
    ensures Get(kwargs, "job_id") == PyNone ==> run == GateRun(Err(MissingJobId), [])
    // otherwise exactly one test, on that job and the gate's level, is run
    ensures Get(kwargs, "job_id") != PyNone ==>
      run.tests == [PermissionTest(kwargs["job_id"], level)]
    // the wrapped operation runs, on the unchanged arguments, only after a passing test
    ensures run.outcome.Ok? <==>
      exists t :: t in run.tests && t.level == level && testPasses(t.jobId, t.level)
    ensures run.outcome.Ok? ==> run.outcome.value == func(kwargs)
    ensures run.outcome.Err? && Get(kwargs, "job_id") != PyNone ==>
      run.outcome.error == PermissionDenied(kwargs["job_id"], level)
  {
    var jobId := Get(kwargs, "job_id");
    if jobId == PyNone then
      GateRun(Err(MissingJobId), [])
    else
      var test := PermissionTest(jobId, level);
      if testPasses(jobId, level) then GateRun(Ok(func(kwargs)), [test])
      else GateRun(Err(PermissionDenied(jobId, level)), [test])
  }

  /** `allow_job_read`: the gate for READ. */
  function AllowJobRead<T>(kwargs: Kwargs, testPasses: (PyValue, JobPermission) -> bool,
                           func: Kwargs -> T): (run: GateRun<T>)
    ensures forall t :: t in run.tests ==> t.level == Read
    ensures run.outcome.Ok? <==> Get(kwargs, "job_id") != PyNone && testPasses(kwargs["job_id"], Read)
  {
    AllowJob(Read, kwargs, testPasses, func)
  }

  /** `allow_job_write`: the gate for WRITE. */
  function AllowJobWrite<T>(kwargs: Kwargs, testPasses: (PyValue, JobPermission) -> bool,
                            func: Kwargs -> T): (run: GateRun<T>)
    ensures forall t :: t in run.tests ==> t.level == Write
    ensures run.outcome.Ok? <==> Get(kwargs, "job_id") != PyNone && testPasses(kwargs["job_id"], Write)
  {
    AllowJob(Write, kwargs, testPasses, func)
  }

  /**
   * When the permission test respects the level order (whoever may write a
   * job may read it), a call the write gate lets through is also let through
   * by the read gate, with the same result.
   */
  lemma WriteGateImpliesReadGate<T>(kwargs: Kwargs, testPasses: (PyValue, JobPermission) -> bool,
                                    func: Kwargs -> T)
    requires forall j :: testPasses(j, Write) ==> testPasses(j, Read)
    requires AllowJobWrite(kwargs, testPasses, func).outcome.Ok?
    ensures AllowJobRead(kwargs, testPasses, func).outcome == AllowJobWrite(kwargs, testPasses, func).outcome
  {
  }

  datatype CancelCheckError =
    /** "You are not permitted to cancel this job. Required permission=READ". */
    | NotPermittedToCancel(required: JobPermission)
    /** The admin check itself raised. */
    | AdminCheckRaised(cause: AdminError)

  /**
   * The admin gate at the start of `check_job_canceled`. Only the value
   * `True` itself (`as_admin is True`) triggers the check, and the level
   * asked for is READ even though the operation concerns cancellation.
   */
  function CancelCheckGate(cache: PermissionCache, userId: UserId, asAdmin: PyValue)
    : (r: Result<(), CancelCheckError>)
    ensures asAdmin != PyBool(true) ==> r.Ok?
    ensures asAdmin == PyBool(true) ==>
      (r.Ok? <==> userId in cache && cache[userId] != NoAccess)
    ensures asAdmin == PyBool(true) && userId !in cache ==>
      r == Err(AdminCheckRaised(PermissionUnbound))
    ensures asAdmin == PyBool(true) && userId in cache && cache[userId] == NoAccess ==>
      r == Err(NotPermittedToCancel(Read))
  {
    if asAdmin == PyBool(true) then
      match GetAdminPermission(cache, userId, Read)
      case Err(e) => Err(AdminCheckRaised(e))
      case Ok(granted) =>
        if !granted then Err(NotPermittedToCancel(Read)) else Ok(())
    else
      Ok(())
  }

  /**
   * The asymmetry: a read-only administrator passes the admin gate of the
   * cancellation check although the same administrator fails an admin WRITE check.
   */
  lemma ReadOnlyAdminPassesCancelCheck(cache: PermissionCache, userId: UserId)
    requires userId in cache && cache[userId] == Read
    ensures CancelCheckGate(cache, userId, PyBool(true)).Ok?
    ensures GetAdminPermission(cache, userId, Write) == Ok(false)
  {
  }

  /** A truthy `as_admin` other than `True` (1, "true", ...) skips the admin check and ignores the cache. */
  lemma NonTrueAsAdminIgnoresCache(cache: PermissionCache, cache': PermissionCache, userId: UserId, asAdmin: PyValue)
    requires asAdmin != PyBool(true)
    ensures CancelCheckGate(cache, userId, asAdmin) == CancelCheckGate(cache', userId, asAdmin) == Ok(())
  {
  }
}
