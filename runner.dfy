/**
 * `SDKMethodRunner` as a stateful object: what `__init__` stores, the client
 * handles it builds lazily and memoises, and the admin gate of
 * `check_job_canceled`, which builds the status handle only once the gate passed.
 */
module Runner {
  import opened Wrappers
  import opened PyValues
  import opened Permissions
  import opened Admin
  import opened Gates
  import opened BoolParse

  /** `JOB_PERMISSION_CACHE_SIZE`: the capacity given to both caches. */
  const JobPermissionCacheSize: nat := 500
  /** `JOB_PERMISSION_CACHE_EXPIRE_TIME`: the entry lifetime of both caches, in seconds. */
  const JobPermissionCacheExpireTime: nat := 300
  const AdminReadRole: string := "EE2_ADMIN_RO"
  const AdminWriteRole: string := "EE2_ADMIN"

  /** What a client handle is and what it was built from. */
  datatype HandleKind =
    // built eagerly by `__init__`
    | CatalogUtils(catalogUrl: PyValue)
    | KBaseAuth(authServiceUrl: PyValue)
    | KafkaClient(kafkaHost: PyValue)
    | SlackClient(slackToken: PyValue, debug: Flag)
    // built lazily by the getters; the first four receive the runner itself
    | JobStatusRange(owner: MethodRunner)
    | JobLog(owner: MethodRunner)
    | RunJob(owner: MethodRunner)
    | JobsStatus(owner: MethodRunner)
    | WorkspaceAuth(token: Option<string>, userId: UserId, workspaceUrl: PyValue)
    | MongoUtil(config: Config)
    | Condor(deploymentConfigPath: string)
    | Workspace(token: Option<string>, workspaceUrl: PyValue)

  /** An opaque client object; only its identity and how it was built matter here. */
  class Handle {
    const kind: HandleKind

    constructor (kind: HandleKind)
      ensures this.kind == kind
    {
      this.kind := kind;
    }
  }

  class MethodRunner {
    const config: Config
    /** The path read from the `KB_DEPLOYMENT_CONFIG` environment variable. */
    const deploymentConfigPath: string
    const userId: UserId
    const token: Option<string>
    const adminRoles: PyValue
    const workspaceUrl: PyValue
    const authUrl: PyValue
    const debug: Flag
    const catalogUtils: Handle
    const auth: Handle
    const kafkaClient: Handle
    const slackClient: Handle

    /** The process-wide permission cache, as seen by this runner. */
    var jobPermissionCache: PermissionCache
    /** The roles cache; nothing modelled here reads it. */
    var rolesCache: map<UserId, PyValue>
    var isAdmin: bool

    // the lazily built handles, `None` until first asked for
    var ee2RunJob: Option<Handle>
    var ee2Status: Option<Handle>
    var ee2Logs: Option<Handle>
    var ee2StatusRange: Option<Handle>
    var workspaceAuth: Option<Handle>
    var mongoUtil: Option<Handle>
    var condor: Option<Handle>
    var workspace: Option<Handle>

    /** Every handle built so far was built for this runner, from its settings. */
    ghost predicate Valid()
      reads this
    {
      && (ee2StatusRange.Some? ==> ee2StatusRange.value.kind == JobStatusRange(this))
      && (ee2Logs.Some? ==> ee2Logs.value.kind == JobLog(this))
      && (ee2RunJob.Some? ==> ee2RunJob.value.kind == RunJob(this))
      && (ee2Status.Some? ==> ee2Status.value.kind == JobsStatus(this))
      && (workspaceAuth.Some? ==> workspaceAuth.value.kind == WorkspaceAuth(token, userId, workspaceUrl))
      && (mongoUtil.Some? ==> mongoUtil.value.kind == MongoUtil(config))
      && (condor.Some? ==> condor.value.kind == Condor(deploymentConfigPath))
      && (workspace.Some? ==> workspace.value.kind == Workspace(token, workspaceUrl))
    }

    /**
     * `__init__` when the `debug` setting parses: the settings are stored,
     * the eager clients built, the flags cleared and no lazy handle built yet.
     */
    constructor (config: Config, deploymentConfigPath: string, userId: UserId, token: Option<string>,
                 jobPermissionCache: PermissionCache, rolesCache: map<UserId, PyValue>)
      requires ParseBoolFromString(Get(config, "debug")).Ok?
      ensures Valid()
      ensures this.config == config && this.deploymentConfigPath == deploymentConfigPath
      ensures this.userId == userId && this.token == token
      ensures adminRoles == GetOr(config, "admin_roles", PyList([PyStr(AdminWriteRole), PyStr(AdminReadRole)]))
      ensures workspaceUrl == Get(config, "workspace-url") && authUrl == Get(config, "auth-url")
      ensures debug == ParseBoolFromString(Get(config, "debug")).value
      ensures catalogUtils.kind == CatalogUtils(Get(config, "catalog-url")) && fresh(catalogUtils)
      ensures auth.kind == KBaseAuth(Get(config, "auth-service-url")) && fresh(auth)
      ensures kafkaClient.kind == KafkaClient(Get(config, "kafka-host")) && fresh(kafkaClient)
      ensures slackClient.kind == SlackClient(Get(config, "slack-token"), debug) && fresh(slackClient)
      ensures this.jobPermissionCache == jobPermissionCache && this.rolesCache == rolesCache
      ensures !isAdmin
      ensures ee2RunJob.None? && ee2Status.None? && ee2Logs.None? && ee2StatusRange.None?
      ensures workspaceAuth.None? && mongoUtil.None? && condor.None? && workspace.None?
    {
      this.deploymentConfigPath := deploymentConfigPath;
      this.config := config;
      adminRoles := GetOr(config, "admin_roles", PyList([PyStr(AdminWriteRole), PyStr(AdminReadRole)]));
      catalogUtils := new Handle(CatalogUtils(Get(config, "catalog-url")));
      workspaceUrl := Get(config, "workspace-url");
      authUrl := Get(config, "auth-url");
      auth := new Handle(KBaseAuth(Get(config, "auth-service-url")));
      this.userId := userId;
      this.token := token;
      var parsedDebug := ParseBoolFromString(Get(config, "debug")).value;
      debug := parsedDebug;
      this.jobPermissionCache := jobPermissionCache;
      this.rolesCache := rolesCache;
      isAdmin := false;
      ee2RunJob, ee2Status, ee2Logs, ee2StatusRange := None, None, None, None;
      kafkaClient := new Handle(KafkaClient(Get(config, "kafka-host")));
      slackClient := new Handle(SlackClient(Get(config, "slack-token"), parsedDebug));
      mongoUtil, condor, workspace, workspaceAuth := None, None, None, None;
    }

    /**
     * `SDKMethodRunner(config, ...)` as callers see it: construction raises
     * when the `debug` setting does not parse (a missing one reaches the
     * parser as `None` and fails too).
     */
    static method New(config: Config, deploymentConfigPath: string, userId: UserId, token: Option<string>,
                      jobPermissionCache: PermissionCache, rolesCache: map<UserId, PyValue>)
      returns (r: Result<MethodRunner, ParseBoolError>)
      ensures ParseBoolFromString(Get(config, "debug")).Err? ==>
        r == Err(ParseBoolFromString(Get(config, "debug")).error)
      ensures ParseBoolFromString(Get(config, "debug")).Ok? ==>
        && r.Ok? && fresh(r.value) && r.value.Valid()
        && r.value.config == config && r.value.deploymentConfigPath == deploymentConfigPath
        && r.value.userId == userId && r.value.token == token
        && r.value.adminRoles == GetOr(config, "admin_roles", PyList([PyStr(AdminWriteRole), PyStr(AdminReadRole)]))
        && r.value.workspaceUrl == Get(config, "workspace-url") && r.value.authUrl == Get(config, "auth-url")
        && r.value.debug == ParseBoolFromString(Get(config, "debug")).value
        && r.value.catalogUtils.kind == CatalogUtils(Get(config, "catalog-url"))
        && r.value.auth.kind == KBaseAuth(Get(config, "auth-service-url"))
        && r.value.kafkaClient.kind == KafkaClient(Get(config, "kafka-host"))
        && r.value.slackClient.kind == SlackClient(Get(config, "slack-token"), r.value.debug)
        && r.value.jobPermissionCache == jobPermissionCache && r.value.rolesCache == rolesCache
        && !r.value.isAdmin
        && r.value.ee2RunJob.None? && r.value.ee2Status.None? && r.value.ee2Logs.None?
        && r.value.ee2StatusRange.None? && r.value.workspaceAuth.None? && r.value.mongoUtil.None?
        && r.value.condor.None? && r.value.workspace.None?
    {
      var parsed := ParseBoolFromString(Get(config, "debug"));
      if parsed.Err? {
        r := Err(parsed.error);
      } else {
        var runner := new MethodRunner(config, deploymentConfigPath, userId, token, jobPermissionCache, rolesCache);
        r := Ok(runner);
      }
    }

    /** `get_jobs_status_range`: the date-range status handle. Built on the first call, the same handle afterwards. */
    method GetJobsStatusRange() returns (h: Handle)
      requires Valid()
      modifies this`ee2StatusRange
      ensures Valid()
      ensures ee2StatusRange == Some(h) && h.kind == JobStatusRange(this)
      ensures old(ee2StatusRange).Some? ==> h == old(ee2StatusRange).value
      ensures old(ee2StatusRange).None? ==> fresh(h)
    {
      if ee2StatusRange.None? {
        var built := new Handle(JobStatusRange(this));
        ee2StatusRange := Some(built);
      }
      h := ee2StatusRange.value;
    }

    /** `get_job_logs`: the job log handle. Built on the first call, the same handle afterwards. */
    method GetJobLogs() returns (h: Handle)
      requires Valid()
      modifies this`ee2Logs
      ensures Valid()
      ensures ee2Logs == Some(h) && h.kind == JobLog(this)
      ensures old(ee2Logs).Some? ==> h == old(ee2Logs).value
      ensures old(ee2Logs).None? ==> fresh(h)
    {
      if ee2Logs.None? {
        var built := new Handle(JobLog(this));
        ee2Logs := Some(built);
      }
      h := ee2Logs.value;
    }

    /** `get_runjob`: the job submission handle. Built on the first call, the same handle afterwards. */
    method GetRunJob() returns (h: Handle)
      requires Valid()
      modifies this`ee2RunJob
      ensures Valid()
      ensures ee2RunJob == Some(h) && h.kind == RunJob(this)
      ensures old(ee2RunJob).Some? ==> h == old(ee2RunJob).value
      ensures old(ee2RunJob).None? ==> fresh(h)
    {
      if ee2RunJob.None? {
        var built := new Handle(RunJob(this));
        ee2RunJob := Some(built);
      }
      h := ee2RunJob.value;
    }

    /** `get_jobs_status`: the job status handle. Built on the first call, the same handle afterwards. */
    method GetJobsStatus() returns (h: Handle)
      requires Valid()
      modifies this`ee2Status
      ensures Valid()
      ensures ee2Status == Some(h) && h.kind == JobsStatus(this)
      ensures old(ee2Status).Some? ==> h == old(ee2Status).value
      ensures old(ee2Status).None? ==> fresh(h)
    {
      if ee2Status.None? {
        var built := new Handle(JobsStatus(this));
        ee2Status := Some(built);
      }
      h := ee2Status.value;
    }

    /** `get_workspace_auth`: the workspace authorisation client, built from the token, the user id and the workspace URL. Built on the first call, the same handle afterwards. */
    method GetWorkspaceAuth() returns (h: Handle)
      requires Valid()
      modifies this`workspaceAuth
      ensures Valid()
      ensures workspaceAuth == Some(h) && h.kind == WorkspaceAuth(token, userId, workspaceUrl)
      ensures old(workspaceAuth).Some? ==> h == old(workspaceAuth).value
      ensures old(workspaceAuth).None? ==> fresh(h)
    {
      if workspaceAuth.None? {
        var built := new Handle(WorkspaceAuth(token, userId, workspaceUrl));
        workspaceAuth := Some(built);
      }
      h := workspaceAuth.value;
    }

    /** `get_mongo_util`: the database client, built from the configuration. Built on the first call, the same handle afterwards. */
    method GetMongoUtil() returns (h: Handle)
      requires Valid()
      modifies this`mongoUtil
      ensures Valid()
      ensures mongoUtil == Some(h) && h.kind == MongoUtil(config)
      ensures old(mongoUtil).Some? ==> h == old(mongoUtil).value
      ensures old(mongoUtil).None? ==> fresh(h)
    {
      if mongoUtil.None? {
        var built := new Handle(MongoUtil(config));
        mongoUtil := Some(built);
      }
      h := mongoUtil.value;
    }

    /** `get_condor`: the scheduler client, built from the deployment configuration path. Built on the first call, the same handle afterwards. */
    method GetCondor() returns (h: Handle)
      requires Valid()
      modifies this`condor
      ensures Valid()
      ensures condor == Some(h) && h.kind == Condor(deploymentConfigPath)
      ensures old(condor).Some? ==> h == old(condor).value
      ensures old(condor).None? ==> fresh(h)
    {
      if condor.None? {
        var built := new Handle(Condor(deploymentConfigPath));
        condor := Some(built);
      }
      h := condor.value;
    }

    /** `get_workspace`: the workspace client, built from the token and the workspace URL. Built on the first call, the same handle afterwards. */
    method GetWorkspace() returns (h: Handle)
      requires Valid()
      modifies this`workspace
      ensures Valid()
      ensures workspace == Some(h) && h.kind == Workspace(token, workspaceUrl)
      ensures old(workspace).Some? ==> h == old(workspace).value
      ensures old(workspace).None? ==> fresh(h)
    {
      if workspace.None? {
        var built := new Handle(Workspace(token, workspaceUrl));
        workspace := Some(built);
      }
      h := workspace.value;
    }

    /**
     * `check_job_canceled(job_id, as_admin)`: when `as_admin is True` the
     * caller must pass the admin READ check, otherwise it raises before the
     * status handle is built or asked; then the status handle's
     * `check_job_canceled` (the parameter `checkCanceled`) answers.
     */
    method CheckJobCanceled<T>(jobId: PyValue, asAdmin: PyValue, checkCanceled: (Handle, PyValue, PyValue) -> T)
      returns (r: Result<T, CancelCheckError>)
      requires Valid()
      modifies this`ee2Status
      ensures Valid()
      ensures CancelCheckGate(jobPermissionCache, userId, asAdmin).Err? ==>
        && r == Err(CancelCheckGate(jobPermissionCache, userId, asAdmin).error)
        && ee2Status == old(ee2Status)
      ensures CancelCheckGate(jobPermissionCache, userId, asAdmin).Ok? ==>
        && ee2Status.Some? && ee2Status.value.kind == JobsStatus(this)
        && (old(ee2Status).Some? ==> ee2Status == old(ee2Status))
        && (old(ee2Status).None? ==> fresh(ee2Status.value))
        && r == Ok(checkCanceled(ee2Status.value, jobId, asAdmin))
    {
      var gate := CancelCheckGate(jobPermissionCache, userId, asAdmin);
      if gate.Err? {
        r := Err(gate.error);
        return;
      }
      var status := GetJobsStatus();
      r := Ok(checkCanceled(status, jobId, asAdmin));
    }
  }
}
