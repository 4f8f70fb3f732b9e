/**
 * The administrator check `get_admin_permission`: the caller's level is read
 * from the job permission cache under the caller's user id and compared with
 * the requested level.
 */
module Admin {
  import opened Wrappers
  import opened Permissions

  /** A user id as `SDKMethodRunner` holds it: a string, or `None` when none was given. */
  type UserId = Option<string>

  /** The cache contents as seen at the moment of the check. */
  type PermissionCache = map<UserId, JobPermission>

  datatype AdminError =
    /** The user is not in the cache, so the local `permission` is never bound
        and reading it raises before any comparison. */
    | PermissionUnbound
    /** The requested level is neither READ nor WRITE. */
    | ProgrammingError

  /**
   * `get_admin_permission(requested_permission)`. The level is bound only when
   * the user is cached, and the bound level is read only inside the READ and
   * WRITE branches, so a NONE request raises without comparing it.
   */
  function GetAdminPermission(cache: PermissionCache, userId: UserId, requested: JobPermission)
    : (r: Result<bool, AdminError>)
    ensures requested == NoAccess ==> r == Err(ProgrammingError)
    ensures requested != NoAccess && userId !in cache ==> r == Err(PermissionUnbound)
    ensures requested != NoAccess && userId in cache ==> r == Ok(Satisfies(cache[userId], requested))
  {
    var permission := if userId in cache then Some(cache[userId]) else None;
    match requested
    case Read =>
      if permission.None? then Err(PermissionUnbound)
      else Ok(permission.value in [Read, Write])
    case Write =>
      if permission.None? then Err(PermissionUnbound)
      else Ok(permission.value in [Write])
    case NoAccess =>
      Err(ProgrammingError)
  }

  /** The admin check answers True exactly when the caller's cached level satisfies the request. */
  predicate Granted(cache: PermissionCache, userId: UserId, requested: JobPermission)
  {
    GetAdminPermission(cache, userId, requested) == Ok(true)
  }

  /**
   * The role hierarchy: a WRITE holder passes both checks, a READ holder
   * passes READ and fails WRITE, a NONE holder fails both; a granted WRITE
   * always implies a granted READ.
   */
  lemma AdminHierarchy(cache: PermissionCache, userId: UserId)
    ensures userId in cache && cache[userId] == Write ==>
      Granted(cache, userId, Read) && Granted(cache, userId, Write)
    ensures userId in cache && cache[userId] == Read ==>
      Granted(cache, userId, Read) && GetAdminPermission(cache, userId, Write) == Ok(false)
    ensures userId in cache && cache[userId] == NoAccess ==>
      GetAdminPermission(cache, userId, Read) == Ok(false) &&
      GetAdminPermission(cache, userId, Write) == Ok(false)
    ensures Granted(cache, userId, Write) ==> Granted(cache, userId, Read)
  {
  }

  /**
   * The check never answers for an uncached user: every request either raises
   * `PermissionUnbound` (READ, WRITE) or `ProgrammingError` (NONE).
   */
  lemma UncachedNeverAnswers(cache: PermissionCache, userId: UserId, requested: JobPermission)
    requires userId !in cache
    ensures GetAdminPermission(cache, userId, requested).Err?
  {
  }

  /** The answer depends on the cache only through the caller's own entry. */
  lemma OnlyOwnEntryMatters(cache: PermissionCache, cache': PermissionCache, userId: UserId, requested: JobPermission)
    requires userId in cache <==> userId in cache'
    requires userId in cache ==> cache[userId] == cache'[userId]
    ensures GetAdminPermission(cache, userId, requested) == GetAdminPermission(cache', userId, requested)
  {
  }
}
