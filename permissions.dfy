/** The three job permission levels of the execution engine. */
module Permissions {
  import opened Wrappers

  /**
   * `JobPermissions`: READ ("r"), WRITE ("w") and NONE ("n").
   * The member NONE is called `NoAccess` here so that it does not clash
   * with `Option.None`.
   */
  datatype JobPermission = Read | Write | NoAccess

  /** The enum member's value, a one-letter code. */
  function Code(p: JobPermission): char
  {
    match p
    case Read => 'r'
    case Write => 'w'
    case NoAccess => 'n'
  }

  /** Enum lookup by value, `JobPermissions(c)`; an unknown code has no member. */
  function FromCode(c: char): (r: Option<JobPermission>)
    ensures r.Some? <==> c in {'r', 'w', 'n'}
    ensures r.Some? ==> Code(r.value) == c
  {
    if c == 'r' then Some(Read)
    else if c == 'w' then Some(Write)
    else if c == 'n' then Some(NoAccess)
    else None
  }

  /** Looking a member up by its own value gives the member back. */
  lemma CodeRoundTrip(p: JobPermission)
    ensures FromCode(Code(p)) == Some(p)
  {
  }

  /** The levels are ordered NONE < READ < WRITE. */
  function Rank(p: JobPermission): nat
  {
    match p
    case NoAccess => 0
    case Read => 1
    case Write => 2
  }

  /** A holder of `actual` may do what `requested` asks for when `actual` is at least as high. */
  predicate Satisfies(actual: JobPermission, requested: JobPermission)
  {
    Rank(actual) >= Rank(requested)
  }

  /** Satisfying READ means holding anything but NONE; satisfying WRITE means holding WRITE. */
  lemma SatisfiesLevels(p: JobPermission)
    ensures Satisfies(p, Read) <==> p != NoAccess
    ensures Satisfies(p, Write) <==> p == Write
    ensures Satisfies(p, NoAccess)
  {
  }
}
