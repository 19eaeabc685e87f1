/**
 * The Linux front end: which user `exec` runs as. The command line may give a
 * uid and a gid (each 0 to 255) and a `--root` switch; the rest comes from the
 * user the launcher itself runs as.
 */
module Linux {
  import opened Wrappers
  import opened ContikerDocker

  newtype u8 = x: int | 0 <= x < 0x100

  /**
   * The user block of `handle_exec`: start from the inferred user, let a given
   * uid and gid replace their field, and let `--root` replace the whole user.
   */
  method ResolveUser(inferred: User, uid: Option<u8>, gid: Option<u8>, root: bool) returns (user: User)
    ensures root ==> user == Root()
    ensures !root ==> user.uid == (if uid.Some? then uid.value as u32 else inferred.uid)
    ensures !root ==> user.gid == (if gid.Some? then gid.value as u32 else inferred.gid)
    ensures !root && uid.None? && gid.None? ==> user == inferred
  {
    user := inferred;
    if uid.Some? {
      user := user.(uid := uid.value as u32);
    }
    if gid.Some? {
      user := user.(gid := gid.value as u32);
    }
    if root {
      user := Root();
    }
  }
}
