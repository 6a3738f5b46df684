/** The object permission on tools: anyone may read, only the shop's owner may write. */
module ToolPermissions {
  import opened Wrappers
  import Tools

  datatype HttpMethod = Get | Head | Options | Post | Put | Patch | Delete

  /** The read-only methods. */
  predicate IsSafe(m: HttpMethod)
  {
    m == Get || m == Head || m == Options
  }

  /**
   * `IsToolOwnerOrReadOnly.has_object_permission`. `caller` is the
   * requesting user's id, `None` for an anonymous request, which owns
   * nothing.
   */
  predicate HasObjectPermission(m: HttpMethod, caller: Option<nat>, t: Tools.Tool)
  {
    if IsSafe(m) then true else caller == Some(t.shop.owner)
  }

  /**
   * Safe methods are always permitted; a write is permitted exactly to the
   * owner of the tool's shop; the owner may use every method.
   */
  lemma ObjectPermissionSpec(m: HttpMethod, caller: Option<nat>, t: Tools.Tool)
    ensures IsSafe(m) ==> HasObjectPermission(m, caller, t)
    ensures !IsSafe(m) ==> (HasObjectPermission(m, caller, t) <==> caller == Some(t.shop.owner))
    ensures HasObjectPermission(m, Some(t.shop.owner), t)
    ensures caller != Some(t.shop.owner) ==> (HasObjectPermission(m, caller, t) <==> m in {Get, Head, Options})
  {
  }
}
