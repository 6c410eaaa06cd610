/** The role guard of protected routes (src/guard/role/roles.guard.ts). */
module RolesGuard {
  import opened Common
  import opened Entities

  /** The test `find` applies to each profile. */
  predicate Admits(roles: seq<Role>, p: Profile)
  {
    p.role in roles || Maker in roles
  }

  /** `profiles.find(...)`: the first profile the required roles admit. */
  function FindProfile(profiles: seq<Profile>, roles: seq<Role>): (r: Option<Profile>)
    ensures r.None? <==> forall p :: p in profiles ==> !Admits(roles, p)
    ensures r.Some? ==> r.value in profiles && Admits(roles, r.value)
  {
    if profiles == [] then None
    else if Admits(roles, profiles[0]) then Some(profiles[0])
    else
      assert profiles == [profiles[0]] + profiles[1..];
      FindProfile(profiles[1..], roles)
  }

  /**
   * `canActivate`, given the roles the handler requires and the profiles
   * of the request's user (None when there is no user or the relation is
   * absent).
   */
  function CanActivate(roles: seq<Role>, profiles: Option<seq<Profile>>): (r: bool)
    ensures r <==> |roles| == 0 || (profiles.Some? && exists p :: p in profiles.value && Admits(roles, p))
  {
    if |roles| == 0 then true
    else if profiles.None? || |profiles.value| == 0 then false
    else FindProfile(profiles.value, roles).Some?
  }

  /**
   * The decision in plain terms: no required role lets everyone in; else
   * a user needs at least one profile, and then is let in when MAKER is
   * required or one of the profiles has a required role.
   */
  lemma CanActivateSpec(roles: seq<Role>, profiles: Option<seq<Profile>>)
    ensures |roles| == 0 ==> CanActivate(roles, profiles)
    ensures |roles| > 0 && (profiles.None? || |profiles.value| == 0) ==> !CanActivate(roles, profiles)
    ensures |roles| > 0 && profiles.Some? && |profiles.value| > 0 ==>
      (CanActivate(roles, profiles) <==> Maker in roles || exists p :: p in profiles.value && p.role in roles)
  {
    if |roles| > 0 && profiles.Some? && |profiles.value| > 0 && Maker in roles {
      assert Admits(roles, profiles.value[0]);
    }
  }

  /** Requiring one more role never turns an admitted request away, once some role is required. */
  lemma MoreRolesAdmitMore(roles: seq<Role>, extra: Role, profiles: Option<seq<Profile>>)
    requires |roles| > 0 && CanActivate(roles, profiles)
    ensures CanActivate(roles + [extra], profiles)
  {
    var p := FindProfile(profiles.value, roles).value;
    assert Admits(roles + [extra], p);
  }
}
