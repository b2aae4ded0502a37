/**
 * The verification implement (src/services/implement/verification/implement.ts;
 * src/services/discord/implement/verification/implement.ts is the same code
 * under an older name): one platform role, created on first use and stored.
 */
module VerificationImplements {
  import opened Wrappers
  import opened Platform
  import opened ImplementStore

  method GetVerificationImplementIfExists(db: GuildStorageDatabase) returns (r: Option<VerificationImplement>)
    requires db.Valid()
    modifies db
    ensures db.Valid() && db.View() == old(db.View())
    ensures r == old(db.View()).verificationImplement
  {
    r := db.GetVerificationImplement();
  }

  /** Creates exactly one role and stores its ID. */
  method CreateVerificationImplement(db: GuildStorageDatabase, p: Platform) returns (v: VerificationImplement)
    requires db.Valid() && p.Valid()
    modifies db, p
    ensures db.Valid() && p.Valid()
    ensures v == VerificationImplement(old(p.nextId)) && v.roleId !in old(p.roles)
    ensures p.roles == old(p.roles) + {v.roleId} && p.nextId == old(p.nextId) + 1
    ensures p.log == old(p.log) + [RoleCreated(v.roleId, VerificationRole)]
    ensures p.channels == old(p.channels) && p.children == old(p.children)
    ensures p.parentOf == old(p.parentOf) && p.memberRoles == old(p.memberRoles)
    ensures db.View() == old(db.View()).(verificationImplement := Some(v))
  {
    var roleId := p.CreateRole(VerificationRole);
    v := VerificationImplement(roleId);
    db.SetVerificationImplement(v);
  }

  /** The stored implement when there is one, with no platform call; otherwise a new one. */
  method GetOrCreateVerificationImplement(db: GuildStorageDatabase, p: Platform) returns (v: VerificationImplement)
    requires db.Valid() && p.Valid()
    modifies db, p
    ensures db.Valid() && p.Valid()
    ensures db.View().verificationImplement == Some(v)
    ensures db.View().majorImplements == old(db.View()).majorImplements
    ensures old(db.View()).verificationImplement.Some? ==>
      v == old(db.View()).verificationImplement.value && unchanged(p) && db.View() == old(db.View())
    ensures old(db.View()).verificationImplement.None? ==>
      && v == VerificationImplement(old(p.nextId))
      && p.roles == old(p.roles) + {v.roleId} && p.nextId == old(p.nextId) + 1
      && p.log == old(p.log) + [RoleCreated(v.roleId, VerificationRole)]
    ensures p.channels == old(p.channels) && p.children == old(p.children)
    ensures p.parentOf == old(p.parentOf) && p.memberRoles == old(p.memberRoles)
  {
    var found := GetVerificationImplementIfExists(db);
    if found.Some? {
      return found.value;
    }
    v := CreateVerificationImplement(db, p);
  }

  /**
   * Repeated calls, as every caller in both generations makes them: the
   * second returns the first one's role and creates nothing, so at most one
   * role is ever created.
   */
  method GetOrCreateTwice(db: GuildStorageDatabase, p: Platform) returns (first: VerificationImplement, second: VerificationImplement)
    requires db.Valid() && p.Valid()
    modifies db, p
    ensures db.Valid() && p.Valid()
    ensures first == second
    ensures p.log == old(p.log) || p.log == old(p.log) + [RoleCreated(first.roleId, VerificationRole)]
  {
    first := GetOrCreateVerificationImplement(db, p);
    second := GetOrCreateVerificationImplement(db, p);
  }
}
