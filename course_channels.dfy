/**
 * Course channels (src/services/implement/course/channel.ts): the options a
 * course's chat or voice channel is created with, and its permission
 * overwrites, with Discord's overwrite evaluation to say what they grant.
 */
module CourseChannels {
  import opened Wrappers
  import opened Platform
  import opened Courses

  /** The guild configuration the overwrites refer to. */
  datatype ChannelConfig = ChannelConfig(everyoneRoleId: Id, moderatorRoleId: Id, committeeRoleId: Option<Id>)

  /** A JavaScript string is truthy when it is present and non-empty. */
  predicate Truthy(s: Option<string>) {
    s.Some? && s.value != ""
  }

  const TOPIC_MARKER: string := ":information_source: "

  /** The chat topic announces the title when there is one; voice channels have no topic. */
  function Topic(kind: ChannelType, course: Course): (r: Option<string>)
    ensures r.None? <==> kind == Voice
    ensures kind == Chat && Truthy(course.title) ==>
      |r.value| == |TOPIC_MARKER| + |course.title.value| &&
      r.value[..|TOPIC_MARKER|] == TOPIC_MARKER && r.value[|TOPIC_MARKER|..] == course.title.value
    ensures kind == Chat && !Truthy(course.title) ==> r == Some("")
  {
    match kind
    case Chat => if Truthy(course.title) then Some(TOPIC_MARKER + course.title.value) else Some("")
    case Voice => None
  }

  function DiscordChannelType(kind: ChannelType): string {
    match kind
    case Chat => "text"
    case Voice => "voice"
  }

  /**
   * `generateChannelPermissionsByType`: @everyone, the main role, the TA
   * role and the moderator role, then the committee role when one is
   * configured.
   */
  function GenerateChannelPermissionsByType(cfg: ChannelConfig, kind: ChannelType, mainRoleId: Id, taRoleId: Id)
    : (r: seq<Overwrite>)
    ensures |r| == if cfg.committeeRoleId.Some? then 5 else 4
    ensures r[0].roleId == cfg.everyoneRoleId && r[1].roleId == mainRoleId
    ensures r[2].roleId == taRoleId && r[3].roleId == cfg.moderatorRoleId
    ensures cfg.committeeRoleId.Some? ==> r[4].roleId == cfg.committeeRoleId.value
    ensures forall i | 1 <= i < |r| :: r[i].deny == {} && ViewChannel in r[i].allow
  {
    var base := match kind
      case Chat => [
        Overwrite(cfg.everyoneRoleId, {}, {ViewChannel, CreateInstantInvite}),
        Overwrite(mainRoleId, {ViewChannel}, {}),
        Overwrite(taRoleId, {ViewChannel, ManageMessages}, {}),
        Overwrite(cfg.moderatorRoleId, {ViewChannel}, {})]
      case Voice => [
        Overwrite(cfg.everyoneRoleId, {Speak, Stream}, {ViewChannel}),
        Overwrite(mainRoleId, {ViewChannel}, {}),
        Overwrite(taRoleId, {ViewChannel, MuteMembers, DeafenMembers, PrioritySpeaker}, {}),
        Overwrite(cfg.moderatorRoleId, {ViewChannel}, {})];
    match cfg.committeeRoleId
    case None => base
    case Some(committee) =>
      base + [Overwrite(committee, match kind case Chat => {ViewChannel} case Voice => {ViewChannel, Speak, Stream}, {})]
  }

  /** The options `createChannelByType` passes: type, topic, position 0 and the overwrites. */
  function ChannelOptionsFor(cfg: ChannelConfig, kind: ChannelType, course: Course, mainRoleId: Id, taRoleId: Id)
    : (r: ChannelOptions)
    ensures r.position == 0 && r.topic == Topic(kind, course)
    ensures r.discordType == (if kind == Chat then "text" else "voice")
    ensures r.overwrites == GenerateChannelPermissionsByType(cfg, kind, mainRoleId, taRoleId)
  {
    ChannelOptions(DiscordChannelType(kind), Topic(kind, course), 0,
      GenerateChannelPermissionsByType(cfg, kind, mainRoleId, taRoleId))
  }

  /** The union of the allows, or of the denies, of the overwrites of `roles` other than @everyone. */
  function RoleGrants(ows: seq<Overwrite>, roles: set<Id>, everyone: Id, allows: bool): set<Permission> {
    if ows == [] then {}
    else
      (if ows[0].roleId in roles && ows[0].roleId != everyone
       then (if allows then ows[0].allow else ows[0].deny) else {})
      + RoleGrants(ows[1..], roles, everyone, allows)
  }

  function EveryoneGrants(ows: seq<Overwrite>, everyone: Id, allows: bool): set<Permission> {
    if ows == [] then {}
    else
      (if ows[0].roleId == everyone then (if allows then ows[0].allow else ows[0].deny) else {})
      + EveryoneGrants(ows[1..], everyone, allows)
  }

  /**
   * A member's permissions in a channel, as Discord applies overwrites:
   * the member's guild-wide permissions `base`, then the @everyone deny and
   * allow, then the denies and allows of the member's roles.  Discord's
   * further rule, that a member without `ViewChannel` can use none of the
   * channel's permissions, is not applied here.
   */
  function Effective(ows: seq<Overwrite>, everyone: Id, roles: set<Id>, base: set<Permission>): set<Permission> {
    (((base - EveryoneGrants(ows, everyone, false)) + EveryoneGrants(ows, everyone, true))
      - RoleGrants(ows, roles, everyone, false))
    + RoleGrants(ows, roles, everyone, true)
  }

  /** The configured role IDs differ from the @everyone role. */
  predicate Distinct(cfg: ChannelConfig, mainRoleId: Id, taRoleId: Id) {
    && mainRoleId != cfg.everyoneRoleId && taRoleId != cfg.everyoneRoleId
    && cfg.moderatorRoleId != cfg.everyoneRoleId
    && (cfg.committeeRoleId.Some? ==> cfg.committeeRoleId.value != cfg.everyoneRoleId)
  }

  predicate HoldsCourseOrStaffRole(cfg: ChannelConfig, mainRoleId: Id, taRoleId: Id, roles: set<Id>) {
    mainRoleId in roles || taRoleId in roles || cfg.moderatorRoleId in roles
    || (cfg.committeeRoleId.Some? && cfg.committeeRoleId.value in roles)
  }

  lemma {:induction false} GrantsOfList(cfg: ChannelConfig, kind: ChannelType, mainRoleId: Id, taRoleId: Id, roles: set<Id>)
    requires Distinct(cfg, mainRoleId, taRoleId)
    ensures var ows := GenerateChannelPermissionsByType(cfg, kind, mainRoleId, taRoleId);
      && RoleGrants(ows, roles, cfg.everyoneRoleId, false) == {}
      && EveryoneGrants(ows, cfg.everyoneRoleId, false) == ows[0].deny
      && EveryoneGrants(ows, cfg.everyoneRoleId, true) == ows[0].allow
      && RoleGrants(ows, roles, cfg.everyoneRoleId, true) ==
           (set i, p | 1 <= i < |ows| && ows[i].roleId in roles && p in ows[i].allow :: p)
  {
    var ows := GenerateChannelPermissionsByType(cfg, kind, mainRoleId, taRoleId);
    var e := cfg.everyoneRoleId;
    TailGrants(ows, 1, roles, e);
    assert ows == [ows[0]] + ows[1..];
  }

  lemma {:induction false} TailGrants(ows: seq<Overwrite>, from: nat, roles: set<Id>, everyone: Id)
    requires 0 < from <= |ows|
    requires forall i | 1 <= i < |ows| :: ows[i].roleId != everyone && ows[i].deny == {}
    ensures RoleGrants(ows[from..], roles, everyone, false) == {}
    ensures EveryoneGrants(ows[from..], everyone, false) == {} && EveryoneGrants(ows[from..], everyone, true) == {}
    ensures RoleGrants(ows[from..], roles, everyone, true) ==
      (set i, p | from <= i < |ows| && ows[i].roleId in roles && p in ows[i].allow :: p)
    decreases |ows| - from
  {
    if from == |ows| {
      assert ows[from..] == [];
    } else {
      TailGrants(ows, from + 1, roles, everyone);
      assert ows[from..][1..] == ows[from + 1..];
      var tail := set i, p | from + 1 <= i < |ows| && ows[i].roleId in roles && p in ows[i].allow :: p;
      var here := if ows[from].roleId in roles then ows[from].allow else {};
      assert (set i, p | from <= i < |ows| && ows[i].roleId in roles && p in ows[i].allow :: p) == here + tail;
    }
  }

  /**
   * Exactly the holders of the course's main or TA role and the moderator
   * and committee roles can see a course channel, of either kind.
   */
  lemma {:induction false} OnlyCourseMembersAndStaffView(cfg: ChannelConfig, kind: ChannelType, mainRoleId: Id, taRoleId: Id,
    roles: set<Id>, base: set<Permission>)
    requires Distinct(cfg, mainRoleId, taRoleId)
    ensures ViewChannel in Effective(GenerateChannelPermissionsByType(cfg, kind, mainRoleId, taRoleId), cfg.everyoneRoleId, roles, base)
      <==> HoldsCourseOrStaffRole(cfg, mainRoleId, taRoleId, roles)
  {
    var ows := GenerateChannelPermissionsByType(cfg, kind, mainRoleId, taRoleId);
    GrantsOfList(cfg, kind, mainRoleId, taRoleId, roles);
    if HoldsCourseOrStaffRole(cfg, mainRoleId, taRoleId, roles) {
      if mainRoleId in roles { assert ViewChannel in ows[1].allow; }
      else if taRoleId in roles { assert ViewChannel in ows[2].allow; }
      else if cfg.moderatorRoleId in roles { assert ViewChannel in ows[3].allow; }
      else { assert ViewChannel in ows[4].allow; }
    }
  }

  /** Nobody may create invites to a chat channel. */
  lemma {:induction false} NoInvitesToChat(cfg: ChannelConfig, mainRoleId: Id, taRoleId: Id, roles: set<Id>, base: set<Permission>)
    requires Distinct(cfg, mainRoleId, taRoleId)
    ensures CreateInstantInvite !in Effective(GenerateChannelPermissionsByType(cfg, Chat, mainRoleId, taRoleId), cfg.everyoneRoleId, roles, base)
  {
    GrantsOfList(cfg, Chat, mainRoleId, taRoleId, roles);
  }

  /** In a chat channel only the TA role adds message management. */
  lemma {:induction false} ChatModerationIsTAOnly(cfg: ChannelConfig, mainRoleId: Id, taRoleId: Id, roles: set<Id>, base: set<Permission>)
    requires Distinct(cfg, mainRoleId, taRoleId)
    ensures ManageMessages in Effective(GenerateChannelPermissionsByType(cfg, Chat, mainRoleId, taRoleId), cfg.everyoneRoleId, roles, base)
      <==> ManageMessages in base || taRoleId in roles
  {
    var ows := GenerateChannelPermissionsByType(cfg, Chat, mainRoleId, taRoleId);
    GrantsOfList(cfg, Chat, mainRoleId, taRoleId, roles);
    if taRoleId in roles { assert ManageMessages in ows[2].allow; }
  }

  /**
   * In a voice channel the overwrites resolve `Speak` and `Stream` for every
   * member (usable only by those who may view it, see
   * `OnlyCourseMembersAndStaffView`), and only the TA role adds voice
   * moderation.
   */
  lemma {:induction false} VoiceRights(cfg: ChannelConfig, mainRoleId: Id, taRoleId: Id, roles: set<Id>, base: set<Permission>, p: Permission)
    requires Distinct(cfg, mainRoleId, taRoleId)
    ensures var eff := Effective(GenerateChannelPermissionsByType(cfg, Voice, mainRoleId, taRoleId), cfg.everyoneRoleId, roles, base);
      && Speak in eff && Stream in eff
      && (p in {MuteMembers, DeafenMembers, PrioritySpeaker} ==> (p in eff <==> p in base || taRoleId in roles))
  {
    var ows := GenerateChannelPermissionsByType(cfg, Voice, mainRoleId, taRoleId);
    GrantsOfList(cfg, Voice, mainRoleId, taRoleId, roles);
    if taRoleId in roles { assert p in {MuteMembers, DeafenMembers, PrioritySpeaker} ==> p in ows[2].allow; }
  }

  /** `createChannelByType`: a channel under the given category at position 0. */
  method CreateChannelByType(p: Platform, cfg: ChannelConfig, kind: ChannelType, course: Course,
    categoryId: Id, mainRoleId: Id, taRoleId: Id) returns (id: Id)
    requires p.Valid()
    modifies p
    ensures p.Valid()
    ensures id == old(p.nextId) && p.nextId == id + 1 && p.channels == old(p.channels) + {id}
    ensures p.log == old(p.log) + [ChannelCreated(id, kind, Key(course), Some(categoryId),
      Some(ChannelOptionsFor(cfg, kind, course, mainRoleId, taRoleId)))]
    ensures categoryId in old(p.children) ==>
      p.children == old(p.children)[categoryId := old(p.children)[categoryId] + 1] &&
      p.parentOf == old(p.parentOf)[id := categoryId]
    ensures categoryId !in old(p.children) ==> p.children == old(p.children) && p.parentOf == old(p.parentOf)
    ensures p.roles == old(p.roles) && p.memberRoles == old(p.memberRoles)
  {
    id := p.CreateChannel(kind, Key(course), Some(categoryId), Some(ChannelOptionsFor(cfg, kind, course, mainRoleId, taRoleId)));
  }

  /** `resetChannelPermissionsByType` writes the same overwrites creation uses. */
  method ResetChannelPermissionsByType(p: Platform, cfg: ChannelConfig, kind: ChannelType, mainRoleId: Id, taRoleId: Id, channel: Id)
    modifies p
    ensures p.log == old(p.log) + [PermissionsOverwritten(channel, GenerateChannelPermissionsByType(cfg, kind, mainRoleId, taRoleId))]
    ensures p.roles == old(p.roles) && p.channels == old(p.channels) && p.children == old(p.children)
    ensures p.parentOf == old(p.parentOf) && p.nextId == old(p.nextId) && p.memberRoles == old(p.memberRoles)
  {
    p.OverwritePermissions(channel, GenerateChannelPermissionsByType(cfg, kind, mainRoleId, taRoleId));
  }
}
