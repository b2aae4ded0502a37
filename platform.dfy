/**
 * The chat platform (one Discord guild) as the core sees it: live role and
 * channel IDs, how many channels each category holds, the roles of each
 * member, a source of fresh IDs, and the log of mutating calls made.
 */
module Platform {
  import opened Wrappers

  /** A platform snowflake, modelled as a number drawn from a counter. */
  type Id = nat

  /** A member / user ID as the source stores it. */
  type UserId = string

  /** `CourseImplementChannelType`. */
  datatype ChannelType = Chat | Voice

  datatype Permission =
    | ViewChannel | CreateInstantInvite | ManageMessages
    | Speak | Stream | MuteMembers | DeafenMembers | PrioritySpeaker

  /** One role permission overwrite of a channel. */
  datatype Overwrite = Overwrite(roleId: Id, allow: set<Permission>, deny: set<Permission>)

  /** The options passed when a course channel is created by `createChannelByType`. */
  datatype ChannelOptions = ChannelOptions(
    discordType: string, topic: Option<string>, position: int, overwrites: seq<Overwrite>)

  /** What a created role or category is for. */
  datatype RolePurpose = VerificationRole | CourseMainRole(key: string) | CourseTARole(key: string) | LegacyCourseRole(key: string)
  datatype CategoryPurpose = MajorCategory(prefix: string) | MajorTextCategory(prefix: string) | MajorVoiceCategory(prefix: string)

  /** The mutating calls the core makes, in the order it makes them. */
  datatype Call =
    | RoleCreated(id: Id, purpose: RolePurpose)
    | CategoryCreated(id: Id, category: CategoryPurpose)
    | ChannelCreated(id: Id, kind: ChannelType, courseKey: string, parent: Option<Id>, options: Option<ChannelOptions>)
    | ChannelDeleted(id: Id)
    | RoleDeleted(id: Id)
    | RolesAdded(member: UserId, roleIds: seq<Id>)
    | RolesRemoved(member: UserId, roleIds: seq<Id>)
    | Paused
    | PermissionsOverwritten(channel: Id, overwrites: seq<Overwrite>)

  /** A call that only creates a role, a category or a channel. */
  predicate CreationCall(c: Call) {
    c.RoleCreated? || c.CategoryCreated? || c.ChannelCreated?
  }

  /**
   * Between two states, roles were only deleted, and a member lost exactly
   * the roles that were deleted.
   */
  ghost predicate OnlyDeletedRolesStripped(roles0: set<Id>, members0: map<UserId, set<Id>>,
    roles1: set<Id>, members1: map<UserId, set<Id>>)
  {
    roles1 <= roles0 &&
    forall m :: Platform.MemberRoles(members1, m) == Platform.MemberRoles(members0, m) - (roles0 - roles1)
  }

  class Platform {
    var roles: set<Id>
    var channels: set<Id>
    var children: map<Id, nat>
    var parentOf: map<Id, Id>
    var memberRoles: map<UserId, set<Id>>
    var nextId: Id
    var log: seq<Call>

    /** Every live ID was handed out by the counter; categories and parented channels are live. */
    ghost predicate Valid()
      reads this
    {
      && (forall r | r in roles :: r < nextId)
      && (forall c | c in channels :: c < nextId)
      && children.Keys <= channels
      && parentOf.Keys <= channels
    }

    constructor ()
      ensures Valid()
      ensures roles == {} && channels == {} && children == map[] && parentOf == map[]
      ensures memberRoles == map[] && log == []
    {
      roles, channels, children, parentOf, memberRoles := {}, {}, map[], map[], map[];
      nextId, log := 0, [];
    }

    /** The number of channels in `category`, or `None` if it does not resolve. */
    function ChildCount(category: Id): Option<nat>
      reads this
    {
      if category in children then Some(children[category]) else None
    }

    method CreateRole(purpose: RolePurpose) returns (id: Id)
      requires Valid()
      modifies this
      ensures Valid()
      ensures id == old(nextId) && id !in old(roles) && id !in old(channels) && nextId == id + 1
      ensures roles == old(roles) + {id} && log == old(log) + [RoleCreated(id, purpose)]
      ensures channels == old(channels) && children == old(children)
      ensures parentOf == old(parentOf) && memberRoles == old(memberRoles)
    {
      id := nextId;
      nextId := nextId + 1;
      roles := roles + {id};
      log := log + [RoleCreated(id, purpose)];
    }

    method CreateCategory(category: CategoryPurpose) returns (id: Id)
      requires Valid()
      modifies this
      ensures Valid()
      ensures id == old(nextId) && id !in old(roles) && id !in old(channels) && nextId == id + 1
      ensures channels == old(channels) + {id} && children == old(children)[id := 0]
      ensures log == old(log) + [CategoryCreated(id, category)]
      ensures roles == old(roles) && parentOf == old(parentOf) && memberRoles == old(memberRoles)
    {
      id := nextId;
      nextId := nextId + 1;
      channels := channels + {id};
      children := children[id := 0];
      log := log + [CategoryCreated(id, category)];
    }

    /** Creates a channel; a parent that resolves to a category gains one child. */
    method CreateChannel(kind: ChannelType, courseKey: string, parent: Option<Id>, options: Option<ChannelOptions>)
      returns (id: Id)
      requires Valid()
      modifies this
      ensures Valid()
      ensures id == old(nextId) && id !in old(roles) && id !in old(channels) && nextId == id + 1
      ensures channels == old(channels) + {id}
      ensures parent.Some? && parent.value in old(children) ==>
        children == old(children)[parent.value := old(children)[parent.value] + 1] &&
        parentOf == old(parentOf)[id := parent.value]
      ensures !(parent.Some? && parent.value in old(children)) ==>
        children == old(children) && parentOf == old(parentOf)
      ensures log == old(log) + [ChannelCreated(id, kind, courseKey, parent, options)]
      ensures roles == old(roles) && memberRoles == old(memberRoles)
    {
      id := nextId;
      nextId := nextId + 1;
      channels := channels + {id};
      if parent.Some? && parent.value in children {
        children := children[parent.value := children[parent.value] + 1];
        parentOf := parentOf[id := parent.value];
      }
      log := log + [ChannelCreated(id, kind, courseKey, parent, options)];
    }

    /**
     * `guild.channels.resolve(id).delete()`: `ok` is false, and nothing
     * changes, when the ID does not resolve (the source then throws).
     */
    method DeleteChannel(id: Id) returns (ok: bool)
      requires Valid()
      modifies this
      ensures Valid()
      ensures ok == (id in old(channels))
      ensures !ok ==> unchanged(this)
      ensures ok ==> channels == old(channels) - {id} && log == old(log) + [ChannelDeleted(id)]
      ensures ok ==> parentOf == old(parentOf) - {id}
      ensures ok ==> children == Detach(old(children), old(parentOf), id) - {id}
      ensures roles == old(roles) && nextId == old(nextId) && memberRoles == old(memberRoles)
      ensures OnlyDeletedRolesStripped(old(roles), old(memberRoles), roles, memberRoles)
    {
      ok := id in channels;
      if ok {
        children := Detach(children, parentOf, id) - {id};
        parentOf := parentOf - {id};
        channels := channels - {id};
        log := log + [ChannelDeleted(id)];
      }
    }

    /** The child counts once channel `id` has left its category. */
    static function Detach(children: map<Id, nat>, parentOf: map<Id, Id>, id: Id): (r: map<Id, nat>)
      ensures r.Keys == children.Keys
    {
      if id in parentOf && parentOf[id] in children && children[parentOf[id]] > 0
      then children[parentOf[id] := children[parentOf[id]] - 1]
      else children
    }

    /** `guild.roles.resolve(id).delete()`, failing like `DeleteChannel`. */
    method DeleteRole(id: Id) returns (ok: bool)
      requires Valid()
      modifies this
      ensures Valid()
      ensures ok == (id in old(roles))
      ensures !ok ==> unchanged(this)
      ensures ok ==> roles == old(roles) - {id} && log == old(log) + [RoleDeleted(id)]
      ensures ok ==> memberRoles == map m | m in old(memberRoles) :: old(memberRoles)[m] - {id}
      ensures channels == old(channels) && children == old(children) && parentOf == old(parentOf)
      ensures nextId == old(nextId)
      ensures OnlyDeletedRolesStripped(old(roles), old(memberRoles), roles, memberRoles)
    {
      ok := id in roles;
      if ok {
        roles := roles - {id};
        memberRoles := map m | m in memberRoles :: memberRoles[m] - {id};
        log := log + [RoleDeleted(id)];
      }
    }

    /** `member.roles.add(ids)`. */
    method AddRoles(member: UserId, ids: seq<Id>)
      requires Valid()
      modifies this
      ensures Valid()
      ensures memberRoles == old(memberRoles)[member := MemberRoles(old(memberRoles), member) + set i | i in ids]
      ensures log == old(log) + [RolesAdded(member, ids)]
      ensures roles == old(roles) && channels == old(channels) && children == old(children)
      ensures parentOf == old(parentOf) && nextId == old(nextId)
    {
      memberRoles := memberRoles[member := MemberRoles(memberRoles, member) + set i | i in ids];
      log := log + [RolesAdded(member, ids)];
    }

    /** `member.roles.remove(ids)`. */
    method RemoveRoles(member: UserId, ids: seq<Id>)
      requires Valid()
      modifies this
      ensures Valid()
      ensures memberRoles == old(memberRoles)[member := MemberRoles(old(memberRoles), member) - set i | i in ids]
      ensures log == old(log) + [RolesRemoved(member, ids)]
      ensures roles == old(roles) && channels == old(channels) && children == old(children)
      ensures parentOf == old(parentOf) && nextId == old(nextId)
    {
      memberRoles := memberRoles[member := MemberRoles(memberRoles, member) - set i | i in ids];
      log := log + [RolesRemoved(member, ids)];
    }

    /** `DiscordUtils.rateLimitAvoidance()` where the order of calls depends on it. */
    method Pause()
      modifies this
      ensures log == old(log) + [Paused]
      ensures roles == old(roles) && channels == old(channels) && children == old(children)
      ensures parentOf == old(parentOf) && nextId == old(nextId) && memberRoles == old(memberRoles)
    {
      log := log + [Paused];
    }

    /** `channel.overwritePermissions(overwrites)`. */
    method OverwritePermissions(channel: Id, overwrites: seq<Overwrite>)
      modifies this
      ensures log == old(log) + [PermissionsOverwritten(channel, overwrites)]
      ensures roles == old(roles) && channels == old(channels) && children == old(children)
      ensures parentOf == old(parentOf) && nextId == old(nextId) && memberRoles == old(memberRoles)
    {
      log := log + [PermissionsOverwritten(channel, overwrites)];
    }

    static function MemberRoles(m: map<UserId, set<Id>>, member: UserId): set<Id> {
      if member in m then m[member] else {}
    }
  }
}
