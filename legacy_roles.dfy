/**
 * The older role storage (src/services/guild-storage.ts) and the role
 * service built on it (src/services/role.ts): per guild, one entry per major
 * prefix holding a course-key to role-ID map.  The entries are kept in
 * insertion order, as a JavaScript `Map` iterates them.
 */
module LegacyRoles {
  import opened Wrappers
  import opened Platform
  import opened Courses
  import Dict

  /** The `majors` map: prefix to `{ roles: Map<courseKey, roleId> }`, in insertion order. */
  type Majors = seq<Dict.Entry<map<string, Id>>>

  /** `majors.get(prefix)?.roles`. */
  function RolesFor(ms: Majors, prefix: string): Option<map<string, Id>> {
    Dict.Get(ms, prefix)
  }

  /** The storage a new document is created with: an empty entry per configured prefix. */
  function Seeded(prefixes: seq<string>): Majors {
    if prefixes == [] then []
    else Dict.Set(Seeded(prefixes[..|prefixes| - 1]), prefixes[|prefixes| - 1], map[])
  }

  /** A new document has an empty role map for exactly the configured prefixes, each once. */
  lemma {:induction false} SeededContents(prefixes: seq<string>)
    ensures Dict.DistinctKeys(Seeded(prefixes))
    ensures forall q :: RolesFor(Seeded(prefixes), q) == if q in prefixes then Some(map[]) else None
  {
    if prefixes != [] {
      var init := prefixes[..|prefixes| - 1];
      SeededContents(init);
      assert forall q :: q in prefixes <==> q in init || q == prefixes[|prefixes| - 1] by {
        assert prefixes == init + [prefixes[|prefixes| - 1]];
      }
    }
  }

  /** `getAllRoles`: every entry's map folded in order, a later entry winning on a shared key. */
  function AllRoles(ms: Majors): map<string, Id> {
    if ms == [] then map[] else AllRoles(ms[..|ms| - 1]) + ms[|ms| - 1].value
  }

  /**
   * A key is in the union exactly when some entry has it, and maps to the
   * role of the last entry that has it.
   */
  lemma {:induction false} AllRolesLookup(ms: Majors, k: string)
    ensures k in AllRoles(ms) <==> exists i | 0 <= i < |ms| :: k in ms[i].value
    ensures forall i | 0 <= i < |ms| && k in ms[i].value && (forall j | i < j < |ms| :: k !in ms[j].value) ::
      k in AllRoles(ms) && AllRoles(ms)[k] == ms[i].value[k]
  {
    if ms != [] {
      var init := ms[..|ms| - 1];
      AllRolesLookup(init, k);
      assert forall i | 0 <= i < |init| :: init[i] == ms[i];
      if k !in ms[|ms| - 1].value {
        assert (exists i | 0 <= i < |ms| :: k in ms[i].value) ==> exists i | 0 <= i < |init| :: k in init[i].value;
      }
    }
  }

  /** The storage service of one guild: the configured prefixes and the stored document, if any. */
  class GuildRoleStorage {
    /** `Object.keys(guildContext.majors)`. */
    const majorPrefixes: seq<string>
    var document: Option<Majors>

    constructor (majorPrefixes: seq<string>, document: Option<Majors>)
      ensures this.majorPrefixes == majorPrefixes && this.document == document
    {
      this.majorPrefixes, this.document := majorPrefixes, document;
    }

    /** What `findOrCreateGuildStorage` returns: the document, or a freshly seeded one. */
    function Stored(): Majors
      reads this
    {
      if document.Some? then document.value else Seeded(majorPrefixes)
    }

    method FindOrCreateGuildStorage() returns (s: Majors)
      modifies this
      ensures s == old(Stored()) && document == Some(s)
    {
      if document.Some? {
        return document.value;
      }
      s := [];
      var i := 0;
      while i < |majorPrefixes|
        invariant 0 <= i <= |majorPrefixes|
        invariant s == Seeded(majorPrefixes[..i])
      {
        assert majorPrefixes[..i + 1][..i] == majorPrefixes[..i];
        s := Dict.Set(s, majorPrefixes[i], map[]);
        i := i + 1;
      }
      assert majorPrefixes[..i] == majorPrefixes;
      document := Some(s);
    }

    method GetAllRoles() returns (roles: map<string, Id>)
      modifies this
      ensures document == Some(old(Stored())) && roles == AllRoles(old(Stored()))
    {
      var s := FindOrCreateGuildStorage();
      roles := map[];
      var i := 0;
      while i < |s|
        invariant 0 <= i <= |s|
        invariant roles == AllRoles(s[..i]) && document == Some(s)
      {
        assert s[..i + 1][..i] == s[..i];
        roles := SetAll(roles, s[i].value);
        i := i + 1;
      }
      assert s[..i] == s;
    }

    method GetRolesForMajor(prefix: string) returns (r: Outcome<map<string, Id>>)
      modifies this
      ensures document == Some(old(Stored()))
      ensures r.Ok? <==> RolesFor(old(Stored()), prefix).Some?
      ensures r.Ok? ==> r.value == RolesFor(old(Stored()), prefix).value
    {
      var s := FindOrCreateGuildStorage();
      var roles := RolesFor(s, prefix);
      if roles.None? {
        return Thrown("no entry for the major");
      }
      r := Ok(roles.value);
    }

    /** Records `roleId` under the course's key in its major; only that key changes. */
    method AddRole(course: Course, roleId: Id) returns (r: Outcome<()>)
      modifies this
      ensures r.Ok? <==> RolesFor(old(Stored()), course.major.prefix).Some?
      ensures r.Thrown? ==> document == Some(old(Stored()))
      ensures r.Ok? ==> document == Some(Dict.Set(old(Stored()), course.major.prefix,
        RolesFor(old(Stored()), course.major.prefix).value[Key(course) := roleId]))
      ensures r.Ok? ==>
        && RolesFor(Stored(), course.major.prefix) == Some(RolesFor(old(Stored()), course.major.prefix).value[Key(course) := roleId])
        && forall q | q != course.major.prefix :: RolesFor(Stored(), q) == RolesFor(old(Stored()), q)
    {
      var s := FindOrCreateGuildStorage();
      var roles := RolesFor(s, course.major.prefix);
      if roles.None? {
        return Thrown("no entry for the major");
      }
      document := Some(Dict.Set(s, course.major.prefix, roles.value[Key(course) := roleId]));
      r := Ok(());
    }

    /** Deletes the course's key from its major; only that key changes. */
    method RemoveRole(course: Course) returns (r: Outcome<()>)
      modifies this
      ensures r.Ok? <==> RolesFor(old(Stored()), course.major.prefix).Some?
      ensures r.Thrown? ==> document == Some(old(Stored()))
      ensures r.Ok? ==> document == Some(Dict.Set(old(Stored()), course.major.prefix,
        RolesFor(old(Stored()), course.major.prefix).value - {Key(course)}))
      ensures r.Ok? ==>
        && RolesFor(Stored(), course.major.prefix) == Some(RolesFor(old(Stored()), course.major.prefix).value - {Key(course)})
        && forall q | q != course.major.prefix :: RolesFor(Stored(), q) == RolesFor(old(Stored()), q)
    {
      var s := FindOrCreateGuildStorage();
      var roles := RolesFor(s, course.major.prefix);
      if roles.None? {
        return Thrown("no entry for the major");
      }
      document := Some(Dict.Set(s, course.major.prefix, roles.value - {Key(course)}));
      r := Ok(());
    }
  }

  /** The inner `forEach`: every entry of `roles` set into `acc`. */
  method SetAll(acc: map<string, Id>, roles: map<string, Id>) returns (r: map<string, Id>)
    ensures r == acc + roles
  {
    r := acc;
    var remaining := roles.Keys;
    while remaining != {}
      invariant remaining <= roles.Keys
      invariant r == acc + map k | k in roles.Keys - remaining :: roles[k]
      decreases remaining
    {
      var k :| k in remaining;
      r := r[k := roles[k]];
      remaining := remaining - {k};
    }
  }

  /**
   * `getCourseRoleIfExists`: a stored ID that still resolves is returned; one
   * that no longer resolves is deleted from storage and nothing is returned.
   * A major without an entry makes the source throw.
   */
  method GetCourseRoleIfExists(store: GuildRoleStorage, p: Platform, course: Course) returns (r: Outcome<Option<Id>>)
    modifies store
    ensures var roles := RolesFor(old(store.Stored()), course.major.prefix);
      && (roles.None? ==> r.Thrown? && store.document == Some(old(store.Stored())))
      && (roles.Some? && Key(course) !in roles.value ==> r == Ok(None) && store.document == Some(old(store.Stored())))
      && (roles.Some? && Key(course) in roles.value && roles.value[Key(course)] in p.roles ==>
            r == Ok(Some(roles.value[Key(course)])) && store.document == Some(old(store.Stored())))
      && (roles.Some? && Key(course) in roles.value && roles.value[Key(course)] !in p.roles ==>
            r == Ok(None) &&
            store.document == Some(Dict.Set(old(store.Stored()), course.major.prefix, roles.value - {Key(course)})))
    ensures r.Ok? && r.value.Some? ==> r.value.value in p.roles
    ensures r == Ok(None) ==> Key(course) !in RolesFor(store.Stored(), course.major.prefix).value
  {
    var roles := store.GetRolesForMajor(course.major.prefix);
    if roles.Thrown? {
      return Thrown(roles.reason);
    }
    if Key(course) in roles.value {
      var roleId := roles.value[Key(course)];
      if roleId in p.roles {
        return Ok(Some(roleId));
      }
      var removed := store.RemoveRole(course);
    }
    r := Ok(None);
  }

  /** `createCourseRole`: a new role named by the course key, whose ID is then stored. */
  method CreateCourseRole(store: GuildRoleStorage, p: Platform, course: Course) returns (r: Outcome<Id>)
    requires p.Valid()
    modifies store, p
    ensures p.Valid() && p.log == old(p.log) + [RoleCreated(old(p.nextId), LegacyCourseRole(Key(course)))]
    ensures p.roles == old(p.roles) + {old(p.nextId)}
    ensures r.Ok? <==> RolesFor(old(store.Stored()), course.major.prefix).Some?
    ensures r.Ok? ==> r.value == old(p.nextId) && store.document == Some(Dict.Set(old(store.Stored()), course.major.prefix,
      RolesFor(old(store.Stored()), course.major.prefix).value[Key(course) := r.value]))
  {
    var roleId := p.CreateRole(LegacyCourseRole(Key(course)));
    var added := store.AddRole(course, roleId);
    if added.Thrown? {
      return Thrown(added.reason);
    }
    r := Ok(roleId);
  }

  /**
   * `getCourseRole`: the existing role when it resolves, otherwise a new one.
   * Either way the returned role is live and stored under the course's key.
   */
  method GetCourseRole(store: GuildRoleStorage, p: Platform, course: Course) returns (r: Outcome<Id>)
    requires p.Valid()
    modifies store, p
    ensures p.Valid()
    ensures r.Ok? <==> RolesFor(old(store.Stored()), course.major.prefix).Some?
    ensures r.Ok? ==>
      && r.value in p.roles
      && RolesFor(store.Stored(), course.major.prefix).Some?
      && Key(course) in RolesFor(store.Stored(), course.major.prefix).value
      && RolesFor(store.Stored(), course.major.prefix).value[Key(course)] == r.value
    ensures var roles := RolesFor(old(store.Stored()), course.major.prefix);
      roles.Some? && Key(course) in roles.value && roles.value[Key(course)] in old(p.roles) ==>
        r == Ok(roles.value[Key(course)]) && unchanged(p)
  {
    var existing := GetCourseRoleIfExists(store, p, course);
    if existing.Thrown? {
      return Thrown(existing.reason);
    }
    if existing.value.Some? {
      return Ok(existing.value.value);
    }
    r := CreateCourseRole(store, p, course);
  }

  /** `getExistingRoleIdsForCourses`: one lookup per course, in order, against the union of all majors. */
  method GetExistingRoleIdsForCourses(store: GuildRoleStorage, courses: seq<Course>) returns (ids: seq<Option<Id>>)
    modifies store
    ensures store.document == Some(old(store.Stored()))
    ensures |ids| == |courses|
    ensures forall i | 0 <= i < |courses| ::
      ids[i] == if Key(courses[i]) in AllRoles(old(store.Stored())) then Some(AllRoles(old(store.Stored()))[Key(courses[i])]) else None
  {
    var roles := store.GetAllRoles();
    ids := [];
    var i := 0;
    while i < |courses|
      invariant 0 <= i <= |courses| && |ids| == i
      invariant forall j | 0 <= j < i :: ids[j] == if Key(courses[j]) in roles then Some(roles[Key(courses[j])]) else None
    {
      var key := Key(courses[i]);
      ids := ids + [if key in roles then Some(roles[key]) else None];
      i := i + 1;
    }
  }
}
