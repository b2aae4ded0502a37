/**
 * Course implements (src/services/implement/course/implement.ts): the two
 * roles and two channels of a course, created on first use inside a major
 * category with room, and deleted once no user has the course.
 */
module CourseImplements {
  import opened Wrappers
  import opened Platform
  import opened ImplementStore
  import opened Courses
  import MajorAllocator
  import VerificationImplements
  import CourseChannels
  import UserRecords

  /** Calls the allocator and the verification implement may make before a course's own resources. */
  predicate SetupCall(c: Call) {
    c.CategoryCreated? || (c.RoleCreated? && c.purpose == VerificationRole)
  }

  /** The calls that create a course's resources, in order. */
  function CreationCalls(cfg: CourseChannels.ChannelConfig, course: Course, c: CourseImplement, category: Id): seq<Call> {
    [ RoleCreated(c.mainRoleId, CourseMainRole(Key(course))),
      RoleCreated(c.taRoleId, CourseTARole(Key(course))),
      ChannelCreated(c.mainChannelId, Chat, Key(course), Some(category),
        Some(CourseChannels.ChannelOptionsFor(cfg, Chat, course, c.mainRoleId, c.taRoleId))),
      ChannelCreated(c.voiceChannelId, Voice, Key(course), Some(category),
        Some(CourseChannels.ChannelOptionsFor(cfg, Voice, course, c.mainRoleId, c.taRoleId))) ]
  }

  method GetCourseImplementIfExists(db: GuildStorageDatabase, course: Course) returns (r: Option<CourseImplement>)
    requires db.Valid()
    modifies db
    ensures db.Valid() && db.View() == old(db.View())
    ensures r == CourseLookup(old(db.View()), course.major.prefix, Key(course))
  {
    r := db.GetCourseImplement(course);
  }

  /** `after` extends `before` by setup calls only. */
  ghost predicate SetupOnly(before: seq<Call>, after: seq<Call>) {
    before <= after && forall i | |before| <= i < |after| :: SetupCall(after[i])
  }

  /** `after` is `before`, then setup calls only, then the four `calls`. */
  ghost predicate SetupThenCreation(before: seq<Call>, after: seq<Call>, calls: seq<Call>) {
    && before <= after && |after| >= |before| + 4
    && after[|after| - 4..] == calls
    && forall i | |before| <= i < |after| - 4 :: SetupCall(after[i])
  }

  lemma SetupOnlyTrans(log0: seq<Call>, log1: seq<Call>, log2: seq<Call>)
    requires SetupOnly(log0, log1) && SetupOnly(log1, log2)
    ensures SetupOnly(log0, log2)
  {
    forall i | |log0| <= i < |log2| ensures SetupCall(log2[i]) {
      if i < |log1| {
        assert log2[i] == log1[i];
      }
    }
  }

  lemma SetupOnlyThenCreation(log0: seq<Call>, log1: seq<Call>, calls: seq<Call>)
    requires SetupOnly(log0, log1) && |calls| == 4
    ensures SetupThenCreation(log0, log1 + calls, calls)
  {
    var log := log1 + calls;
    assert log[|log| - 4..] == calls;
    forall i | |log0| <= i < |log| - 4 ensures SetupCall(log[i]) {
      assert log[i] == log1[i];
    }
  }

  /**
   * The first half of `createCourseImplement`: a category with room for the
   * course's channels from the allocator, then the verification implement.
   * Neither changes any course lookup.
   */
  method PrepareCategory(db: GuildStorageDatabase, p: Platform, prefix: string) returns (r: Outcome<Id>)
    requires db.Valid() && p.Valid()
    modifies db, p
    ensures db.Valid() && p.Valid()
    ensures r.Thrown? ==> db.View() == old(db.View()) && unchanged(p)
    ensures r.Ok? ==> r.value in p.children
    ensures r.Ok? ==> p.children[r.value] + MajorAllocator.CHANNELS_PER_COURSE_IMPLEMENT <= MajorAllocator.MAX_CHANNELS_PER_CATEGORY
    ensures r.Ok? ==> db.View().verificationImplement.Some? && prefix in db.View().majorImplements
    ensures forall q, k :: CourseLookup(db.View(), q, k) == CourseLookup(old(db.View()), q, k)
    ensures SetupOnly(old(p.log), p.log)
    ensures old(p.roles) <= p.roles && old(p.channels) <= p.channels && p.memberRoles == old(p.memberRoles)
  {
    ghost var view0, log0 := db.View(), p.log;
    r := MajorAllocator.GetCategoryIdForNewCourseImplement(db, p, prefix);
    if r.Thrown? {
      return;
    }
    OnlyCategoriesChangedKeepsCourses(view0, db.View(), prefix);
    ghost var log1 := p.log;
    assert SetupOnly(log0, log1);
    var verification := VerificationImplements.GetOrCreateVerificationImplement(db, p);
    assert SetupOnly(log1, p.log);
    SetupOnlyTrans(log0, log1, p.log);
  }

  /** The four platform calls of `createCourseImplement`, in order, for a resolving category. */
  method CreateCourseResources(p: Platform, cfg: CourseChannels.ChannelConfig, course: Course, category: Id)
    returns (c: CourseImplement)
    requires p.Valid() && category in p.children
    modifies p
    ensures p.Valid()
    ensures p.log == old(p.log) + CreationCalls(cfg, course, c, category)
    ensures p.children == old(p.children)[category := old(p.children)[category] + 2]
    ensures c.mainChannelId in p.parentOf && c.voiceChannelId in p.parentOf
    ensures p.parentOf[c.mainChannelId] == category && p.parentOf[c.voiceChannelId] == category
    ensures {c.mainRoleId, c.taRoleId} <= p.roles - old(p.roles)
    ensures {c.mainChannelId, c.voiceChannelId} <= p.channels - old(p.channels)
    ensures p.memberRoles == old(p.memberRoles)
  {
    ghost var children0, log0 := p.children, p.log;
    var mainRoleId := p.CreateRole(CourseMainRole(Key(course)));
    var taRoleId := p.CreateRole(CourseTARole(Key(course)));
    ghost var log1 := p.log;
    assert p.children == children0;
    var mainChannelId := CourseChannels.CreateChannelByType(p, cfg, Chat, course, category, mainRoleId, taRoleId);
    ghost var children1, log2 := p.children, p.log;
    assert children1 == children0[category := children0[category] + 1];
    var voiceChannelId := CourseChannels.CreateChannelByType(p, cfg, Voice, course, category, mainRoleId, taRoleId);
    c := CourseImplement(mainRoleId, taRoleId, mainChannelId, voiceChannelId);
    assert p.children == children1[category := children1[category] + 1];
    assert p.log == log0 + CreationCalls(cfg, course, c, category) by {
      assert p.log == ((log1 + [CreationCalls(cfg, course, c, category)[2]]) + [CreationCalls(cfg, course, c, category)[3]]);
      assert log1 == (log0 + [CreationCalls(cfg, course, c, category)[0]]) + [CreationCalls(cfg, course, c, category)[1]];
    }
  }

  /**
   * `createCourseImplement`: a category from the allocator, the verification
   * implement, then the main role, the TA role, the chat channel and the
   * voice channel, both in that category, and finally the stored entry.
   */
  method CreateCourseImplement(db: GuildStorageDatabase, p: Platform, cfg: CourseChannels.ChannelConfig, course: Course)
    returns (r: Outcome<CourseImplement>)
    requires db.Valid() && p.Valid()
    modifies db, p
    ensures db.Valid() && p.Valid()
    ensures old(p.log) <= p.log
    ensures p.memberRoles == old(p.memberRoles)
    ensures r.Ok? ==>
      var c := r.value;
      && CourseLookup(db.View(), course.major.prefix, Key(course)) == Some(c)
      && db.View().verificationImplement.Some?
      && c.mainChannelId in p.parentOf && c.voiceChannelId in p.parentOf
      && var category := p.parentOf[c.mainChannelId];
      && p.parentOf[c.voiceChannelId] == category
      && category in p.children && p.children[category] <= MajorAllocator.MAX_CHANNELS_PER_CATEGORY
      && SetupThenCreation(old(p.log), p.log, CreationCalls(cfg, course, c, category))
      && {c.mainRoleId, c.taRoleId} <= p.roles - old(p.roles)
      && {c.mainChannelId, c.voiceChannelId} <= p.channels - old(p.channels)
    ensures forall q, k | q != course.major.prefix || k != Key(course) ::
      CourseLookup(db.View(), q, k) == CourseLookup(old(db.View()), q, k)
    ensures r.Thrown? ==> db.View() == old(db.View()) && unchanged(p)
  {
    ghost var log0 := p.log;
    var found := PrepareCategory(db, p, course.major.prefix);
    if found.Thrown? {
      return Thrown(found.reason);
    }
    var category := found.value;
    ghost var log1 := p.log;
    var c := CreateCourseResources(p, cfg, course, category);
    SetupOnlyThenCreation(log0, log1, CreationCalls(cfg, course, c, category));
    var logged := db.SetCourseImplement(course, Some(c));
    MajorAllocator.SortMajorImplement(db, course.major.prefix);
    r := Ok(c);
  }

  /** `getOrCreateCourseImplement`: an existing implement is returned and nothing is created. */
  method GetOrCreateCourseImplement(db: GuildStorageDatabase, p: Platform, cfg: CourseChannels.ChannelConfig, course: Course)
    returns (r: Outcome<CourseImplement>)
    requires db.Valid() && p.Valid()
    modifies db, p
    ensures db.Valid() && p.Valid()
    ensures r.Ok? ==> CourseLookup(db.View(), course.major.prefix, Key(course)) == Some(r.value)
    ensures CourseLookup(old(db.View()), course.major.prefix, Key(course)).Some? ==>
      r == Ok(CourseLookup(old(db.View()), course.major.prefix, Key(course)).value) &&
      unchanged(p) && db.View() == old(db.View())
    ensures forall q, k | q != course.major.prefix || k != Key(course) ::
      CourseLookup(db.View(), q, k) == CourseLookup(old(db.View()), q, k)
    ensures r.Thrown? ==> db.View() == old(db.View()) && unchanged(p)
  {
    var found := GetCourseImplementIfExists(db, course);
    if found.Some? {
      return Ok(found.value);
    }
    r := CreateCourseImplement(db, p, cfg, course);
  }

  /** The four stored IDs resolve, each once, so all four deletions succeed. */
  predicate Deletable(c: CourseImplement, channels: set<Id>, roles: set<Id>) {
    && c.mainChannelId in channels && c.voiceChannelId in channels && c.mainChannelId != c.voiceChannelId
    && c.mainRoleId in roles && c.taRoleId in roles && c.mainRoleId != c.taRoleId
  }

  predicate DeletionCall(c: Call) {
    c.ChannelDeleted? || c.RoleDeleted?
  }

  /** The four deletions, channels first; `ok` is false when one of them does not resolve. */
  method DeleteCourseResources(p: Platform, c: CourseImplement) returns (ok: bool)
    requires p.Valid()
    modifies p
    ensures p.Valid() && old(p.log) <= p.log
    ensures forall i | |old(p.log)| <= i < |p.log| :: DeletionCall(p.log[i])
    ensures ok == Deletable(c, old(p.channels), old(p.roles))
    ensures OnlyDeletedRolesStripped(old(p.roles), old(p.memberRoles), p.roles, p.memberRoles)
    ensures ok ==>
      && p.log == old(p.log) + [ChannelDeleted(c.mainChannelId), ChannelDeleted(c.voiceChannelId),
                                RoleDeleted(c.mainRoleId), RoleDeleted(c.taRoleId)]
      && p.channels == old(p.channels) - {c.mainChannelId, c.voiceChannelId}
      && p.roles == old(p.roles) - {c.mainRoleId, c.taRoleId}
  {
    ok := p.DeleteChannel(c.mainChannelId);
    if !ok { return; }
    ok := p.DeleteChannel(c.voiceChannelId);
    if !ok { return; }
    ok := p.DeleteRole(c.mainRoleId);
    if !ok { return; }
    ok := p.DeleteRole(c.taRoleId);
  }

  /**
   * `deleteCourseImplementIfEmpty`: nothing happens when there is no
   * implement or some user of the guild still has the course; otherwise
   * both channels, then both roles are deleted and the entry is removed.
   * An ID that does not resolve makes the source throw at that deletion.
   * `r` is `Ok(true)` when the implement was deleted.
   */
  method DeleteCourseImplementIfEmpty(db: GuildStorageDatabase, p: Platform, users: UserRecords.UserDatabase,
    guild: UserRecords.GuildId, course: Course) returns (r: Outcome<bool>)
    requires db.Valid() && p.Valid()
    modifies db, p
    ensures db.Valid() && p.Valid()
    ensures var found := CourseLookup(old(db.View()), course.major.prefix, Key(course));
      found.None? || users.UsersByCourse(guild, Key(course)) != {} ==>
        r == Ok(false) && unchanged(p) && db.View() == old(db.View())
    ensures var found := CourseLookup(old(db.View()), course.major.prefix, Key(course));
      found.Some? && users.UsersByCourse(guild, Key(course)) == {} ==>
        if Deletable(found.value, old(p.channels), old(p.roles)) then
          var c := found.value;
          && r == Ok(true)
          && db.View() == SetCourse(old(db.View()), course.major.prefix, Key(course), None)
          && CourseLookup(db.View(), course.major.prefix, Key(course)).None?
          && p.log == old(p.log) + [ChannelDeleted(c.mainChannelId), ChannelDeleted(c.voiceChannelId),
                                    RoleDeleted(c.mainRoleId), RoleDeleted(c.taRoleId)]
          && p.channels == old(p.channels) - {c.mainChannelId, c.voiceChannelId}
          && p.roles == old(p.roles) - {c.mainRoleId, c.taRoleId}
        else
          r.Thrown? && db.View() == old(db.View())
  {
    var found := GetCourseImplementIfExists(db, course);
    if found.None? {
      return Ok(false);
    }
    if users.UsersByCourse(guild, Key(course)) != {} {
      return Ok(false);
    }
    var c := found.value;
    var ok := DeleteCourseResources(p, c);
    if !ok {
      return Thrown("a channel or role does not resolve");
    }
    var logged := db.SetCourseImplement(course, None);
    MajorAllocator.DeleteMajorImplementIfEmpty(db, course.major.prefix);
    r := Ok(true);
  }
}
