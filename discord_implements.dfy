/**
 * The older generation of implements (src/services/discord/implement/major/index.ts
 * and src/services/discord/implement/course/index.ts): one text and one
 * voice category per major, a course's chat channel in the first and its
 * voice channel in the second.
 */
module DiscordImplements {
  import opened Wrappers
  import opened Platform
  import opened ImplementStore
  import opened Courses
  import UserRecords
  import CourseImplements

  method GetMajorImplementIfExists(db: GuildStorageDatabase, prefix: string) returns (r: Option<MajorImplement>)
    requires db.Valid()
    modifies db
    ensures db.Valid() && db.View() == old(db.View())
    ensures r == MajorLookup(old(db.View()), prefix)
  {
    r := db.GetMajorImplement(prefix);
  }

  /** Exactly two categories, text then voice, stored with no course implements. */
  method CreateMajorImplement(db: GuildStorageDatabase, p: Platform, prefix: string) returns (m: MajorImplement)
    requires db.Valid() && p.Valid()
    modifies db, p
    ensures db.Valid() && p.Valid()
    ensures m == MajorImplement(TextVoice(old(p.nextId), old(p.nextId) + 1), map[])
    ensures p.log == old(p.log) + [CategoryCreated(old(p.nextId), MajorTextCategory(prefix)),
                                   CategoryCreated(old(p.nextId) + 1, MajorVoiceCategory(prefix))]
    ensures p.channels == old(p.channels) + {old(p.nextId), old(p.nextId) + 1}
    ensures p.children == old(p.children)[old(p.nextId) := 0][old(p.nextId) + 1 := 0]
    ensures p.roles == old(p.roles) && p.parentOf == old(p.parentOf) && p.memberRoles == old(p.memberRoles)
    ensures db.View() == SetMajor(old(db.View()), prefix, Some(m))
  {
    var textCategoryId := p.CreateCategory(MajorTextCategory(prefix));
    var voiceCategoryId := p.CreateCategory(MajorVoiceCategory(prefix));
    m := MajorImplement(TextVoice(textCategoryId, voiceCategoryId), map[]);
    db.SetMajorImplement(prefix, Some(m));
  }

  /** An existing implement is returned without creating categories. */
  method GetOrCreateMajorImplement(db: GuildStorageDatabase, p: Platform, prefix: string) returns (m: MajorImplement)
    requires db.Valid() && p.Valid()
    modifies db, p
    ensures db.Valid() && p.Valid()
    ensures MajorLookup(db.View(), prefix) == Some(m)
    ensures MajorLookup(old(db.View()), prefix).Some? ==>
      m == MajorLookup(old(db.View()), prefix).value && unchanged(p) && db.View() == old(db.View())
    ensures MajorLookup(old(db.View()), prefix).None? ==>
      && m == MajorImplement(TextVoice(old(p.nextId), old(p.nextId) + 1), map[])
      && p.log == old(p.log) + [CategoryCreated(old(p.nextId), MajorTextCategory(prefix)),
                                CategoryCreated(old(p.nextId) + 1, MajorVoiceCategory(prefix))]
      && db.View() == SetMajor(old(db.View()), prefix, Some(m))
    ensures forall q, k :: CourseLookup(db.View(), q, k) == CourseLookup(old(db.View()), q, k)
    ensures p.roles == old(p.roles) && p.parentOf == old(p.parentOf) && p.memberRoles == old(p.memberRoles)
    ensures old(p.channels) <= p.channels
  {
    var found := GetMajorImplementIfExists(db, prefix);
    if found.Some? {
      return found.value;
    }
    ghost var view0 := db.View();
    m := CreateMajorImplement(db, p, prefix);
    OnlyCategoriesChangedKeepsCourses(view0, db.View(), prefix);
  }

  /**
   * `deleteMajorImplementIfEmpty`: nothing happens when the implement is
   * absent or still has a course implement; otherwise both categories are
   * deleted and the entry removed.  A category that does not resolve (as in
   * the overflow shape, which has no text or voice category) makes the
   * source throw.  `r` is `Ok(true)` when the implement was deleted.
   */
  /** The text and the voice category of `m` both resolve, and are two channels. */
  predicate CategoriesResolve(m: MajorImplement, channels: set<Id>) {
    m.categories.TextVoice? && m.categories.textCategoryId in channels
    && m.categories.voiceCategoryId in channels - {m.categories.textCategoryId}
  }

  method DeleteMajorImplementIfEmpty(db: GuildStorageDatabase, p: Platform, prefix: string) returns (r: Outcome<bool>)
    requires db.Valid() && p.Valid()
    modifies db, p
    ensures db.Valid() && p.Valid() && old(p.log) <= p.log
    ensures forall i | |old(p.log)| <= i < |p.log| :: p.log[i].ChannelDeleted?
    ensures p.roles == old(p.roles) && p.memberRoles == old(p.memberRoles)
    ensures forall q, k :: CourseLookup(db.View(), q, k) == CourseLookup(old(db.View()), q, k)
    ensures var m := MajorLookup(old(db.View()), prefix);
      m.None? || m.value.courseImplements != map[] ==>
        r == Ok(false) && unchanged(p) && db.View() == old(db.View())
    ensures var m := MajorLookup(old(db.View()), prefix);
      m.Some? && m.value.courseImplements == map[] ==>
        if CategoriesResolve(m.value, old(p.channels))
        then
          && r == Ok(true)
          && p.log == old(p.log) + [ChannelDeleted(m.value.categories.textCategoryId),
                                    ChannelDeleted(m.value.categories.voiceCategoryId)]
          && db.View() == SetMajor(old(db.View()), prefix, None)
        else
          r.Thrown? && db.View() == old(db.View())
  {
    var found := GetMajorImplementIfExists(db, prefix);
    if found.None? || found.value.courseImplements != map[] {
      return Ok(false);
    }
    var categories := found.value.categories;
    if !categories.TextVoice? {
      return Thrown("no text category");
    }
    var ok := p.DeleteChannel(categories.textCategoryId);
    if !ok { return Thrown("text category does not resolve"); }
    ok := p.DeleteChannel(categories.voiceCategoryId);
    if !ok { return Thrown("voice category does not resolve"); }
    db.SetMajorImplement(prefix, None);
    assert forall q, k :: CourseLookup(db.View(), q, k) == CourseLookup(old(db.View()), q, k) by {
      forall q, k ensures CourseLookup(db.View(), q, k) == CourseLookup(old(db.View()), q, k) {
        if q != prefix {
          assert MajorLookup(db.View(), q) == MajorLookup(old(db.View()), q);
        }
      }
    }
    r := Ok(true);
  }

  method GetCourseImplementIfExists(db: GuildStorageDatabase, course: Course) returns (r: Option<CourseImplement>)
    requires db.Valid()
    modifies db
    ensures db.Valid() && db.View() == old(db.View())
    ensures r == CourseLookup(old(db.View()), course.major.prefix, Key(course))
  {
    r := db.GetCourseImplement(course);
  }

  /** Where a channel of `kind` goes: the text or the voice category, absent in the overflow shape. */
  function ParentFor(m: MajorImplement, kind: ChannelType): (r: Option<Id>)
    ensures m.categories.Overflow? ==> r.None?
    ensures m.categories.TextVoice? ==>
      r == Some(if kind == Chat then m.categories.textCategoryId else m.categories.voiceCategoryId)
  {
    match m.categories
    case Overflow(_) => None
    case TextVoice(text, voice) => Some(if kind == Chat then text else voice)
  }

  /**
   * `createCourseImplement`: the major implement first, then the main role,
   * the TA role, the chat channel in the text category and the voice
   * channel in the voice category; the four IDs are stored.
   */
  method CreateCourseImplement(db: GuildStorageDatabase, p: Platform, course: Course) returns (c: CourseImplement)
    requires db.Valid() && p.Valid()
    modifies db, p
    ensures db.Valid() && p.Valid()
    ensures CourseLookup(db.View(), course.major.prefix, Key(course)) == Some(c)
    ensures MajorLookup(db.View(), course.major.prefix).Some?
    ensures var m := MajorLookup(db.View(), course.major.prefix).value;
      && |p.log| >= |old(p.log)| + 4
      && p.log[|p.log| - 4..] == CourseCalls(course, c, m)
      && (MajorLookup(old(db.View()), course.major.prefix).Some? ==> |p.log| == |old(p.log)| + 4)
    ensures old(p.log) <= p.log && forall i | |old(p.log)| <= i < |p.log| :: CreationCall(p.log[i])
    ensures db.View().verificationImplement == old(db.View()).verificationImplement
    ensures forall q, k | q != course.major.prefix || k != Key(course) ::
      CourseLookup(db.View(), q, k) == CourseLookup(old(db.View()), q, k)
  {
    ghost var log0 := p.log;
    var m := GetOrCreateMajorImplement(db, p, course.major.prefix);
    ghost var log1 := p.log;
    assert CreationsOnly(log0, log1);
    c := CreateCourseResources(p, course, m);
    CreationsThenCalls(log0, log1, CourseCalls(course, c, m));
    var logged := db.SetCourseImplement(course, Some(c));
  }

  /** The four calls creating a course's roles and channels, in order. */
  function CourseCalls(course: Course, c: CourseImplement, m: MajorImplement): (r: seq<Call>)
    ensures |r| == 4 && forall i | 0 <= i < 4 :: CreationCall(r[i])
  {
    [ RoleCreated(c.mainRoleId, CourseMainRole(Key(course))),
      RoleCreated(c.taRoleId, CourseTARole(Key(course))),
      ChannelCreated(c.mainChannelId, Chat, Key(course), ParentFor(m, Chat), None),
      ChannelCreated(c.voiceChannelId, Voice, Key(course), ParentFor(m, Voice), None) ]
  }

  /** The main role, the TA role, the chat channel and the voice channel. */
  method CreateCourseResources(p: Platform, course: Course, m: MajorImplement) returns (c: CourseImplement)
    requires p.Valid()
    modifies p
    ensures p.Valid() && p.log == old(p.log) + CourseCalls(course, c, m)
  {
    var mainRoleId := p.CreateRole(CourseMainRole(Key(course)));
    var taRoleId := p.CreateRole(CourseTARole(Key(course)));
    var mainChannelId := p.CreateChannel(Chat, Key(course), ParentFor(m, Chat), None);
    var voiceChannelId := p.CreateChannel(Voice, Key(course), ParentFor(m, Voice), None);
    c := CourseImplement(mainRoleId, taRoleId, mainChannelId, voiceChannelId);
  }

  /** `after` extends `before` by creation calls only. */
  ghost predicate CreationsOnly(before: seq<Call>, after: seq<Call>) {
    before <= after && forall i | |before| <= i < |after| :: CreationCall(after[i])
  }

  lemma CreationsOnlyTrans(log0: seq<Call>, log1: seq<Call>, log2: seq<Call>)
    requires CreationsOnly(log0, log1) && CreationsOnly(log1, log2)
    ensures CreationsOnly(log0, log2)
  {
    forall i | |log0| <= i < |log2| ensures CreationCall(log2[i]) {
      if i < |log1| {
        assert log2[i] == log1[i];
      }
    }
  }

  lemma CreationsThenCalls(log0: seq<Call>, log1: seq<Call>, calls: seq<Call>)
    requires CreationsOnly(log0, log1) && |calls| == 4 && forall i | 0 <= i < 4 :: CreationCall(calls[i])
    ensures var log := log1 + calls;
      |log| >= |log0| + 4 && log[|log| - 4..] == calls && CreationsOnly(log0, log)
  {
    var log := log1 + calls;
    assert log[|log| - 4..] == calls;
    forall i | |log0| <= i < |log| ensures CreationCall(log[i]) {
      if i < |log1| {
        assert log[i] == log1[i];
      } else {
        assert log[i] == calls[i - |log1|];
      }
    }
  }

  /** An existing implement is returned unchanged, and nothing is created. */
  method GetOrCreateCourseImplement(db: GuildStorageDatabase, p: Platform, course: Course) returns (c: CourseImplement)
    requires db.Valid() && p.Valid()
    modifies db, p
    ensures db.Valid() && p.Valid()
    ensures CourseLookup(db.View(), course.major.prefix, Key(course)) == Some(c)
    ensures CourseLookup(old(db.View()), course.major.prefix, Key(course)).Some? ==>
      c == CourseLookup(old(db.View()), course.major.prefix, Key(course)).value &&
      unchanged(p) && db.View() == old(db.View())
    ensures old(p.log) <= p.log && forall i | |old(p.log)| <= i < |p.log| :: CreationCall(p.log[i])
    ensures db.View().verificationImplement == old(db.View()).verificationImplement
    ensures forall q, k | q != course.major.prefix || k != Key(course) ::
      CourseLookup(db.View(), q, k) == CourseLookup(old(db.View()), q, k)
  {
    var found := GetCourseImplementIfExists(db, course);
    if found.Some? {
      return found.value;
    }
    c := CreateCourseImplement(db, p, course);
  }

  /**
   * `deleteCourseImplementIfEmpty`: guarded by existence and by no user of
   * the guild having the course; deletes both channels and both roles,
   * removes the entry, then runs the major's empty check.
   */
  method DeleteCourseImplementIfEmpty(db: GuildStorageDatabase, p: Platform, users: UserRecords.UserDatabase,
    guild: UserRecords.GuildId, course: Course) returns (r: Outcome<bool>)
    requires db.Valid() && p.Valid()
    modifies db, p
    ensures db.Valid() && p.Valid() && old(p.log) <= p.log
    ensures forall i | |old(p.log)| <= i < |p.log| :: CourseImplements.DeletionCall(p.log[i])
    ensures OnlyDeletedRolesStripped(old(p.roles), old(p.memberRoles), p.roles, p.memberRoles)
    ensures forall q, k | q != course.major.prefix || k != Key(course) ::
      CourseLookup(db.View(), q, k) == CourseLookup(old(db.View()), q, k)
    ensures var found := CourseLookup(old(db.View()), course.major.prefix, Key(course));
      found.None? || users.UsersByCourse(guild, Key(course)) != {} ==>
        r == Ok(false) && unchanged(p) && db.View() == old(db.View())
    ensures var found := CourseLookup(old(db.View()), course.major.prefix, Key(course));
      found.Some? && users.UsersByCourse(guild, Key(course)) == {} && !CourseImplements.Deletable(found.value, old(p.channels), old(p.roles)) ==>
        r.Thrown? && db.View() == old(db.View())
    ensures var found := CourseLookup(old(db.View()), course.major.prefix, Key(course));
      found.Some? && users.UsersByCourse(guild, Key(course)) == {} && CourseImplements.Deletable(found.value, old(p.channels), old(p.roles)) ==>
        var c := found.value;
        var removed := SetCourse(old(db.View()), course.major.prefix, Key(course), None);
        && |p.log| >= |old(p.log)| + 4
        && p.log[..|old(p.log)| + 4] == old(p.log) + [ChannelDeleted(c.mainChannelId), ChannelDeleted(c.voiceChannelId),
                                                      RoleDeleted(c.mainRoleId), RoleDeleted(c.taRoleId)]
        && (r.Ok? ==> r.value && CourseLookup(db.View(), course.major.prefix, Key(course)).None?)
        && var m := MajorLookup(removed, course.major.prefix);
           var channels := old(p.channels) - {c.mainChannelId, c.voiceChannelId};
           if m.Some? && m.value.courseImplements == map[] then
             if CategoriesResolve(m.value, channels)
             then r == Ok(true) && db.View() == SetMajor(removed, course.major.prefix, None)
             else r.Thrown? && db.View() == removed
           else r == Ok(true) && db.View() == removed
  {
    var found := GetCourseImplementIfExists(db, course);
    if found.None? {
      return Ok(false);
    }
    if users.UsersByCourse(guild, Key(course)) != {} {
      return Ok(false);
    }
    var c := found.value;
    var ok := CourseImplements.DeleteCourseResources(p, c);
    if !ok {
      return Thrown("a channel or role does not resolve");
    }
    var logged := db.SetCourseImplement(course, None);
    ghost var log4 := p.log;
    var majorDeleted := DeleteMajorImplementIfEmpty(db, p, course.major.prefix);
    assert log4 <= p.log;
    if majorDeleted.Thrown? {
      return Thrown(majorDeleted.reason);
    }
    r := Ok(true);
  }
}
