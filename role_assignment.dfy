/**
 * Role-change computation (src/services/discord/role-assignment.ts): from
 * a member's verification status and course assignments, and the course
 * implements already stored, the roles to add and to remove and the courses
 * whose implements may now be unused; then the platform calls that apply
 * them.  The lists are not filtered against the member's current roles.
 */
module RoleAssignment {
  import opened Wrappers
  import opened Platform
  import opened ImplementStore
  import opened Courses
  import UserRecords
  import VerificationImplements
  import DiscordImplements
  import CourseImplements

  datatype RoleChanges = RoleChanges(add: seq<Id>, remove: seq<Id>, queued: seq<Course>)

  const NoChanges: RoleChanges := RoleChanges([], [], [])

  function Join(a: RoleChanges, b: RoleChanges): RoleChanges {
    RoleChanges(a.add + b.add, a.remove + b.remove, a.queued + b.queued)
  }

  /** The verification role goes to the add list when the member is verified, else to the remove list. */
  function VerificationChanges(status: UserRecords.VerificationStatus, roleId: Id): RoleChanges {
    if status == UserRecords.Verified then RoleChanges([roleId], [], []) else RoleChanges([], [roleId], [])
  }

  function Lookup(view: Storage, c: Course): Option<CourseImplement> {
    CourseLookup(view, c.major.prefix, Key(c))
  }

  /**
   * One course's contribution.  An assigned course adds its main role and
   * adds or removes its TA role by the TA flag; an unassigned course with an
   * implement removes both roles and is queued for the empty check.
   */
  function CourseChanges(assignments: seq<Assignment>, view: Storage, c: Course): RoleChanges {
    match (FindAssignment(assignments, Key(c)), Lookup(view, c))
    case (Some(a), Some(impl)) =>
      RoleChanges([impl.mainRoleId] + (if a.isTA then [impl.taRoleId] else []),
                  if a.isTA then [] else [impl.taRoleId], [])
    case (None, Some(impl)) => RoleChanges([], [impl.mainRoleId, impl.taRoleId], [c])
    case (_, None) => NoChanges
  }

  /** The contributions of `cs`, in order. */
  function Changes(assignments: seq<Assignment>, view: Storage, cs: seq<Course>): RoleChanges {
    if cs == [] then NoChanges
    else Join(Changes(assignments, view, cs[..|cs| - 1]), CourseChanges(assignments, view, cs[|cs| - 1]))
  }

  /** `Object.values(guildContext.courses)` walked group by group. */
  function Flatten(groups: seq<seq<Course>>): seq<Course> {
    if groups == [] then [] else Flatten(groups[..|groups| - 1]) + groups[|groups| - 1]
  }

  lemma ChangesSnoc(assignments: seq<Assignment>, view: Storage, cs: seq<Course>, c: Course)
    ensures Changes(assignments, view, cs + [c]) == Join(Changes(assignments, view, cs), CourseChanges(assignments, view, c))
  {
    assert (cs + [c])[..|cs|] == cs;
  }

  /** Changes depend on the store only through the lookups of the courses involved. */
  lemma {:induction false} ChangesFrame(assignments: seq<Assignment>, v: Storage, w: Storage, cs: seq<Course>)
    requires forall c | c in cs :: Lookup(v, c) == Lookup(w, c)
    ensures Changes(assignments, v, cs) == Changes(assignments, w, cs)
  {
    if cs != [] {
      assert forall c | c in cs[..|cs| - 1] :: c in cs;
      ChangesFrame(assignments, v, w, cs[..|cs| - 1]);
    }
  }

  /** Every course's contribution appears in the lists. */
  lemma {:induction false} ChangesContain(assignments: seq<Assignment>, view: Storage, cs: seq<Course>, c: Course)
    requires c in cs
    ensures var all, one := Changes(assignments, view, cs), CourseChanges(assignments, view, c);
      (forall x | x in one.add :: x in all.add) && (forall x | x in one.remove :: x in all.remove) &&
      (forall x | x in one.queued :: x in all.queued)
  {
    var init := cs[..|cs| - 1];
    assert cs == init + [cs[|cs| - 1]];
    if c != cs[|cs| - 1] {
      assert c in init;
      ChangesContain(assignments, view, init, c);
    }
  }

  /**
   * An assigned course with an implement always adds its main role; its TA
   * role is added when the assignment is TA and removed otherwise.
   */
  lemma AssignedCourseRoles(assignments: seq<Assignment>, view: Storage, cs: seq<Course>, c: Course)
    requires c in cs && FindAssignment(assignments, Key(c)).Some? && Lookup(view, c).Some?
    ensures var all, impl, a := Changes(assignments, view, cs), Lookup(view, c).value, FindAssignment(assignments, Key(c)).value;
      && impl.mainRoleId in all.add
      && (a.isTA ==> impl.taRoleId in all.add)
      && (!a.isTA ==> impl.taRoleId in all.remove)
  {
    ChangesContain(assignments, view, cs, c);
    var one := CourseChanges(assignments, view, c);
    assert Lookup(view, c).value.mainRoleId in one.add;
  }

  /**
   * An unassigned course with an implement has both roles removed and is
   * queued; without an implement it contributes nothing.
   */
  lemma UnassignedCourseRoles(assignments: seq<Assignment>, view: Storage, cs: seq<Course>, c: Course)
    requires c in cs && FindAssignment(assignments, Key(c)).None?
    ensures Lookup(view, c).None? ==> CourseChanges(assignments, view, c) == NoChanges
    ensures Lookup(view, c).Some? ==>
      var all, impl := Changes(assignments, view, cs), Lookup(view, c).value;
      impl.mainRoleId in all.remove && impl.taRoleId in all.remove && c in all.queued
  {
    ChangesContain(assignments, view, cs, c);
  }

  /** Only unassigned courses with an implement are queued. */
  lemma {:induction false} QueuedCourses(assignments: seq<Assignment>, view: Storage, cs: seq<Course>)
    ensures forall c | c in Changes(assignments, view, cs).queued ::
      c in cs && FindAssignment(assignments, Key(c)).None? && Lookup(view, c).Some?
  {
    if cs != [] {
      var init := cs[..|cs| - 1];
      QueuedCourses(assignments, view, init);
      assert forall c | c in init :: c in cs;
    }
  }

  /** The verification role leads the add list of a verified member and the remove list of any other. */
  lemma VerificationRolePlacement(status: UserRecords.VerificationStatus, roleId: Id, courses: RoleChanges)
    ensures var all := Join(VerificationChanges(status, roleId), courses);
      && (status == UserRecords.Verified ==> all.add == [roleId] + courses.add && all.remove == courses.remove)
      && (status != UserRecords.Verified ==> all.remove == [roleId] + courses.remove && all.add == courses.add)
      && all.queued == courses.queued
  {
  }

  /** Every assigned course seen so far has an implement. */
  ghost predicate AssignedHaveImplements(assignments: seq<Assignment>, view: Storage, cs: seq<Course>) {
    forall c | c in cs && FindAssignment(assignments, Key(c)).Some? :: Lookup(view, c).Some?
  }

  ghost predicate AssignedAmong(assignments: seq<Assignment>, cs: seq<Course>, q: string, k: string) {
    exists c | c in cs :: c.major.prefix == q && Key(c) == k && FindAssignment(assignments, k).Some?
  }

  /**
   * Creating the implement of an assigned course changes no lookup of a
   * course already seen: one with the same key is assigned too, so already
   * has its implement.
   */
  lemma CreationKeepsSeen(assignments: seq<Assignment>, v: Storage, w: Storage, done: seq<Course>, c: Course)
    requires AssignedHaveImplements(assignments, v, done) && FindAssignment(assignments, Key(c)).Some?
    requires Lookup(w, c).Some?
    requires forall q, k | q != c.major.prefix || k != Key(c) :: CourseLookup(w, q, k) == CourseLookup(v, q, k)
    requires Lookup(v, c).Some? ==> w == v
    ensures Changes(assignments, w, done) == Changes(assignments, v, done)
    ensures AssignedHaveImplements(assignments, w, done + [c])
  {
    forall d | d in done ensures Lookup(w, d) == Lookup(v, d) {
      if d.major.prefix == c.major.prefix && Key(d) == Key(c) {
        assert Lookup(v, d).Some?;
      }
    }
    ChangesFrame(assignments, v, w, done);
  }

  /** One course of the inner loop, as the body of `for (const course of courses)`. */
  method ProcessCourse(db: GuildStorageDatabase, p: Platform, assignments: seq<Assignment>, c: Course,
    ghost done: seq<Course>, prior: RoleChanges) returns (ch: RoleChanges)
    requires db.Valid() && p.Valid()
    requires prior == Changes(assignments, db.View(), done) && AssignedHaveImplements(assignments, db.View(), done)
    modifies db, p
    ensures db.Valid() && p.Valid()
    ensures ch == Changes(assignments, db.View(), done + [c]) && AssignedHaveImplements(assignments, db.View(), done + [c])
    ensures forall q, k | FindAssignment(assignments, Key(c)).None? || q != c.major.prefix || k != Key(c) ::
      CourseLookup(db.View(), q, k) == CourseLookup(old(db.View()), q, k)
    ensures db.View().verificationImplement == old(db.View()).verificationImplement
    ensures old(p.log) <= p.log && forall i | |old(p.log)| <= i < |p.log| :: CreationCall(p.log[i])
  {
    ghost var v := db.View();
    var assignment := FindAssignment(assignments, Key(c));
    var one := NoChanges;
    if assignment.Some? {
      var impl := DiscordImplements.GetOrCreateCourseImplement(db, p, c);
      CreationKeepsSeen(assignments, v, db.View(), done, c);
      one := RoleChanges([impl.mainRoleId], [], []);
      if assignment.value.isTA {
        one := one.(add := one.add + [impl.taRoleId]);
      } else {
        one := one.(remove := [impl.taRoleId]);
      }
    } else {
      var impl := DiscordImplements.GetCourseImplementIfExists(db, c);
      if impl.Some? {
        one := RoleChanges([], [impl.value.mainRoleId, impl.value.taRoleId], [c]);
      }
    }
    assert one == CourseChanges(assignments, db.View(), c);
    ChangesSnoc(assignments, db.View(), done, c);
    ch := Join(prior, one);
  }

  /** The inner loop over one group of courses. */
  method ProcessCourses(db: GuildStorageDatabase, p: Platform, assignments: seq<Assignment>, cs: seq<Course>,
    ghost seen: seq<Course>, prior: RoleChanges) returns (ch: RoleChanges)
    requires db.Valid() && p.Valid()
    requires prior == Changes(assignments, db.View(), seen) && AssignedHaveImplements(assignments, db.View(), seen)
    modifies db, p
    ensures db.Valid() && p.Valid()
    ensures ch == Changes(assignments, db.View(), seen + cs) && AssignedHaveImplements(assignments, db.View(), seen + cs)
    ensures forall q, k | !AssignedAmong(assignments, cs, q, k) :: CourseLookup(db.View(), q, k) == CourseLookup(old(db.View()), q, k)
    ensures db.View().verificationImplement == old(db.View()).verificationImplement
    ensures old(p.log) <= p.log && forall i | |old(p.log)| <= i < |p.log| :: CreationCall(p.log[i])
  {
    ch := prior;
    var i := 0;
    assert seen + cs[..0] == seen;
    while i < |cs|
      invariant 0 <= i <= |cs| && db.Valid() && p.Valid()
      invariant ch == Changes(assignments, db.View(), seen + cs[..i])
      invariant AssignedHaveImplements(assignments, db.View(), seen + cs[..i])
      invariant forall q, k | !AssignedAmong(assignments, cs[..i], q, k) :: CourseLookup(db.View(), q, k) == CourseLookup(old(db.View()), q, k)
      invariant db.View().verificationImplement == old(db.View()).verificationImplement
      invariant old(p.log) <= p.log && forall j | |old(p.log)| <= j < |p.log| :: CreationCall(p.log[j])
    {
      PrefixSnoc(seen, cs, i);
      AssignedAmongGrows(assignments, cs, i);
      ch := ProcessCourse(db, p, assignments, cs[i], seen + cs[..i], ch);
      i := i + 1;
    }
    assert cs[..i] == cs;
  }

  lemma PrefixSnoc<T>(xs: seq<T>, ys: seq<T>, i: nat)
    requires i < |ys|
    ensures xs + ys[..i + 1] == (xs + ys[..i]) + [ys[i]]
  {
    assert ys[..i + 1] == ys[..i] + [ys[i]];
  }

  lemma AssignedAmongGrows(assignments: seq<Assignment>, cs: seq<Course>, i: nat)
    requires i < |cs|
    ensures forall q, k | AssignedAmong(assignments, cs[..i], q, k) ::
      AssignedAmong(assignments, cs[..i + 1], q, k)
    ensures FindAssignment(assignments, Key(cs[i])).Some? ==>
      AssignedAmong(assignments, cs[..i + 1], cs[i].major.prefix, Key(cs[i]))
  {
    assert forall d | d in cs[..i] :: d in cs[..i + 1];
    assert cs[i] in cs[..i + 1];
  }

  lemma FlattenSnoc(groups: seq<seq<Course>>, g: nat)
    requires g < |groups|
    ensures Flatten(groups[..g + 1]) == Flatten(groups[..g]) + groups[g]
  {
    assert groups[..g + 1][..g] == groups[..g];
  }

  lemma AssignedAmongAppend(assignments: seq<Assignment>, xs: seq<Course>, ys: seq<Course>)
    ensures forall q, k | AssignedAmong(assignments, xs, q, k) || AssignedAmong(assignments, ys, q, k) ::
      AssignedAmong(assignments, xs + ys, q, k)
  {
    assert forall d | d in xs || d in ys :: d in xs + ys;
  }

  /** The courses assigned to `user` in `guild`; none when the guild has no data for them. */
  function GuildAssignments(user: UserRecords.User, guild: UserRecords.GuildId): seq<Assignment> {
    if guild in user.guilds then user.guilds[guild].courses else []
  }

  /**
   * The lists `computeAndApplyRoleChanges` builds for `member`, against the
   * store `view`: the verification role first when enabled, then every
   * course in order.
   */
  function RoleChangesFor(users: map<UserId, UserRecords.User>, guild: UserRecords.GuildId, member: UserId,
    verificationEnabled: bool, view: Storage, cs: seq<Course>): RoleChanges
    requires verificationEnabled ==> member in users && view.verificationImplement.Some?
  {
    var assignments := if member in users then GuildAssignments(users[member], guild) else [];
    Join(if verificationEnabled
         then VerificationChanges(users[member].verificationStatus, view.verificationImplement.value.roleId)
         else NoChanges,
         Changes(assignments, view, cs))
  }

  /** The outer loop, over the guild's course groups. */
  method ProcessGroups(db: GuildStorageDatabase, p: Platform, assignments: seq<Assignment>, groups: seq<seq<Course>>)
    returns (ch: RoleChanges)
    requires db.Valid() && p.Valid()
    modifies db, p
    ensures db.Valid() && p.Valid()
    ensures ch == Changes(assignments, db.View(), Flatten(groups))
    ensures AssignedHaveImplements(assignments, db.View(), Flatten(groups))
    ensures forall q, k | !AssignedAmong(assignments, Flatten(groups), q, k) ::
      CourseLookup(db.View(), q, k) == CourseLookup(old(db.View()), q, k)
    ensures db.View().verificationImplement == old(db.View()).verificationImplement
    ensures old(p.log) <= p.log && forall i | |old(p.log)| <= i < |p.log| :: CreationCall(p.log[i])
  {
    ch := NoChanges;
    var g := 0;
    assert groups[..0] == [];
    while g < |groups|
      invariant 0 <= g <= |groups| && db.Valid() && p.Valid()
      invariant ch == Changes(assignments, db.View(), Flatten(groups[..g]))
      invariant AssignedHaveImplements(assignments, db.View(), Flatten(groups[..g]))
      invariant forall q, k | !AssignedAmong(assignments, Flatten(groups[..g]), q, k) ::
        CourseLookup(db.View(), q, k) == CourseLookup(old(db.View()), q, k)
      invariant db.View().verificationImplement == old(db.View()).verificationImplement
      invariant old(p.log) <= p.log && forall i | |old(p.log)| <= i < |p.log| :: CreationCall(p.log[i])
    {
      FlattenSnoc(groups, g);
      AssignedAmongAppend(assignments, Flatten(groups[..g]), groups[g]);
      ch := ProcessCourses(db, p, assignments, groups[g], Flatten(groups[..g]), ch);
      g := g + 1;
    }
    assert groups[..g] == groups;
  }

  /**
   * The computation half of `computeAndApplyRoleChanges`.  With verification
   * enabled the verification implement is fetched or created first, and a
   * member without a record throws there; otherwise the first course reads
   * the member's guild data and throws when it is missing (before any
   * course implement is touched).
   */
  method ComputeRoleChanges(db: GuildStorageDatabase, p: Platform, users: UserRecords.UserDatabase,
    guild: UserRecords.GuildId, member: UserId, verificationEnabled: bool, groups: seq<seq<Course>>)
    returns (r: Outcome<RoleChanges>)
    requires db.Valid() && p.Valid()
    modifies db, p
    ensures db.Valid() && p.Valid()
    ensures r.Thrown? <==>
      || (member !in users.users && (verificationEnabled || Flatten(groups) != []))
      || (member in users.users && guild !in users.users[member].guilds && Flatten(groups) != [])
    ensures r.Ok? && verificationEnabled ==> db.View().verificationImplement.Some?
    ensures r.Ok? ==>
      var assignments := if member in users.users then GuildAssignments(users.users[member], guild) else [];
      && AssignedHaveImplements(assignments, db.View(), Flatten(groups))
      && r.value == RoleChangesFor(users.users, guild, member, verificationEnabled, db.View(), Flatten(groups))
    ensures forall q, k ::
      CourseLookup(db.View(), q, k) == CourseLookup(old(db.View()), q, k) ||
      (member in users.users && AssignedAmong(GuildAssignments(users.users[member], guild), Flatten(groups), q, k))
    ensures old(p.log) <= p.log && forall i | |old(p.log)| <= i < |p.log| :: CreationCall(p.log[i])
  {
    var user := users.GetUserIfExists(member);
    ghost var log0 := p.log;
    var verification := VerificationStep(db, p, user, verificationEnabled);
    if verification.Thrown? {
      return Thrown(verification.reason);
    }
    ghost var log1 := p.log;
    r := CourseStep(db, p, user, guild, groups, verification.value);
    DiscordImplements.CreationsOnlyTrans(log0, log1, p.log);
  }

  /**
   * The course part of the computation: the first course reads the
   * member's guild data and throws when it is missing; otherwise every
   * course contributes in order after `prior`.
   */
  method CourseStep(db: GuildStorageDatabase, p: Platform, user: Option<UserRecords.User>,
    guild: UserRecords.GuildId, groups: seq<seq<Course>>, prior: RoleChanges) returns (r: Outcome<RoleChanges>)
    requires db.Valid() && p.Valid()
    modifies db, p
    ensures db.Valid() && p.Valid()
    ensures r.Thrown? <==> Flatten(groups) != [] && (user.None? || guild !in user.value.guilds)
    ensures r.Ok? ==>
      var assignments := if user.Some? then GuildAssignments(user.value, guild) else [];
      && AssignedHaveImplements(assignments, db.View(), Flatten(groups))
      && r.value == Join(prior, Changes(assignments, db.View(), Flatten(groups)))
    ensures db.View().verificationImplement == old(db.View()).verificationImplement
    ensures forall q, k ::
      CourseLookup(db.View(), q, k) == CourseLookup(old(db.View()), q, k) ||
      (user.Some? && AssignedAmong(GuildAssignments(user.value, guild), Flatten(groups), q, k))
    ensures old(p.log) <= p.log && forall i | |old(p.log)| <= i < |p.log| :: CreationCall(p.log[i])
  {
    if Flatten(groups) != [] && (user.None? || guild !in user.value.guilds) {
      return Thrown("the member has no data for this guild");
    }
    var assignments := if user.Some? then GuildAssignments(user.value, guild) else [];
    var courses := ProcessGroups(db, p, assignments, groups);
    r := Ok(Join(prior, courses));
  }

  /**
   * The verification part of the computation: with verification enabled the
   * implement is fetched or created, and then a member without a record
   * throws; otherwise nothing happens.
   */
  method VerificationStep(db: GuildStorageDatabase, p: Platform, user: Option<UserRecords.User>, verificationEnabled: bool)
    returns (r: Outcome<RoleChanges>)
    requires db.Valid() && p.Valid()
    modifies db, p
    ensures db.Valid() && p.Valid()
    ensures r.Thrown? <==> verificationEnabled && user.None?
    ensures !verificationEnabled ==> r == Ok(NoChanges) && db.View() == old(db.View()) && p.log == old(p.log)
    ensures r.Ok? && verificationEnabled ==>
      db.View().verificationImplement.Some? &&
      r.value == VerificationChanges(user.value.verificationStatus, db.View().verificationImplement.value.roleId)
    ensures db.View().majorImplements == old(db.View()).majorImplements
    ensures DiscordImplements.CreationsOnly(old(p.log), p.log)
  {
    if !verificationEnabled {
      return Ok(NoChanges);
    }
    var v := VerificationImplements.GetOrCreateVerificationImplement(db, p);
    if user.None? {
      return Thrown("the member has no user record");
    }
    r := Ok(VerificationChanges(user.value.verificationStatus, v.roleId));
  }

  /** The platform calls that apply the two lists, with a pause between them. */
  function ApplyCalls(member: UserId, add: seq<Id>, remove: seq<Id>): seq<Call> {
    (if add != [] then [RolesAdded(member, add)] else []) +
    (if add != [] && remove != [] then [Paused] else []) +
    (if remove != [] then [RolesRemoved(member, remove)] else [])
  }

  /**
   * `after` holds `before`, then the calls applying the lists, then only
   * deletion calls.
   */
  ghost predicate LogApplied(before: seq<Call>, after: seq<Call>, member: UserId, ch: RoleChanges) {
    var n := |before| + |ApplyCalls(member, ch.add, ch.remove)|;
    && n <= |after| && after[..n] == before + ApplyCalls(member, ch.add, ch.remove)
    && forall i | n <= i < |after| :: CourseImplements.DeletionCall(after[i])
  }

  /** The member lacks every removed role and holds every added, not removed, live role. */
  ghost predicate RolesApplied(roles: set<Id>, memberRoles: map<UserId, set<Id>>, member: UserId, ch: RoleChanges) {
    && (forall x | x in ch.remove :: x !in Platform.MemberRoles(memberRoles, member))
    && (forall x | x in ch.add && x !in ch.remove && x in roles :: x in Platform.MemberRoles(memberRoles, member))
  }

  /** Every queued course that nobody takes any more has lost its implement. */
  ghost predicate EmptyQueuedDeleted(view: Storage, users: UserRecords.UserDatabase,
    guild: UserRecords.GuildId, queued: seq<Course>)
    reads users
  {
    forall c | c in queued && users.UsersByCourse(guild, Key(c)) == {} :: Lookup(view, c).None?
  }

  /** Every queued course that somebody still takes has kept its implement from `v` to `w`. */
  ghost predicate TakenQueuedKept(v: Storage, w: Storage, users: UserRecords.UserDatabase,
    guild: UserRecords.GuildId, queued: seq<Course>)
    reads users
  {
    forall c | c in queued && users.UsersByCourse(guild, Key(c)) != {} :: Lookup(w, c) == Lookup(v, c)
  }

  /**
   * The application half: roles are added, then removed; only when some
   * role was removed are the queued courses checked, in order, for
   * deletion.  A deletion that throws ends the run.
   */
  method ApplyRoleChanges(db: GuildStorageDatabase, p: Platform, users: UserRecords.UserDatabase,
    guild: UserRecords.GuildId, member: UserId, ch: RoleChanges) returns (r: Outcome<()>)
    requires db.Valid() && p.Valid()
    modifies db, p
    ensures db.Valid() && p.Valid()
    ensures LogApplied(old(p.log), p.log, member, ch)
    ensures ch.remove == [] ==>
      r.Ok? && db.View() == old(db.View()) && p.log == old(p.log) + ApplyCalls(member, ch.add, ch.remove)
    ensures RolesApplied(p.roles, p.memberRoles, member, ch)
    ensures LookupsKeptBut(old(db.View()), db.View(), ch.queued)
    ensures r.Ok? && ch.remove != [] ==> EmptyQueuedDeleted(db.View(), users, guild, ch.queued)
    ensures TakenQueuedKept(old(db.View()), db.View(), users, guild, ch.queued)
  {
    if ch.add != [] {
      p.AddRoles(member, ch.add);
    }
    if ch.add != [] && ch.remove != [] {
      p.Pause();
    }
    if ch.remove == [] {
      return Ok(());
    }
    p.RemoveRoles(member, ch.remove);
    ghost var applied := p.log;
    assert applied == old(p.log) + ApplyCalls(member, ch.add, ch.remove);
    r := DeleteQueued(db, p, users, guild, ch.queued);
  }

  /** `for (let course of coursesToRemove) await deleteCourseImplementIfEmpty(...)`. */
  method DeleteQueued(db: GuildStorageDatabase, p: Platform, users: UserRecords.UserDatabase,
    guild: UserRecords.GuildId, queued: seq<Course>) returns (r: Outcome<()>)
    requires db.Valid() && p.Valid()
    modifies db, p
    ensures db.Valid() && p.Valid()
    ensures old(p.log) <= p.log && forall i | |old(p.log)| <= i < |p.log| :: CourseImplements.DeletionCall(p.log[i])
    ensures OnlyDeletedRolesStripped(old(p.roles), old(p.memberRoles), p.roles, p.memberRoles)
    ensures LookupsKeptBut(old(db.View()), db.View(), queued)
    ensures r.Ok? ==> EmptyQueuedDeleted(db.View(), users, guild, queued)
    ensures TakenQueuedKept(old(db.View()), db.View(), users, guild, queued)
  {
    var i := 0;
    while i < |queued|
      invariant 0 <= i <= |queued| && db.Valid() && p.Valid()
      invariant DeletionsOnly(old(p.log), p.log)
      invariant OnlyDeletedRolesStripped(old(p.roles), old(p.memberRoles), p.roles, p.memberRoles)
      invariant LookupsKeptBut(old(db.View()), db.View(), queued)
      invariant EmptyQueuedDeleted(db.View(), users, guild, queued[..i])
      invariant TakenQueuedKept(old(db.View()), db.View(), users, guild, queued)
    {
      var deleted := DeleteNext(db, p, users, guild, queued, i, old(db.View()), old(p.log), old(p.roles), old(p.memberRoles));
      if deleted.Thrown? {
        return Thrown(deleted.reason);
      }
      i := i + 1;
    }
    assert queued[..i] == queued;
    r := Ok(());
  }

  /** `after` extends `before` by deletion calls only. */
  ghost predicate DeletionsOnly(before: seq<Call>, after: seq<Call>) {
    before <= after && forall i | |before| <= i < |after| :: CourseImplements.DeletionCall(after[i])
  }

  /** Only lookups of the keys of `cs` differ between `v` and `w`. */
  ghost predicate LookupsKeptBut(v: Storage, w: Storage, cs: seq<Course>) {
    forall q, k ::
      CourseLookup(w, q, k) == CourseLookup(v, q, k) ||
      exists c | c in cs :: c.major.prefix == q && Key(c) == k
  }

  /** One iteration of the deletion loop: the course at `i` is checked and maybe deleted. */
  method DeleteNext(db: GuildStorageDatabase, p: Platform, users: UserRecords.UserDatabase,
    guild: UserRecords.GuildId, queued: seq<Course>, i: nat,
    ghost view0: Storage, ghost log0: seq<Call>, ghost roles0: set<Id>, ghost members0: map<UserId, set<Id>>)
    returns (r: Outcome<bool>)
    requires db.Valid() && p.Valid() && i < |queued|
    requires DeletionsOnly(log0, p.log) && OnlyDeletedRolesStripped(roles0, members0, p.roles, p.memberRoles)
    requires LookupsKeptBut(view0, db.View(), queued)
    requires EmptyQueuedDeleted(db.View(), users, guild, queued[..i])
    requires TakenQueuedKept(view0, db.View(), users, guild, queued)
    modifies db, p
    ensures db.Valid() && p.Valid()
    ensures DeletionsOnly(log0, p.log) && OnlyDeletedRolesStripped(roles0, members0, p.roles, p.memberRoles)
    ensures LookupsKeptBut(view0, db.View(), queued)
    ensures r.Ok? ==> EmptyQueuedDeleted(db.View(), users, guild, queued[..i + 1])
    ensures TakenQueuedKept(view0, db.View(), users, guild, queued)
  {
    var c := queued[i];
    ghost var v, log, roles, members := db.View(), p.log, p.roles, p.memberRoles;
    r := DiscordImplements.DeleteCourseImplementIfEmpty(db, p, users, guild, c);
    DeletionsOnlyTrans(log0, log, p.log);
    StrippedTrans(roles0, members0, roles, members, p.roles, p.memberRoles);
    KeptButStep(view0, v, db.View(), queued, c);
    TakenKeptStep(view0, v, db.View(), users, guild, queued, c);
    if r.Ok? {
      assert users.UsersByCourse(guild, Key(c)) == {} ==> Lookup(db.View(), c).None?;
      EmptyDeletedStep(v, db.View(), users, guild, queued, i);
    }
  }

  lemma DeletionsOnlyTrans(log0: seq<Call>, log1: seq<Call>, log2: seq<Call>)
    requires DeletionsOnly(log0, log1) && DeletionsOnly(log1, log2)
    ensures DeletionsOnly(log0, log2)
  {
    forall i | |log0| <= i < |log2| ensures CourseImplements.DeletionCall(log2[i]) {
      if i < |log1| {
        assert log2[i] == log1[i];
      }
    }
  }

  lemma StrippedTrans(roles0: set<Id>, members0: map<UserId, set<Id>>, roles1: set<Id>, members1: map<UserId, set<Id>>,
    roles2: set<Id>, members2: map<UserId, set<Id>>)
    requires OnlyDeletedRolesStripped(roles0, members0, roles1, members1)
    requires OnlyDeletedRolesStripped(roles1, members1, roles2, members2)
    ensures OnlyDeletedRolesStripped(roles0, members0, roles2, members2)
  {
    forall m ensures Platform.MemberRoles(members2, m) == Platform.MemberRoles(members0, m) - (roles0 - roles2) {
      assert Platform.MemberRoles(members2, m) == Platform.MemberRoles(members1, m) - (roles1 - roles2);
      assert Platform.MemberRoles(members1, m) == Platform.MemberRoles(members0, m) - (roles0 - roles1);
    }
  }

  lemma KeptButStep(view0: Storage, v: Storage, w: Storage, queued: seq<Course>, c: Course)
    requires LookupsKeptBut(view0, v, queued) && c in queued
    requires forall q, k | q != c.major.prefix || k != Key(c) :: CourseLookup(w, q, k) == CourseLookup(v, q, k)
    ensures LookupsKeptBut(view0, w, queued)
  {
    forall q, k ensures CourseLookup(w, q, k) == CourseLookup(view0, q, k) ||
      exists d | d in queued :: d.major.prefix == q && Key(d) == k
    {
      if q == c.major.prefix && k == Key(c) {
        assert c in queued;
      }
    }
  }

  lemma TakenKeptStep(view0: Storage, v: Storage, w: Storage, users: UserRecords.UserDatabase,
    guild: UserRecords.GuildId, queued: seq<Course>, c: Course)
    requires TakenQueuedKept(view0, v, users, guild, queued)
    requires forall q, k | q != c.major.prefix || k != Key(c) :: CourseLookup(w, q, k) == CourseLookup(v, q, k)
    requires users.UsersByCourse(guild, Key(c)) != {} ==> w == v
    ensures TakenQueuedKept(view0, w, users, guild, queued)
  {
    forall d | d in queued && users.UsersByCourse(guild, Key(d)) != {} ensures Lookup(w, d) == Lookup(view0, d) {
      if d.major.prefix == c.major.prefix && Key(d) == Key(c) {
        assert w == v;
      } else {
        assert Lookup(w, d) == Lookup(v, d);
      }
    }
  }

  lemma EmptyDeletedStep(v: Storage, w: Storage, users: UserRecords.UserDatabase, guild: UserRecords.GuildId,
    queued: seq<Course>, i: nat)
    requires i < |queued| && EmptyQueuedDeleted(v, users, guild, queued[..i])
    requires forall q, k | q != queued[i].major.prefix || k != Key(queued[i]) :: CourseLookup(w, q, k) == CourseLookup(v, q, k)
    requires users.UsersByCourse(guild, Key(queued[i])) == {} ==> Lookup(w, queued[i]).None?
    ensures EmptyQueuedDeleted(w, users, guild, queued[..i + 1])
  {
    assert queued[..i + 1] == queued[..i] + [queued[i]];
    forall d | d in queued[..i + 1] && users.UsersByCourse(guild, Key(d)) == {} ensures Lookup(w, d).None? {
      if d.major.prefix == queued[i].major.prefix && Key(d) == Key(queued[i]) {
        assert Lookup(w, d) == Lookup(w, queued[i]);
      } else {
        assert d in queued[..i];
      }
    }
  }

  /** A queued course always came with two removed roles, so a queue is never without removals. */
  lemma QueuedMeansRemoved(users: map<UserId, UserRecords.User>, guild: UserRecords.GuildId, member: UserId,
    verificationEnabled: bool, view: Storage, cs: seq<Course>)
    requires verificationEnabled ==> member in users && view.verificationImplement.Some?
    ensures var all := RoleChangesFor(users, guild, member, verificationEnabled, view, cs);
      all.queued != [] ==> all.remove != []
  {
    var assignments := if member in users then GuildAssignments(users[member], guild) else [];
    var courses := Changes(assignments, view, cs);
    if courses.queued != [] {
      var c := courses.queued[0];
      QueuedCourses(assignments, view, cs);
      UnassignedCourseRoles(assignments, view, cs, c);
    }
  }

  /**
   * `computeAndApplyRoleChanges`: the lists are computed against the store
   * as it is once every assigned course has its implement (`computedView`),
   * and applied after every creation call (`computedLog`).
   */
  method ComputeAndApplyRoleChanges(db: GuildStorageDatabase, p: Platform, users: UserRecords.UserDatabase,
    guild: UserRecords.GuildId, member: UserId, verificationEnabled: bool, groups: seq<seq<Course>>)
    returns (r: Outcome<RoleChanges>, ghost computedView: Storage, ghost computedLog: seq<Call>)
    requires db.Valid() && p.Valid()
    modifies db, p
    ensures db.Valid() && p.Valid()
    ensures old(p.log) <= computedLog <= p.log
    ensures forall i | |old(p.log)| <= i < |computedLog| :: CreationCall(computedLog[i])
    ensures ((member !in users.users && (verificationEnabled || Flatten(groups) != [])) ||
             (member in users.users && guild !in users.users[member].guilds && Flatten(groups) != [])) ==> r.Thrown?
    ensures r.Ok? ==>
      var assignments := if member in users.users then GuildAssignments(users.users[member], guild) else [];
      && AssignedHaveImplements(assignments, computedView, Flatten(groups))
      && (verificationEnabled ==> member in users.users && computedView.verificationImplement.Some?)
      && r.value == RoleChangesFor(users.users, guild, member, verificationEnabled, computedView, Flatten(groups))
    ensures r.Ok? ==>
      && LogApplied(computedLog, p.log, member, r.value)
      && RolesApplied(p.roles, p.memberRoles, member, r.value)
      && EmptyQueuedDeleted(db.View(), users, guild, r.value.queued)
      && TakenQueuedKept(computedView, db.View(), users, guild, r.value.queued)
  {
    var computed := ComputeRoleChanges(db, p, users, guild, member, verificationEnabled, groups);
    computedView, computedLog := db.View(), p.log;
    if computed.Thrown? {
      return computed, computedView, computedLog;
    }
    QueuedMeansRemoved(users.users, guild, member, verificationEnabled, computedView, Flatten(groups));
    ghost var ch := computed.value;
    assert ch.remove == [] ==> ch.queued == [];
    var applied := ApplyRoleChanges(db, p, users, guild, member, computed.value);
    LogAppliedExtends(computedLog, p.log, member, ch);
    if applied.Thrown? {
      return Thrown(applied.reason), computedView, computedLog;
    }
    assert EmptyQueuedDeleted(db.View(), users, guild, ch.queued);
    r := computed;
  }

  /** The calls of an applied change only ever extend the log. */
  lemma LogAppliedExtends(before: seq<Call>, after: seq<Call>, member: UserId, ch: RoleChanges)
    requires LogApplied(before, after, member, ch)
    ensures before <= after
  {
    var n := |before| + |ApplyCalls(member, ch.add, ch.remove)|;
    assert after[..|before|] == after[..n][..|before|] == (before + ApplyCalls(member, ch.add, ch.remove))[..|before|];
  }

  /**
   * The guild queue of `queue` as written: after run `j` the queue promise
   * is `prev.finally(() => pause.then(run))`, which takes the run's
   * rejection and otherwise keeps the settlement of `prev`.  The queue
   * starts resolved, and `.then`/`.catch` report on this settlement.
   */
  function Settled(runs: seq<Outcome<()>>, j: nat): Outcome<()>
    requires j < |runs|
  {
    var prev := if j == 0 then Ok(()) else Settled(runs, j - 1);
    if runs[j].Thrown? then runs[j] else prev
  }

  /** As written, run `j` is reported updated exactly when no run up to it has failed. */
  lemma {:induction false} SettledOkIff(runs: seq<Outcome<()>>, j: nat)
    requires j < |runs|
    ensures Settled(runs, j).Ok? <==> forall k | 0 <= k <= j :: runs[k].Ok?
  {
    if j > 0 {
      SettledOkIff(runs, j - 1);
    }
  }

  /** A failed first run makes a successful second run be reported as failed, with the first error. */
  lemma LaterSuccessReportedFailed(e: string)
    ensures Settled([Thrown(e), Ok(())], 1) == Thrown(e)
  {
  }

  /**
   * `queueRoleComputation`: each run starts with the rate-limit pause; a
   * failure is logged, not raised.  Runs of one guild are serialised by a
   * promise chain in the source; here a call is one whole run.
   */
  method QueueRoleComputation(db: GuildStorageDatabase, p: Platform, users: UserRecords.UserDatabase,
    guild: UserRecords.GuildId, member: UserId, verificationEnabled: bool, groups: seq<seq<Course>>)
    returns (updated: bool, ghost outcome: Outcome<RoleChanges>, ghost computedView: Storage, ghost computedLog: seq<Call>)
    requires db.Valid() && p.Valid()
    modifies db, p
    ensures db.Valid() && p.Valid()
    ensures |p.log| > |old(p.log)| && p.log[..|old(p.log)| + 1] == old(p.log) + [Paused]
    ensures updated <==> outcome.Ok?
    ensures old(p.log) + [Paused] <= computedLog <= p.log
    ensures forall i | |old(p.log)| + 1 <= i < |computedLog| :: CreationCall(computedLog[i])
    ensures ((member !in users.users && (verificationEnabled || Flatten(groups) != [])) ||
             (member in users.users && guild !in users.users[member].guilds && Flatten(groups) != [])) ==> !updated
    ensures updated ==>
      var assignments := if member in users.users then GuildAssignments(users.users[member], guild) else [];
      && AssignedHaveImplements(assignments, computedView, Flatten(groups))
      && (verificationEnabled ==> member in users.users && computedView.verificationImplement.Some?)
      && outcome.value == RoleChangesFor(users.users, guild, member, verificationEnabled, computedView, Flatten(groups))
    ensures updated ==>
      && LogApplied(computedLog, p.log, member, outcome.value)
      && RolesApplied(p.roles, p.memberRoles, member, outcome.value)
      && EmptyQueuedDeleted(db.View(), users, guild, outcome.value.queued)
      && TakenQueuedKept(computedView, db.View(), users, guild, outcome.value.queued)
  {
    p.Pause();
    ghost var paused := p.log;
    var r;
    r, computedView, computedLog := ComputeAndApplyRoleChanges(db, p, users, guild, member, verificationEnabled, groups);
    assert paused <= p.log;
    outcome, updated := r, r.Ok?;
  }

}
