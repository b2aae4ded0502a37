/**
 * Per-user records (src/services/database/user.ts): each user's course
 * assignments per guild, their ban flag and their verification state.
 */
module UserRecords {
  import opened Wrappers
  import opened Courses
  import Sorting

  type UserId = string
  type GuildId = string

  datatype VerificationStatus = Unverified | CodeSent | Verified

  /** A user's data for one guild; `coursesLastUpdated` is a day count. */
  datatype GuildData = GuildData(courses: seq<Assignment>, coursesLastUpdated: nat)

  datatype User = User(
    discordUserId: UserId,
    studentId: Option<string>,
    verificationStatus: VerificationStatus,
    verificationCode: Option<string>,
    banned: bool,
    guilds: map<GuildId, GuildData>)

  /** The schema defaults of a new user document. */
  function NewUser(id: UserId): (u: User)
    ensures u.discordUserId == id && u.guilds == map[]
    ensures u.verificationStatus == Unverified && !u.banned
    ensures u.studentId.None? && u.verificationCode.None?
  {
    User(id, None, Unverified, None, false, map[])
  }

  function KeySet(s: seq<Assignment>): set<string> {
    set a | a in s :: a.courseKey
  }

  /**
   * No two entries share a course key: entries with equal keys are equal,
   * and no entry occurs twice.
   */
  ghost predicate DistinctKeys(s: seq<Assignment>) {
    && (forall a, b | a in s && b in s && a.courseKey == b.courseKey :: a == b)
    && (forall a | a in multiset(s) :: multiset(s)[a] == 1)
  }

  /** `findOrCreateUser`: the stored user, or a new one; with a guild, that guild's data exists afterwards. */
  function FoundOrCreated(users: map<UserId, User>, id: UserId, guild: Option<GuildId>, now: nat): (u: User)
    ensures id !in users ==> u.(guilds := map[]) == NewUser(id)
    ensures id in users ==> u.(guilds := users[id].guilds) == users[id]
    ensures guild.Some? ==> guild.value in u.guilds
    ensures guild.Some? && id in users && guild.value in users[id].guilds ==> u == users[id]
    ensures guild.Some? && (id !in users || guild.value !in users[id].guilds) ==>
      u.guilds[guild.value] == GuildData([], now)
    ensures forall g | guild != Some(g) ::
      (g in u.guilds <==> id in users && g in users[id].guilds) &&
      (g in u.guilds ==> u.guilds[g] == users[id].guilds[g])
  {
    var u := if id in users then users[id] else NewUser(id);
    match guild
    case None => u
    case Some(g) => if g in u.guilds then u else u.(guilds := u.guilds[g := GuildData([], now)])
  }

  /** `lodash.unionBy` by course key restricted to keys not in `seen`: first occurrences, in order. */
  function FirstByKey(s: seq<Assignment>, seen: set<string>): (r: seq<Assignment>)
    ensures KeySet(r) == KeySet(s) - seen
    ensures DistinctKeys(r)
    ensures forall a | a in r :: a in s
    ensures forall k | k in KeySet(r) :: FindAssignment(r, k) == FindAssignment(s, k)
    decreases |s|
  {
    if s == [] then []
    else
      assert s == [s[0]] + s[1..];
      if s[0].courseKey in seen then
        FirstByKey(s[1..], seen)
      else
        var rest := FirstByKey(s[1..], seen + {s[0].courseKey});
        FirstByKeyCons(s, seen, rest);
        [s[0]] + rest
  }

  /** The step of `FirstByKey` that keeps the head of `s`. */
  lemma FirstByKeyCons(s: seq<Assignment>, seen: set<string>, rest: seq<Assignment>)
    requires s != [] && s == [s[0]] + s[1..] && s[0].courseKey !in seen
    requires KeySet(rest) == KeySet(s[1..]) - (seen + {s[0].courseKey})
    requires DistinctKeys(rest)
    requires forall a | a in rest :: a in s[1..]
    requires forall k | k in KeySet(rest) :: FindAssignment(rest, k) == FindAssignment(s[1..], k)
    ensures var r := [s[0]] + rest;
      && KeySet(r) == KeySet(s) - seen
      && DistinctKeys(r)
      && (forall a | a in r :: a in s)
      && (forall k | k in KeySet(r) :: FindAssignment(r, k) == FindAssignment(s, k))
  {
    var r := [s[0]] + rest;
    assert r[1..] == rest;
    assert forall a | a in rest :: a.courseKey != s[0].courseKey by {
      forall a | a in rest ensures a.courseKey != s[0].courseKey {
        assert a.courseKey in KeySet(rest);
      }
    }
    assert forall a | a in r :: a == s[0] || a in rest;
    assert KeySet(r) == KeySet(rest) + {s[0].courseKey};
  }

  lemma FindInPrefix(a: seq<Assignment>, b: seq<Assignment>, k: string)
    ensures k in KeySet(a) ==> FindAssignment(a + b, k) == FindAssignment(a, k)
    ensures k !in KeySet(a) ==> FindAssignment(a + b, k) == FindAssignment(b, k)
  {
    if a != [] {
      assert (a + b)[1..] == a[1..] + b;
      if a[0].courseKey != k {
        assert k in KeySet(a) ==> k in KeySet(a[1..]) by {
          if k in KeySet(a) {
            var x :| x in a && x.courseKey == k;
            assert x != a[0];
          }
        }
        assert KeySet(a[1..]) <= KeySet(a);
        FindInPrefix(a[1..], b, k);
      }
    } else {
      assert a + b == b;
    }
  }

  /** `_.unionBy(a, b, key)`: every key of either list once, each with its first entry, `a` first. */
  function UnionByKey(a: seq<Assignment>, b: seq<Assignment>): (r: seq<Assignment>)
    ensures KeySet(r) == KeySet(a) + KeySet(b)
    ensures DistinctKeys(r)
    ensures forall k | k in KeySet(a) :: FindAssignment(r, k) == FindAssignment(a, k)
    ensures forall k | k in KeySet(b) - KeySet(a) :: FindAssignment(r, k) == FindAssignment(b, k)
  {
    var r := FirstByKey(a + b, {});
    assert KeySet(a + b) == KeySet(a) + KeySet(b) by {
      assert forall x :: x in a + b <==> x in a || x in b;
    }
    forall k | k in KeySet(a) + KeySet(b) ensures FindAssignment(r, k) == FindAssignment(a + b, k) {
    }
    forall k ensures FindAssignment(a + b, k) == (if k in KeySet(a) then FindAssignment(a, k) else FindAssignment(b, k)) {
      FindInPrefix(a, b, k);
    }
    r
  }

  /** A permutation keeps the key set, distinct keys and the entry found for each key. */
  lemma PermutationKeepsKeys(x: seq<Assignment>, y: seq<Assignment>)
    requires multiset(x) == multiset(y) && DistinctKeys(y)
    ensures KeySet(x) == KeySet(y) && DistinctKeys(x)
    ensures forall k :: FindAssignment(x, k) == FindAssignment(y, k)
  {
    assert forall a :: a in x <==> a in multiset(x);
    assert forall a :: a in y <==> a in multiset(y);
    forall k ensures FindAssignment(x, k) == FindAssignment(y, k) {
      var fx, fy := FindAssignment(x, k), FindAssignment(y, k);
      if fx.Some? {
        assert fx.value in y;
      }
      if fy.Some? {
        assert fy.value in x;
      }
    }
  }

  /** The entries `addCoursesToMember` contributes: each course's key, not TA. */
  function NewAssignments(courses: seq<Course>): (r: seq<Assignment>)
    ensures |r| == |courses|
    ensures forall i | 0 <= i < |r| :: r[i] == Assignment(Key(courses[i]), false)
  {
    if courses == [] then [] else [Assignment(Key(courses[0]), false)] + NewAssignments(courses[1..])
  }

  function CourseKeys(courses: seq<Course>): set<string> {
    set c | c in courses :: Key(c)
  }

  /**
   * The list after `addCoursesToMember`: the key-union of the old entries
   * and the new ones, each key once, sorted by key; old entries keep their
   * TA flag and new entries are not TA.
   */
  function AddedCourses(prior: seq<Assignment>, courses: seq<Course>): (r: seq<Assignment>)
    ensures Sorting.SortedBy(r, AssignmentKey)
    ensures DistinctKeys(r)
    ensures KeySet(r) == KeySet(prior) + CourseKeys(courses)
    ensures forall k | k in KeySet(prior) :: FindAssignment(r, k) == FindAssignment(prior, k)
    ensures forall k | k in KeySet(r) - KeySet(prior) :: FindAssignment(r, k) == Some(Assignment(k, false))
  {
    var added := NewAssignments(courses);
    assert KeySet(added) == CourseKeys(courses) by {
      forall k | k in CourseKeys(courses) ensures k in KeySet(added) {
        var c :| c in courses && Key(c) == k;
        var i :| 0 <= i < |courses| && courses[i] == c;
        assert added[i] in added;
      }
    }
    var u := UnionByKey(prior, added);
    var r := Sorting.SortBy(u, AssignmentKey);
    PermutationKeepsKeys(r, u);
    forall k | k in KeySet(r) - KeySet(prior) ensures FindAssignment(r, k) == Some(Assignment(k, false)) {
      var f := FindAssignment(added, k);
      assert f.Some?;
      var i :| 0 <= i < |added| && added[i] == f.value;
    }
    r
  }

  function WithoutKeys(s: seq<Assignment>, keys: set<string>): (r: seq<Assignment>)
    ensures forall a | a in r :: a in s && a.courseKey !in keys
    ensures forall a | a in s && a.courseKey !in keys :: a in r
    ensures multiset(r) <= multiset(s)
  {
    if s == [] then []
    else
      assert s == [s[0]] + s[1..];
      if s[0].courseKey in keys then WithoutKeys(s[1..], keys)
      else [s[0]] + WithoutKeys(s[1..], keys)
  }

  /**
   * The list after `removeCoursesFromMember`: no entry with a removed key,
   * every other entry kept unchanged, sorted by key.
   */
  function RemovedCourses(prior: seq<Assignment>, courses: seq<Course>): (r: seq<Assignment>)
    ensures Sorting.SortedBy(r, AssignmentKey)
    ensures forall a | a in r :: a.courseKey !in CourseKeys(courses)
    ensures forall a | a in prior :: a in r <==> a.courseKey !in CourseKeys(courses)
    ensures multiset(r) <= multiset(prior)
  {
    var kept := WithoutKeys(prior, CourseKeys(courses));
    var r := Sorting.SortBy(kept, AssignmentKey);
    assert forall a :: a in r <==> a in multiset(r);
    assert forall a :: a in kept <==> a in multiset(kept);
    r
  }

  /** The list `toggleTAStatusForMember` leaves: the flag flips exactly where the key is given. */
  function Toggled(s: seq<Assignment>, keys: set<string>): (r: seq<Assignment>)
    ensures |r| == |s|
    ensures forall i | 0 <= i < |s| ::
      r[i].courseKey == s[i].courseKey && r[i].isTA == (s[i].isTA != (s[i].courseKey in keys))
  {
    if s == [] then [] else [s[0].(isTA := s[0].isTA != (s[0].courseKey in keys))] + Toggled(s[1..], keys)
  }

  /** Toggling the same keys twice gives the list back. */
  lemma ToggledTwice(s: seq<Assignment>, keys: set<string>)
    ensures Toggled(Toggled(s, keys), keys) == s
  {
    var r := Toggled(Toggled(s, keys), keys);
    assert forall i | 0 <= i < |s| :: r[i] == s[i];
  }

  /** Toggling keys the list does not hold changes nothing. */
  lemma ToggledOfAbsent(s: seq<Assignment>, keys: set<string>)
    requires forall a | a in s :: a.courseKey !in keys
    ensures Toggled(s, keys) == s
  {
    var r := Toggled(s, keys);
    assert forall i | 0 <= i < |s| :: r[i] == s[i] by {
      forall i | 0 <= i < |s| ensures r[i] == s[i] {
        assert s[i] in s;
      }
    }
  }

  /** The loop of `toggleTAStatusForMember` over the member's list. */
  method ToggledCourses(s: seq<Assignment>, keys: set<string>) returns (r: seq<Assignment>)
    ensures r == Toggled(s, keys)
    ensures |r| == |s|
    ensures forall i | 0 <= i < |s| ::
      r[i].courseKey == s[i].courseKey && r[i].isTA == (s[i].isTA != (s[i].courseKey in keys))
  {
    r := s;
    var i := 0;
    while i < |r|
      invariant 0 <= i <= |r| == |s|
      invariant forall j | 0 <= j < i ::
        r[j].courseKey == s[j].courseKey && r[j].isTA == (s[j].isTA != (s[j].courseKey in keys))
      invariant r[i..] == s[i..]
    {
      if r[i].courseKey in keys {
        r := r[i := r[i].(isTA := !r[i].isTA)];
      }
      assert r[i + 1..] == s[i + 1..] by {
        assert forall j | i + 1 <= j < |r| :: r[j] == r[i..][j - i] == s[i..][j - i];
      }
      i := i + 1;
    }
    assert forall j | 0 <= j < |s| :: r[j] == Toggled(s, keys)[j];
  }

  /** Toggling never adds or removes a key. */
  lemma {:induction false} ToggleKeepsKeys(s: seq<Assignment>, r: seq<Assignment>)
    requires |r| == |s| && forall i | 0 <= i < |s| :: r[i].courseKey == s[i].courseKey
    ensures KeySet(r) == KeySet(s)
  {
    forall k | k in KeySet(s) ensures k in KeySet(r) {
      var a :| a in s && a.courseKey == k;
      var i :| 0 <= i < |s| && s[i] == a;
      assert r[i] in r;
    }
    forall k | k in KeySet(r) ensures k in KeySet(s) {
      var a :| a in r && a.courseKey == k;
      var i :| 0 <= i < |r| && r[i] == a;
      assert s[i] in s;
    }
  }

  /** A guild's user record with its course list replaced and the update time refreshed. */
  function WithCourses(u: User, guild: GuildId, courses: seq<Assignment>, now: nat): (r: User)
    ensures r.(guilds := u.guilds) == u
    ensures r.guilds == u.guilds[guild := GuildData(courses, now)]
  {
    u.(guilds := u.guilds[guild := GuildData(courses, now)])
  }

  /** Writing a key twice keeps only the second value. */
  lemma Overwrite<K, V>(m: map<K, V>, k: K, v: V, w: V)
    ensures m[k := v][k := w] == m[k := w]
  {
  }

  class UserDatabase {
    var users: map<UserId, User>

    constructor ()
      ensures users == map[]
    {
      users := map[];
    }

    method GetUserIfExists(id: UserId) returns (u: Option<User>)
      ensures u.Some? <==> id in users
      ensures u.Some? ==> u.value == users[id]
    {
      u := if id in users then Some(users[id]) else None;
    }

    method FindOrCreateUser(id: UserId, guild: Option<GuildId>, now: nat) returns (u: User)
      modifies this
      ensures u == FoundOrCreated(old(users), id, guild, now)
      ensures users == old(users)[id := u]
    {
      var found := GetUserIfExists(id);
      u := if found.Some? then found.value else NewUser(id);
      users := users[id := u];
      if guild.Some? && guild.value !in u.guilds {
        u := u.(guilds := u.guilds[guild.value := GuildData([], now)]);
        users := users[id := u];
      }
    }

    method AddCoursesToMember(guild: GuildId, member: UserId, courses: seq<Course>, now: nat)
      modifies this
      ensures var u := FoundOrCreated(old(users), member, Some(guild), now);
        users == old(users)[member := WithCourses(u, guild, AddedCourses(u.guilds[guild].courses, courses), now)]
    {
      var u := FindOrCreateUser(member, Some(guild), now);
      var list := AddedCourses(u.guilds[guild].courses, courses);
      users := users[member := WithCourses(u, guild, list, now)];
      Overwrite(old(users), member, u, users[member]);
    }

    method RemoveCoursesFromMember(guild: GuildId, member: UserId, courses: seq<Course>, now: nat)
      modifies this
      ensures var u := FoundOrCreated(old(users), member, Some(guild), now);
        users == old(users)[member := WithCourses(u, guild, RemovedCourses(u.guilds[guild].courses, courses), now)]
    {
      var u := FindOrCreateUser(member, Some(guild), now);
      var list := RemovedCourses(u.guilds[guild].courses, courses);
      users := users[member := WithCourses(u, guild, list, now)];
      Overwrite(old(users), member, u, users[member]);
    }

    method RemoveAllCoursesFromMember(guild: GuildId, member: UserId, now: nat)
      modifies this
      ensures var u := FoundOrCreated(old(users), member, Some(guild), now);
        users == old(users)[member := WithCourses(u, guild, [], now)]
    {
      var u := FindOrCreateUser(member, Some(guild), now);
      users := users[member := WithCourses(u, guild, [], now)];
      Overwrite(old(users), member, u, users[member]);
    }

    /** `setBanned`; the source's default argument is `true`. */
    method SetBanned(id: UserId, banned: bool)
      modifies this
      ensures users == old(users)[id := FoundOrCreated(old(users), id, None, 0).(banned := banned)]
    {
      var u := FindOrCreateUser(id, None, 0);
      users := users[id := u.(banned := banned)];
      Overwrite(old(users), id, u, users[id]);
    }

    method LeaveGuild(guild: GuildId, member: UserId)
      modifies this
      ensures member in users
      ensures var u := FoundOrCreated(old(users), member, None, 0);
        users == old(users)[member := u.(guilds := u.guilds - {guild})]
    {
      var u := FindOrCreateUser(member, None, 0);
      users := users[member := u.(guilds := u.guilds - {guild})];
      Overwrite(old(users), member, u, users[member]);
    }

    /** Flips the TA flag of the listed courses the member has; adds and removes nothing. */
    method ToggleTAStatusForMember(guild: GuildId, member: UserId, courses: seq<Course>, now: nat)
      modifies this
      ensures member in users
      ensures var u := FoundOrCreated(old(users), member, Some(guild), now);
        && users.Keys == old(users).Keys + {member}
        && (forall id | id in users && id != member :: users[id] == old(users)[id])
        && users[member].(guilds := u.guilds) == u
        && users[member].guilds.Keys == u.guilds.Keys
        && (forall g | g in u.guilds && g != guild :: users[member].guilds[g] == u.guilds[g])
        && var before, after := u.guilds[guild].courses, users[member].guilds[guild];
        && after.coursesLastUpdated == now
        && |after.courses| == |before|
        && KeySet(after.courses) == KeySet(before)
        && forall i | 0 <= i < |before| ::
             after.courses[i].courseKey == before[i].courseKey &&
             after.courses[i].isTA == (before[i].isTA != (before[i].courseKey in CourseKeys(courses)))
      ensures var u := FoundOrCreated(old(users), member, Some(guild), now);
        users == old(users)[member := WithCourses(u, guild, Toggled(u.guilds[guild].courses, CourseKeys(courses)), now)]
    {
      var u := FindOrCreateUser(member, Some(guild), now);
      var before := u.guilds[guild].courses;
      var list := ToggledCourses(before, CourseKeys(courses));
      ToggleKeepsKeys(before, list);
      users := users[member := WithCourses(u, guild, list, now)];
      Overwrite(old(users), member, u, users[member]);
    }

    /** `getUsersByCourse`: the users whose data for `guild` holds the course key. */
    function UsersByCourse(guild: GuildId, key: string): (r: set<UserId>)
      reads this
      ensures forall id :: id in r <==>
        id in users && guild in users[id].guilds && key in KeySet(users[id].guilds[guild].courses)
    {
      set id | id in users && guild in users[id].guilds && key in KeySet(users[id].guilds[guild].courses)
    }

    /** The code comes from a random generator in the source; here it is a parameter. */
    method GenerateAndStoreVerificationCode(id: UserId, studentId: string, code: string) returns (r: string)
      modifies this
      ensures r == code
      ensures users == old(users)[id := FoundOrCreated(old(users), id, None, 0).(
        studentId := Some(studentId), verificationCode := Some(code), verificationStatus := CodeSent)]
    {
      var u := FindOrCreateUser(id, None, 0);
      users := users[id := u.(studentId := Some(studentId), verificationCode := Some(code), verificationStatus := CodeSent)];
      Overwrite(old(users), id, u, users[id]);
      r := code;
    }

    /** An absent or empty student ID leaves the stored one in place. */
    method SetUserVerified(id: UserId, studentId: Option<string>)
      modifies this
      ensures id in users
      ensures var u := FoundOrCreated(old(users), id, None, 0);
        && users == old(users)[id := users[id]]
        && users[id].verificationStatus == Verified
        && users[id].verificationCode.None?
        && users[id].studentId == (if studentId.Some? && studentId.value != "" then studentId else u.studentId)
        && users[id].(verificationStatus := u.verificationStatus, verificationCode := u.verificationCode, studentId := u.studentId) == u
    {
      var u := FindOrCreateUser(id, None, 0);
      var v := u.(verificationStatus := Verified, verificationCode := None);
      if studentId.Some? && studentId.value != "" {
        v := v.(studentId := studentId);
      }
      users := users[id := v];
      Overwrite(old(users), id, u, users[id]);
    }
  }
}
