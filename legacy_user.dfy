/**
 * The older user service (src/services/user.ts), which keeps per guild the
 * list of a member's course numbers rather than assignments.
 */
module LegacyUser {
  import opened Courses

  datatype GuildData = GuildData(courseNumbers: seq<string>, coursesLastUpdated: nat)

  /** A user record as this service creates it: only the Discord ID is set. */
  datatype User = User(discordUserId: string, guilds: map<string, GuildData>)

  /** `courses.map(course => course.number)`. */
  function Numbers(courses: seq<Course>): (r: seq<string>)
    ensures |r| == |courses| && forall i | 0 <= i < |courses| :: r[i] == courses[i].number
  {
    if courses == [] then [] else Numbers(courses[..|courses| - 1]) + [courses[|courses| - 1].number]
  }

  /**
   * The `forEach` of `addCoursesToMember` on existing data: each number is
   * pushed unless the list, as it has grown so far, already includes it.
   */
  function AppendMissing(existing: seq<string>, numbers: seq<string>): (r: seq<string>)
    ensures |r| >= |existing| && r[..|existing|] == existing
    ensures forall x :: x in r <==> x in existing || x in numbers
    ensures (forall i, j | 0 <= i < j < |existing| :: existing[i] != existing[j]) ==>
      forall i, j | 0 <= i < j < |r| :: r[i] != r[j]
  {
    if numbers == [] then existing
    else
      var prior := AppendMissing(existing, numbers[..|numbers| - 1]);
      var x := numbers[|numbers| - 1];
      assert forall y :: y in numbers <==> y in numbers[..|numbers| - 1] || y == x by {
        assert numbers == numbers[..|numbers| - 1] + [x];
      }
      if x in prior then prior else prior + [x]
  }

  /** Numbers already present add nothing. */
  lemma {:induction false} AppendMissingOfPresent(existing: seq<string>, numbers: seq<string>)
    requires forall x | x in numbers :: x in existing
    ensures AppendMissing(existing, numbers) == existing
  {
    if numbers != [] {
      AppendMissingOfPresent(existing, numbers[..|numbers| - 1]);
    }
  }

  /** `courseNumbers.filter(n => !courses.some(c => c.number === n))`. */
  function WithoutNumbers(xs: seq<string>, numbers: seq<string>): (r: seq<string>)
    ensures |r| <= |xs|
    ensures forall x :: x in r <==> x in xs && x !in numbers
  {
    if xs == [] then []
    else (if xs[0] in numbers then [] else [xs[0]]) + WithoutNumbers(xs[1..], numbers)
  }

  /** The filter keeps order: filtering a concatenation filters each part. */
  lemma {:induction false} WithoutNumbersAppend(a: seq<string>, b: seq<string>, numbers: seq<string>)
    ensures WithoutNumbers(a + b, numbers) == WithoutNumbers(a, numbers) + WithoutNumbers(b, numbers)
  {
    if a != [] {
      assert (a + b)[1..] == a[1..] + b;
      WithoutNumbersAppend(a[1..], b, numbers);
    } else {
      assert a + b == b;
    }
  }

  /** Nothing is dropped when no number matches. */
  lemma {:induction false} WithoutNumbersOfDisjoint(xs: seq<string>, numbers: seq<string>)
    requires forall x | x in xs :: x !in numbers
    ensures WithoutNumbers(xs, numbers) == xs
  {
    if xs != [] {
      WithoutNumbersOfDisjoint(xs[1..], numbers);
      assert xs == [xs[0]] + xs[1..];
    }
  }

  /** `new UserService(guildContext)` over the user collection. */
  class UserService {
    const guild: string
    var users: map<string, User>

    constructor (guild: string, users: map<string, User>)
      ensures this.guild == guild && this.users == users
    {
      this.guild, this.users := guild, users;
    }

    method FindOrCreateUser(id: string) returns (u: User)
      modifies this
      ensures id in old(users) ==> u == old(users)[id] && users == old(users)
      ensures id !in old(users) ==> u == User(id, map[]) && users == old(users)[id := u]
    {
      if id in users {
        return users[id];
      }
      u := User(id, map[]);
      users := users[id := u];
    }

    /**
     * Without data for the guild the list is the given numbers as they
     * are, duplicates included; otherwise only numbers not yet present are
     * appended, and the timestamp is left alone.
     */
    method AddCoursesToMember(member: string, courses: seq<Course>, now: nat)
      modifies this
      ensures member in users
      ensures var u := if member in old(users) then old(users)[member] else User(member, map[]);
        users == old(users)[member := u.(guilds := u.guilds[guild :=
          if guild in u.guilds
          then u.guilds[guild].(courseNumbers := AppendMissing(u.guilds[guild].courseNumbers, Numbers(courses)))
          else GuildData(Numbers(courses), now)])]
    {
      var u := FindOrCreateUser(member);
      if guild !in u.guilds {
        users := users[member := u.(guilds := u.guilds[guild := GuildData(Numbers(courses), now)])];
        return;
      }
      var data := u.guilds[guild];
      var numbers := AppendNumbers(data.courseNumbers, courses);
      users := users[member := u.(guilds := u.guilds[guild := data.(courseNumbers := numbers)])];
    }

    /** The loop that pushes each course number not yet in the list. */
    static method AppendNumbers(start: seq<string>, courses: seq<Course>) returns (numbers: seq<string>)
      ensures numbers == AppendMissing(start, Numbers(courses))
    {
      numbers := start;
      var i := 0;
      while i < |courses|
        invariant 0 <= i <= |courses|
        invariant numbers == AppendMissing(start, Numbers(courses[..i]))
      {
        assert Numbers(courses[..i + 1]) == Numbers(courses[..i]) + [courses[i].number] by {
          assert courses[..i + 1][..i] == courses[..i];
        }
        if courses[i].number !in numbers {
          numbers := numbers + [courses[i].number];
        }
        i := i + 1;
      }
      assert courses[..i] == courses;
    }

    /** Without data for the guild an empty list is created; otherwise every matching number is dropped. */
    method RemoveCoursesFromMember(member: string, courses: seq<Course>, now: nat)
      modifies this
      ensures member in users
      ensures var u := if member in old(users) then old(users)[member] else User(member, map[]);
        users == old(users)[member := u.(guilds := u.guilds[guild :=
          if guild in u.guilds
          then u.guilds[guild].(courseNumbers := WithoutNumbers(u.guilds[guild].courseNumbers, Numbers(courses)))
          else GuildData([], now)])]
    {
      var u := FindOrCreateUser(member);
      if guild !in u.guilds {
        users := users[member := u.(guilds := u.guilds[guild := GuildData([], now)])];
        return;
      }
      var data := u.guilds[guild];
      users := users[member := u.(guilds := u.guilds[guild :=
        data.(courseNumbers := WithoutNumbers(data.courseNumbers, Numbers(courses)))])];
    }
  }
}
