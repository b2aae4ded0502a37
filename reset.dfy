/**
 * The selection step of a course reset (src/services/reset.ts): which users
 * have stale course assignments, and which guild members they are.
 * Timestamps are day counts; the unassignment itself is the member-update
 * queue's work and is not part of this module.
 */
module Reset {
  import UserRecords

  /** `resetCourseAssignments(gracePeriodDays = 30)`. */
  const DefaultGracePeriodDays: nat := 30

  /** A user whose courses in `guild` have not been updated for more than `grace` days. */
  predicate Stale(u: UserRecords.User, guild: UserRecords.GuildId, now: int, grace: int) {
    guild in u.guilds && |u.guilds[guild].courses| > 0 && now - u.guilds[guild].coursesLastUpdated > grace
  }

  /** The stored users to reset, in the order they were read. */
  function UsersToReset(users: seq<UserRecords.User>, guild: UserRecords.GuildId, now: int, grace: int)
    : (r: seq<UserRecords.User>)
    ensures forall u :: u in r <==> u in users && Stale(u, guild, now, grace)
    ensures |r| <= |users|
  {
    if users == [] then []
    else
      var rest := UsersToReset(users[1..], guild, now, grace);
      if Stale(users[0], guild, now, grace) then [users[0]] + rest else rest
  }

  function UserIds(users: seq<UserRecords.User>): (ids: seq<UserRecords.UserId>)
    ensures |ids| == |users| && forall i | 0 <= i < |users| :: ids[i] == users[i].discordUserId
  {
    if users == [] then [] else [users[0].discordUserId] + UserIds(users[1..])
  }

  /** The fetched members whose IDs were selected, in the order they were fetched. */
  function MembersToReset(members: seq<UserRecords.UserId>, ids: seq<UserRecords.UserId>): (r: seq<UserRecords.UserId>)
    ensures forall m :: m in r <==> m in members && m in ids
    ensures |r| <= |members|
  {
    if members == [] then []
    else
      var rest := MembersToReset(members[1..], ids);
      if members[0] in ids then [members[0]] + rest else rest
  }

  /**
   * The count `resetCourseAssignments` returns: a member is reset exactly
   * when a stored user with that ID has stale courses in this guild.
   */
  function ResetCount(users: seq<UserRecords.User>, members: seq<UserRecords.UserId>,
    guild: UserRecords.GuildId, now: int, grace: int): (n: nat)
    ensures n <= |members|
  {
    |MembersToReset(members, UserIds(UsersToReset(users, guild, now, grace)))|
  }

  /** Who is reset, stated without the intermediate lists. */
  lemma ResetMembership(users: seq<UserRecords.User>, members: seq<UserRecords.UserId>,
    guild: UserRecords.GuildId, now: int, grace: int, m: UserRecords.UserId)
    ensures m in MembersToReset(members, UserIds(UsersToReset(users, guild, now, grace))) <==>
      m in members && exists u | u in users :: u.discordUserId == m && Stale(u, guild, now, grace)
  {
    var selected := UsersToReset(users, guild, now, grace);
    var ids := UserIds(selected);
    if m in ids {
      var i :| 0 <= i < |ids| && ids[i] == m;
      assert selected[i] in users;
    }
    if exists u | u in users :: u.discordUserId == m && Stale(u, guild, now, grace) {
      var u :| u in users && u.discordUserId == m && Stale(u, guild, now, grace);
      var i :| 0 <= i < |selected| && selected[i] == u;
      assert ids[i] == m;
    }
  }

  predicate Distinct<T(==)>(s: seq<T>) {
    forall i, j | 0 <= i < j < |s| :: s[i] != s[j]
  }

  /**
   * With no member fetched twice, no more members are reset than users
   * were selected: the count either matches or falls short, the case the
   * source logs a caution for.
   */
  lemma {:induction false} CountAtMostSelected(users: seq<UserRecords.User>, members: seq<UserRecords.UserId>,
    guild: UserRecords.GuildId, now: int, grace: int)
    requires Distinct(members)
    ensures ResetCount(users, members, guild, now, grace) <= |UsersToReset(users, guild, now, grace)|
  {
    var ids := UserIds(UsersToReset(users, guild, now, grace));
    var r := MembersToReset(members, ids);
    FilterKeepsDistinct(members, ids);
    DistinctCard(r);
    CardOfSeq(ids);
    SubsetCard(set m | m in r, set m | m in ids);
  }

  lemma {:induction false} SubsetCard<T>(a: set<T>, b: set<T>)
    requires a <= b
    ensures |a| <= |b|
  {
    if a != {} {
      var x :| x in a;
      SubsetCard(a - {x}, b - {x});
    }
  }

  lemma {:induction false} FilterKeepsDistinct(members: seq<UserRecords.UserId>, ids: seq<UserRecords.UserId>)
    requires Distinct(members)
    ensures Distinct(MembersToReset(members, ids))
  {
    if members != [] {
      FilterKeepsDistinct(members[1..], ids);
      assert members[0] !in members[1..];
    }
  }

  lemma {:induction false} DistinctCard<T>(s: seq<T>)
    requires Distinct(s)
    ensures |set x | x in s| == |s|
  {
    if s != [] {
      DistinctCard(s[1..]);
      assert (set x | x in s) == (set x | x in s[1..]) + {s[0]};
      assert s[0] !in s[1..];
    }
  }

  lemma {:induction false} CardOfSeq<T>(s: seq<T>)
    ensures |set x | x in s| <= |s|
  {
    if s != [] {
      CardOfSeq(s[1..]);
      assert (set x | x in s) == (set x | x in s[1..]) + {s[0]};
    }
  }
}
