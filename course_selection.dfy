/**
 * The course-selection channel controller
 * (src/controllers/channel/course-selection.ts, and its older copy
 * src/controllers/course-selection.ts, which has the same logic): dispatch
 * on the first word, then the validation chain of a join or leave request.
 *
 * The controller reads the parsed request as an object from major prefix
 * (`""` when none was written) to course numbers; `numbers` is that object.
 */
module CourseSelection {
  import opened Wrappers
  import opened Courses
  import Text
  import Dict
  import LegacyUser
  import CourseService
  import UserRecords

  type NumbersByMajor = seq<Dict.Entry<seq<string>>>

  /** `guildContext.majors`, keyed by prefix in configuration order. */
  type Majors = seq<Dict.Entry<Major>>

  datatype Action = Join | Leave | ToggleTA | Help

  /** What the lower-cased message starts with decides the action; `join` is tried first, then `leave`, then `ta`. */
  function Dispatch(content: string): (a: Action)
    ensures a == Join <==> Text.StartsWith(Text.ToLower(content), "join")
    ensures a == Leave <==> !Text.StartsWith(Text.ToLower(content), "join") && Text.StartsWith(Text.ToLower(content), "leave")
    ensures a == ToggleTA <==>
      !Text.StartsWith(Text.ToLower(content), "join") && !Text.StartsWith(Text.ToLower(content), "leave") &&
      Text.StartsWith(Text.ToLower(content), "ta")
  {
    var lower := Text.ToLower(content);
    if Text.StartsWith(lower, "join") then Join
    else if Text.StartsWith(lower, "leave") then Leave
    else if Text.StartsWith(lower, "ta") then ToggleTA
    else Help
  }

  lemma LowerIdempotent(s: string)
    ensures Text.ToLower(Text.ToLower(s)) == Text.ToLower(s)
  {
  }

  /** The letter case of a request never changes its action. */
  lemma DispatchIgnoresCase(content: string)
    ensures Dispatch(Text.ToLower(content)) == Dispatch(content)
  {
    LowerIdempotent(content);
  }

  /** `_.union(a, b)`: every value of `a` and `b`, each once. */
  function Union(a: seq<string>, b: seq<string>): (r: seq<string>)
    ensures forall x :: x in r <==> x in a || x in b
    ensures forall i, j | 0 <= i < j < |r| :: r[i] != r[j]
  {
    assert forall x :: x in a + b <==> x in a || x in b;
    LegacyUser.AppendMissing([], a + b)
  }

  /**
   * `disambiguateNumbers`: `Ok(None)` is the `false` answer, `Ok(Some(d))`
   * the `true` answer with the object as it is left.  With no major
   * configured the source dereferences `undefined` and throws.
   */
  function Disambiguate(numbers: NumbersByMajor, majors: Majors): (r: Outcome<Option<NumbersByMajor>>)
    requires Dict.DistinctKeys(numbers)
    ensures Dict.Get(numbers, "").None? ==> r == Ok(Some(numbers))
    ensures Dict.Get(numbers, "").Some? && |majors| > 1 ==> r == Ok(None)
    ensures Dict.Get(numbers, "").Some? && |majors| == 0 ==> r.Thrown?
    ensures Dict.Get(numbers, "").Some? && |majors| == 1 ==>
      var p, blank := majors[0].value.prefix, Dict.Get(numbers, "").value;
      && r.Ok? && r.value.Some?
      && Dict.DistinctKeys(r.value.value)
      && Dict.Get(r.value.value, "").None?
      && (forall q | q != "" && q != p :: Dict.Get(r.value.value, q) == Dict.Get(numbers, q))
      && (p != "" ==>
            Dict.Get(r.value.value, p) ==
            Some(if Dict.Get(numbers, p).None? then blank else Union(Dict.Get(numbers, p).value, blank)))
  {
    match Dict.Get(numbers, "")
    case None => Ok(Some(numbers))
    case Some(blank) =>
      if |majors| > 1 then Ok(None)
      else if |majors| == 0 then Thrown("no major configured")
      else
        var p := majors[0].value.prefix;
        var merged := match Dict.Get(numbers, p)
          case None => blank
          case Some(existing) => Union(existing, blank);
        Ok(Some(Dict.Delete(Dict.Set(numbers, p, merged), "")))
  }

  /** `getInvalidMajors`: the non-empty prefixes that are not configured, in order. */
  function GetInvalidMajors(prefixes: seq<string>, majors: Majors): (r: seq<string>)
    ensures forall x :: x in r <==> x in prefixes && x != "" && Dict.Get(majors, x).None?
  {
    if prefixes == [] then []
    else
      var head := if prefixes[0] != "" && Dict.Get(majors, prefixes[0]).None? then [prefixes[0]] else [];
      head + GetInvalidMajors(prefixes[1..], majors)
  }

  /** Filtering keeps order: the invalid prefixes of a concatenation are those of each part. */
  lemma {:induction false} GetInvalidMajorsAppend(a: seq<string>, b: seq<string>, majors: Majors)
    ensures GetInvalidMajors(a + b, majors) == GetInvalidMajors(a, majors) + GetInvalidMajors(b, majors)
  {
    if a == [] {
      assert a + b == b;
    } else {
      assert (a + b)[1..] == a[1..] + b;
      GetInvalidMajorsAppend(a[1..], b, majors);
    }
  }

  /** Why a request is turned down; each becomes the reply text followed by an example. */
  datatype Rejection =
    | NoCourseNumbers
    | NeedsMajorPrefixes
    | InvalidMajors(prefixes: seq<string>)
    | LookupFailed
    | NoneValid(invalidCourseNames: seq<string>)

  /** A request either resolves, is rejected, or crashes on a dereference of `undefined`. */
  datatype RequestResult = Accepted(resolution: CourseService.Resolution) | Rejected(rejection: Rejection) | Crashed

  /** Resolving the numbers of prefix `k` rejects: its major or its course list is missing. */
  predicate RejectsKey(catalog: CourseService.Catalog, majors: Majors, d: NumbersByMajor, k: string)
    requires Dict.DistinctKeys(majors)
  {
    Dict.Get(d, k).Some? && CourseService.Rejects(catalog, Dict.ToMap(majors), k, Dict.Get(d, k).value)
  }

  /** The resolution of the numbers of prefix `k`. */
  function KeyResolution(catalog: CourseService.Catalog, majors: Majors, d: NumbersByMajor, k: string): CourseService.Resolution
    requires Dict.DistinctKeys(majors)
    requires Dict.Get(d, k).Some? && !RejectsKey(catalog, majors, d, k)
  {
    CourseService.ResolutionFor(catalog, Dict.ToMap(majors), k, Dict.Get(d, k).value)
  }

  /** The resolutions of the prefixes `keys`, in that order, concatenated. */
  function Collected(catalog: CourseService.Catalog, majors: Majors, d: NumbersByMajor, keys: seq<string>): CourseService.Resolution
    requires Dict.DistinctKeys(majors)
    requires forall k | k in keys :: Dict.Get(d, k).Some? && !RejectsKey(catalog, majors, d, k)
  {
    if keys == [] then CourseService.Resolution([], [])
    else
      var prior := Collected(catalog, majors, d, keys[..|keys| - 1]);
      var k := keys[|keys| - 1];
      assert k in keys;
      var last := KeyResolution(catalog, majors, d, k);
      CourseService.Resolution(prior.validCourses + last.validCourses, prior.invalidCourseNames + last.invalidCourseNames)
  }

  /**
   * The reference outcome of a join or leave request.  `Accepted` and
   * `NoneValid` are the two outcomes that come after the database write.
   */
  function Requested(catalog: CourseService.Catalog, majors: Majors, content: string, numbers: NumbersByMajor): RequestResult
    requires Dict.DistinctKeys(numbers) && Dict.DistinctKeys(majors)
  {
    if ' ' !in content || numbers == [] then Rejected(NoCourseNumbers)
    else match Disambiguate(numbers, majors)
      case Thrown(_) => Crashed
      case Ok(None) => Rejected(NeedsMajorPrefixes)
      case Ok(Some(d)) => RequestedFor(catalog, majors, d)
  }

  /** The rest of the reference outcome, once the numbers are keyed by prefix. */
  function RequestedFor(catalog: CourseService.Catalog, majors: Majors, d: NumbersByMajor): RequestResult
    requires Dict.DistinctKeys(d) && Dict.DistinctKeys(majors)
  {
    var invalid := GetInvalidMajors(Dict.Keys(d), majors);
    if invalid != [] then Rejected(InvalidMajors(invalid))
    else if exists k | k in Dict.Keys(d) :: RejectsKey(catalog, majors, d, k) then Rejected(LookupFailed)
    else
      var all := Collected(catalog, majors, d, Dict.Keys(d));
      if all.validCourses == [] then Rejected(NoneValid(all.invalidCourseNames)) else Accepted(all)
  }

  /** Course `c` is the resolution of one of the numbers given under prefix `k`. */
  predicate ResolvedFrom(catalog: CourseService.Catalog, majors: Majors, d: NumbersByMajor, k: string, c: Course)
    requires Dict.DistinctKeys(majors)
  {
    Dict.Get(d, k).Some? && k in Dict.ToMap(majors) &&
    exists i | 0 <= i < |Dict.Get(d, k).value| ::
      CourseService.GetCourseFromNumber(catalog, Dict.Get(d, k).value[i], Dict.ToMap(majors)[k]) == Ok(Some(c))
  }

  /** `name` is `{prefix}-{number}` for one of the numbers under prefix `k` that did not resolve. */
  predicate UnresolvedFrom(catalog: CourseService.Catalog, majors: Majors, d: NumbersByMajor, k: string, name: string)
    requires Dict.DistinctKeys(majors)
  {
    Dict.Get(d, k).Some? && k in Dict.ToMap(majors) &&
    exists i | 0 <= i < |Dict.Get(d, k).value| ::
      CourseService.GetCourseFromNumber(catalog, Dict.Get(d, k).value[i], Dict.ToMap(majors)[k]) == Ok(None) &&
      name == Dict.ToMap(majors)[k].prefix + "-" + Dict.Get(d, k).value[i]
  }

  lemma {:induction false} CollectedSources(catalog: CourseService.Catalog, majors: Majors, d: NumbersByMajor, keys: seq<string>)
    requires Dict.DistinctKeys(majors)
    requires forall k | k in keys :: Dict.Get(d, k).Some? && !RejectsKey(catalog, majors, d, k)
    ensures forall c | c in Collected(catalog, majors, d, keys).validCourses ::
      exists k | k in keys :: ResolvedFrom(catalog, majors, d, k, c)
    ensures forall name | name in Collected(catalog, majors, d, keys).invalidCourseNames ::
      exists k | k in keys :: UnresolvedFrom(catalog, majors, d, k, name)
  {
    if keys != [] {
      var init, k := keys[..|keys| - 1], keys[|keys| - 1];
      assert k in keys;
      CollectedSources(catalog, majors, d, init);
      assert forall q | q in init :: q in keys;
      var list := Dict.Get(d, k).value;
      if list != [] {
        CourseService.PartitionSources(catalog, list, Dict.ToMap(majors)[k]);
        forall c | c in KeyResolution(catalog, majors, d, k).validCourses
          ensures ResolvedFrom(catalog, majors, d, k, c)
        {
        }
        forall name | name in KeyResolution(catalog, majors, d, k).invalidCourseNames
          ensures UnresolvedFrom(catalog, majors, d, k, name)
        {
        }
      }
    }
  }

  /**
   * An accepted request names at least one valid course, and every valid
   * course and every invalid name comes from a number in the request, read
   * under the major of its prefix.
   */
  lemma AcceptedCoursesRequested(catalog: CourseService.Catalog, majors: Majors, content: string, numbers: NumbersByMajor)
    requires Dict.DistinctKeys(numbers) && Dict.DistinctKeys(majors)
    requires Requested(catalog, majors, content, numbers).Accepted?
    ensures
      var d := Disambiguate(numbers, majors).value.value;
      var res := Requested(catalog, majors, content, numbers).resolution;
      && res.validCourses != []
      && (forall c | c in res.validCourses :: exists k | k in Dict.Keys(d) :: ResolvedFrom(catalog, majors, d, k, c))
      && (forall name | name in res.invalidCourseNames :: exists k | k in Dict.Keys(d) :: UnresolvedFrom(catalog, majors, d, k, name))
  {
    var d := Disambiguate(numbers, majors).value.value;
    CollectedSources(catalog, majors, d, Dict.Keys(d));
  }

  /** Every entry of `majors` is stored under its own prefix. */
  predicate KeyedByPrefix(majors: Majors) {
    forall i | 0 <= i < |majors| :: majors[i].key == majors[i].value.prefix
  }

  /**
   * A prefix that is not configured is named in the rejection, unless the
   * request stops earlier over numbers written without a prefix.
   */
  lemma UnknownMajorRejected(catalog: CourseService.Catalog, majors: Majors, content: string, numbers: NumbersByMajor, k: string)
    requires Dict.DistinctKeys(numbers) && Dict.DistinctKeys(majors) && KeyedByPrefix(majors)
    requires ' ' in content && k != "" && Dict.Get(numbers, k).Some? && Dict.Get(majors, k).None?
    ensures Dict.Get(numbers, "").None? ==>
      var r := Requested(catalog, majors, content, numbers);
      r.Rejected? && r.rejection.InvalidMajors? && k in r.rejection.prefixes
    ensures Dict.Get(numbers, "").Some? && |majors| == 1 ==>
      var r := Requested(catalog, majors, content, numbers);
      r.Rejected? && r.rejection.InvalidMajors? && k in r.rejection.prefixes
  {
    if Dict.Get(numbers, "").Some? && |majors| == 1 {
      assert Dict.Get(majors, majors[0].key).Some?;
      var d := Disambiguate(numbers, majors).value.value;
      assert Dict.Get(d, k) == Dict.Get(numbers, k);
    }
  }

  /** Whether the request reaches the database write. */
  predicate Writes(r: RequestResult) {
    r.Accepted? || (r.Rejected? && r.rejection.NoneValid?)
  }

  /** The database write of a join or a leave. */
  function Written(users: map<UserRecords.UserId, UserRecords.User>, guild: UserRecords.GuildId,
    member: UserRecords.UserId, join: bool, valid: seq<Course>, now: nat): map<UserRecords.UserId, UserRecords.User>
  {
    var u := UserRecords.FoundOrCreated(users, member, Some(guild), now);
    var prior := u.guilds[guild].courses;
    users[member := UserRecords.WithCourses(u, guild,
      if join then UserRecords.AddedCourses(prior, valid) else UserRecords.RemovedCourses(prior, valid), now)]
  }

  /** The database write of `toggleTAStatusForMember`, for the valid courses of a `ta` request. */
  function TAToggled(users: map<UserRecords.UserId, UserRecords.User>, guild: UserRecords.GuildId,
    member: UserRecords.UserId, valid: seq<Course>, now: nat): map<UserRecords.UserId, UserRecords.User>
  {
    var u := UserRecords.FoundOrCreated(users, member, Some(guild), now);
    users[member := UserRecords.WithCourses(u, guild,
      UserRecords.Toggled(u.guilds[guild].courses, UserRecords.CourseKeys(valid)), now)]
  }

  /** The valid courses the write is given: none unless the request was accepted. */
  function WrittenCourses(r: RequestResult): seq<Course> {
    match r
    case Accepted(res) => res.validCourses
    case _ => []
  }

  /**
   * `joinOrLeaveCourses`: the outcome is `Requested`, and the member's
   * courses are written exactly when the request got past every check
   * before the test for valid courses.
   */
  method JoinOrLeaveCourses(users: UserRecords.UserDatabase, catalog: CourseService.Catalog, majors: Majors,
    guild: UserRecords.GuildId, member: UserRecords.UserId, content: string, numbers: NumbersByMajor,
    join: bool, now: nat) returns (r: RequestResult)
    requires Dict.DistinctKeys(numbers) && Dict.DistinctKeys(majors)
    modifies users
    ensures r == Requested(catalog, majors, content, numbers)
    ensures !Writes(r) ==> users.users == old(users.users)
    ensures Writes(r) ==> users.users == Written(old(users.users), guild, member, join, WrittenCourses(r), now)
  {
    if ' ' !in content || numbers == [] {
      return Rejected(NoCourseNumbers);
    }
    var disambiguated := Disambiguate(numbers, majors);
    if disambiguated.Thrown? {
      return Crashed;
    }
    if disambiguated.value.None? {
      return Rejected(NeedsMajorPrefixes);
    }
    r := JoinOrLeaveKeyed(users, catalog, majors, guild, member, disambiguated.value.value, join, now);
  }

  /** `joinOrLeaveCourses` from the check of the prefixes on, once the numbers are keyed by prefix. */
  method JoinOrLeaveKeyed(users: UserRecords.UserDatabase, catalog: CourseService.Catalog, majors: Majors,
    guild: UserRecords.GuildId, member: UserRecords.UserId, d: NumbersByMajor, join: bool, now: nat)
    returns (r: RequestResult)
    requires Dict.DistinctKeys(d) && Dict.DistinctKeys(majors)
    modifies users
    ensures r == RequestedFor(catalog, majors, d)
    ensures !Writes(r) ==> users.users == old(users.users)
    ensures Writes(r) ==> users.users == Written(old(users.users), guild, member, join, WrittenCourses(r), now)
  {
    var checked := CheckPrefixesAndLookUp(catalog, majors, d);
    if checked.Refused? {
      return checked.result;
    }
    var all := checked.all;
    WriteCourses(users, guild, member, join, all.validCourses, now);
    if all.validCourses == [] {
      return Rejected(NoneValid(all.invalidCourseNames));
    }
    r := Accepted(all);
  }

  /** What the checks before the write leave: a refusal, or the courses found. */
  datatype Checked = Refused(result: RequestResult) | Found(all: CourseService.Resolution)

  /** The prefix check and the course lookup of `joinOrLeaveCourses`, which come before the write. */
  method CheckPrefixesAndLookUp(catalog: CourseService.Catalog, majors: Majors, d: NumbersByMajor)
    returns (c: Checked)
    requires Dict.DistinctKeys(d) && Dict.DistinctKeys(majors)
    ensures c.Refused? ==> c.result == RequestedFor(catalog, majors, d) && !Writes(c.result)
    ensures c.Found? ==> RequestedFor(catalog, majors, d) ==
                         if c.all.validCourses == [] then Rejected(NoneValid(c.all.invalidCourseNames)) else Accepted(c.all)
  {
    var invalid := GetInvalidMajors(Dict.Keys(d), majors);
    if invalid != [] {
      return Refused(Rejected(InvalidMajors(invalid)));
    }
    var looked := LookUpCourses(catalog, majors, d);
    if looked.None? {
      return Refused(Rejected(LookupFailed));
    }
    c := Found(looked.value);
  }

  /** The join or leave write on the member's record. */
  method WriteCourses(users: UserRecords.UserDatabase, guild: UserRecords.GuildId, member: UserRecords.UserId,
    join: bool, valid: seq<Course>, now: nat)
    modifies users
    ensures users.users == Written(old(users.users), guild, member, join, valid, now)
  {
    if join {
      users.AddCoursesToMember(guild, member, valid, now);
    } else {
      users.RemoveCoursesFromMember(guild, member, valid, now);
    }
  }

  /**
   * `getCoursesFromNumberListsByMajor` on the disambiguated numbers, then
   * the collection of its results in key order; `None` is the rejection.
   */
  method LookUpCourses(catalog: CourseService.Catalog, majors: Majors, d: NumbersByMajor)
    returns (r: Option<CourseService.Resolution>)
    requires Dict.DistinctKeys(majors) && Dict.DistinctKeys(d)
    ensures r.None? <==> exists k | k in Dict.Keys(d) :: RejectsKey(catalog, majors, d, k)
    ensures r.Some? ==> r.value == Collected(catalog, majors, d, Dict.Keys(d))
  {
    var resolved := CourseService.GetCoursesFromNumberListsByMajor(catalog, Dict.ToMap(majors), Dict.ToMap(d));
    if resolved.Thrown? {
      ghost var p :| p in Dict.ToMap(d) && CourseService.Rejects(catalog, Dict.ToMap(majors), p, Dict.ToMap(d)[p]);
      assert p in Dict.Keys(d) && RejectsKey(catalog, majors, d, p);
      return None;
    }
    var all := CollectResolutions(catalog, majors, d, resolved.value, Dict.Keys(d));
    r := Some(all);
  }

  /** The `_.keys(result).forEach` that pushes every valid course and invalid name. */
  method CollectResolutions(catalog: CourseService.Catalog, majors: Majors, d: NumbersByMajor,
    resolved: map<string, CourseService.Resolution>, keys: seq<string>) returns (all: CourseService.Resolution)
    requires Dict.DistinctKeys(majors)
    requires forall k | k in keys :: Dict.Get(d, k).Some? && !RejectsKey(catalog, majors, d, k)
    requires forall k | k in keys :: k in resolved && resolved[k] == KeyResolution(catalog, majors, d, k)
    ensures all == Collected(catalog, majors, d, keys)
  {
    var valid, invalid := [], [];
    var i := 0;
    while i < |keys|
      invariant 0 <= i <= |keys|
      invariant CourseService.Resolution(valid, invalid) == Collected(catalog, majors, d, keys[..i])
    {
      CollectedSnoc(catalog, majors, d, keys, i);
      valid := valid + resolved[keys[i]].validCourses;
      invalid := invalid + resolved[keys[i]].invalidCourseNames;
      i := i + 1;
    }
    assert keys[..i] == keys;
    all := CourseService.Resolution(valid, invalid);
  }

  /** One more key appends its resolution to what the keys before it collected. */
  lemma CollectedSnoc(catalog: CourseService.Catalog, majors: Majors, d: NumbersByMajor, keys: seq<string>, i: nat)
    requires Dict.DistinctKeys(majors) && i < |keys|
    requires forall k | k in keys :: Dict.Get(d, k).Some? && !RejectsKey(catalog, majors, d, k)
    ensures forall k | k in keys[..i] :: Dict.Get(d, k).Some? && !RejectsKey(catalog, majors, d, k)
    ensures Collected(catalog, majors, d, keys[..i + 1]) ==
      var prior := Collected(catalog, majors, d, keys[..i]);
      var last := KeyResolution(catalog, majors, d, keys[i]);
      CourseService.Resolution(prior.validCourses + last.validCourses, prior.invalidCourseNames + last.invalidCourseNames)
  {
    assert keys[..i + 1][..i] == keys[..i];
    assert keys[..i + 1][i] == keys[i];
  }

  /** The messages the controller sends back. */
  datatype Reply =
    | RequestQueued
    | Done(action: Action, validCourseNames: seq<string>, invalidCourseNames: seq<string>)
    | Failed(action: Action, rejection: Rejection)
    | HelpText

  function CourseNames(cs: seq<Course>): (r: seq<string>)
    ensures |r| == |cs| && forall i | 0 <= i < |cs| :: r[i] == Key(cs[i])
  {
    if cs == [] then [] else [Key(cs[0])] + CourseNames(cs[1..])
  }

  /** The reply that follows the queued notice; a crash sends none. */
  function Answer(action: Action, r: RequestResult): (replies: seq<Reply>)
    ensures r.Crashed? <==> replies == []
    ensures |replies| <= 1 && forall i | 0 <= i < |replies| :: (replies[i].Done? || replies[i].Failed?) && replies[i].action == action
  {
    match r
    case Crashed => []
    case Rejected(why) => [Failed(action, why)]
    case Accepted(res) => [Done(action, CourseNames(res.validCourses), res.invalidCourseNames)]
  }

  /**
   * `onMessageReceived`: help text for an unknown request; otherwise the
   * queued notice, then the outcome.  A `ta` request joins first and then
   * toggles the TA flag of the valid courses.  A crash leaves only the
   * queued notice.
   */
  method OnMessageReceived(users: UserRecords.UserDatabase, catalog: CourseService.Catalog, majors: Majors,
    guild: UserRecords.GuildId, member: UserRecords.UserId, content: string, numbers: NumbersByMajor, now: nat)
    returns (replies: seq<Reply>)
    requires Dict.DistinctKeys(numbers) && Dict.DistinctKeys(majors)
    modifies users
    ensures Dispatch(content) == Help ==> replies == [HelpText] && users.users == old(users.users)
    ensures Dispatch(content) != Help ==>
      replies == [RequestQueued] + Answer(Dispatch(content), Requested(catalog, majors, content, numbers))
    ensures Dispatch(content) != Help && !Writes(Requested(catalog, majors, content, numbers)) ==> users.users == old(users.users)
    ensures (Dispatch(content) == Join || Dispatch(content) == Leave) && Writes(Requested(catalog, majors, content, numbers)) ==>
      users.users == Written(old(users.users), guild, member, Dispatch(content) == Join,
        WrittenCourses(Requested(catalog, majors, content, numbers)), now)
    ensures Dispatch(content) == ToggleTA && Writes(Requested(catalog, majors, content, numbers)) ==>
      var r := Requested(catalog, majors, content, numbers);
      var joined := Written(old(users.users), guild, member, true, WrittenCourses(r), now);
      users.users == if r.Accepted? then TAToggled(joined, guild, member, r.resolution.validCourses, now) else joined
  {
    var action := Dispatch(content);
    if action == Help {
      return [HelpText];
    }
    replies := [RequestQueued];
    var result := JoinOrLeaveCourses(users, catalog, majors, guild, member, content, numbers, action != Leave, now);
    if result.Accepted? && action == ToggleTA {
      users.ToggleTAStatusForMember(guild, member, result.resolution.validCourses, now);
    }
    replies := replies + Answer(action, result);
  }
}
