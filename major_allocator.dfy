/**
 * Major implements in the overflow shape (src/services/implement/major/implement.ts):
 * a growing list of category IDs per major, searched for the first category
 * that still has room for a new course's channels.
 */
module MajorAllocator {
  import opened Wrappers
  import opened Platform
  import opened ImplementStore
  import Sorting
  import Text

  /**
   * The platform's per-category channel limit (`DiscordConstants`, whose
   * file is not part of this model; Discord's documented limit).
   */
  const PLATFORM_MAX_CHANNELS_PER_CATEGORY: nat := 50

  /** Channels created for each course implement (src/constants/implement/course.ts). */
  const CHANNELS_PER_COURSE_IMPLEMENT: nat := 2

  /** Usable capacity: the platform limit less the space reserved for swapping when sorting. */
  const MAX_CHANNELS_PER_CATEGORY: int := PLATFORM_MAX_CHANNELS_PER_CATEGORY - CHANNELS_PER_COURSE_IMPLEMENT

  /** A category holding `count` channels can take one more course implement. */
  predicate HasRoom(count: nat) {
    MAX_CHANNELS_PER_CATEGORY - count >= CHANNELS_PER_COURSE_IMPLEMENT
  }

  /** Categories `from` up to `to` resolve and are full. */
  ghost predicate AllFull(ids: seq<Id>, children: map<Id, nat>, from: nat, to: nat)
    requires from <= to <= |ids|
  {
    forall i | from <= i < to :: ids[i] in children && !HasRoom(children[ids[i]])
  }

  /**
   * `findCategoryIndexForNewCourseImplement`: the first index from `current`
   * whose category has room, or `|ids|` when there is none.  A category ID
   * that does not resolve makes the source throw when it reads the
   * category's children.
   */
  function FindCategoryIndex(ids: seq<Id>, children: map<Id, nat>, current: nat): (r: Outcome<nat>)
    requires current <= |ids|
    ensures r.Ok? ==> current <= r.value <= |ids| && AllFull(ids, children, current, r.value)
    ensures r.Ok? && r.value < |ids| ==> ids[r.value] in children && HasRoom(children[ids[r.value]])
    ensures r.Thrown? ==> exists i | current <= i < |ids| :: ids[i] !in children && AllFull(ids, children, current, i)
    decreases |ids| - current
  {
    if current == |ids| then Ok(current)
    else if ids[current] !in children then Thrown("category does not resolve")
    else if HasRoom(children[ids[current]]) then Ok(current)
    else
      var r := FindCategoryIndex(ids, children, current + 1);
      assert forall i | current + 1 <= i <= |ids| && AllFull(ids, children, current + 1, i) ::
        AllFull(ids, children, current, i);
      r
  }

  /** The IDs `start`, `start + 1`, ... handed out to `n` new categories. */
  function Range(start: nat, n: nat): (r: seq<Id>)
    ensures |r| == n && forall j | 0 <= j < n :: r[j] == start + j
  {
    if n == 0 then [] else Range(start, n - 1) + [start + n - 1]
  }

  /** The same IDs as a set. */
  function IdSet(start: nat, n: nat): (r: set<Id>)
    ensures forall j :: j in r <==> start <= j < start + n
  {
    if n == 0 then {} else IdSet(start, n - 1) + {start + n - 1}
  }

  /** The child counts after `n` empty categories were created from `start`. */
  function WithEmptyCategories(children: map<Id, nat>, start: nat, n: nat): (r: map<Id, nat>)
    ensures r.Keys == children.Keys + IdSet(start, n)
    ensures forall j | start <= j < start + n :: r[j] == 0
    ensures forall c | c in children && !(start <= c < start + n) :: r[c] == children[c]
  {
    if n == 0 then children else WithEmptyCategories(children, start, n - 1)[start + n - 1 := 0]
  }

  function CategoryCalls(prefix: string, start: nat, n: nat): (r: seq<Call>)
    ensures |r| == n && forall j | 0 <= j < n :: r[j] == CategoryCreated(start + j, MajorCategory(prefix))
  {
    if n == 0 then [] else CategoryCalls(prefix, start, n - 1) + [CategoryCreated(start + n - 1, MajorCategory(prefix))]
  }

  /** A freshly created major implement: no categories, no course implements. */
  const EmptyMajorImplement: MajorImplement := MajorImplement(Overflow([]), map[])

  method CreateEmptyMajorImplement(db: GuildStorageDatabase, prefix: string) returns (m: MajorImplement)
    requires db.Valid()
    modifies db
    ensures db.Valid() && m.categories == Overflow([]) && m.courseImplements == map[]
    ensures db.View() == SetMajor(old(db.View()), prefix, Some(m))
  {
    m := EmptyMajorImplement;
    db.SetMajorImplement(prefix, Some(m));
  }

  /** The platform after `n` categories of `prefix` were created from ID `start` on. */
  ghost predicate CategoriesCreated(start: nat, n: nat, channels: set<Id>, children: map<Id, nat>,
    log: seq<Call>, prefix: string, p: Platform)
    reads p
  {
    && p.nextId == start + n
    && p.channels == channels + IdSet(start, n)
    && p.children == WithEmptyCategories(children, start, n)
    && p.log == log + CategoryCalls(prefix, start, n)
  }

  /** The loop of `scaleOutCategories`: `n` new categories of the major. */
  method CreateCategories(p: Platform, prefix: string, n: nat) returns (created: seq<Id>)
    requires p.Valid()
    modifies p
    ensures p.Valid()
    ensures created == Range(old(p.nextId), n)
    ensures CategoriesCreated(old(p.nextId), n, old(p.channels), old(p.children), old(p.log), prefix, p)
    ensures p.roles == old(p.roles) && p.parentOf == old(p.parentOf) && p.memberRoles == old(p.memberRoles)
  {
    ghost var start, channels0, children0, log0 := p.nextId, p.channels, p.children, p.log;
    NoneCreated(start, channels0, children0, log0, prefix, p);
    created := [];
    var i := 0;
    while i < n
      invariant 0 <= i <= n && p.Valid()
      invariant created == Range(start, i)
      invariant CategoriesCreated(start, i, channels0, children0, log0, prefix, p)
      invariant p.roles == old(p.roles) && p.parentOf == old(p.parentOf) && p.memberRoles == old(p.memberRoles)
    {
      var id := CreateNextCategory(p, prefix, start, i, channels0, children0, log0);
      RangeStep(start, i);
      created := created + [id];
      i := i + 1;
    }
  }

  /** Before the loop no category has been created. */
  lemma NoneCreated(start: nat, channels: set<Id>, children: map<Id, nat>, log: seq<Call>, prefix: string, p: Platform)
    requires p.nextId == start && p.channels == channels && p.children == children && p.log == log
    ensures CategoriesCreated(start, 0, channels, children, log, prefix, p)
  {
    assert IdSet(start, 0) == {} && CategoryCalls(prefix, start, 0) == [];
    assert log + [] == log;
  }

  /** One iteration: category `start + i` is created. */
  method CreateNextCategory(p: Platform, prefix: string, ghost start: nat, ghost i: nat,
    ghost channels0: set<Id>, ghost children0: map<Id, nat>, ghost log0: seq<Call>) returns (id: Id)
    requires p.Valid() && CategoriesCreated(start, i, channels0, children0, log0, prefix, p)
    modifies p
    ensures p.Valid() && CategoriesCreated(start, i + 1, channels0, children0, log0, prefix, p)
    ensures id == start + i
    ensures p.roles == old(p.roles) && p.parentOf == old(p.parentOf) && p.memberRoles == old(p.memberRoles)
  {
    CreationStep(channels0, children0, log0, prefix, start, i, p.channels, p.children, p.log);
    id := p.CreateCategory(MajorCategory(prefix));
  }

  /** Creating category `start + i` extends the three descriptions of the platform by one. */
  lemma CreationStep(channels0: set<Id>, children0: map<Id, nat>, log0: seq<Call>, prefix: string, start: nat, i: nat,
    channels: set<Id>, children: map<Id, nat>, log: seq<Call>)
    requires channels == channels0 + IdSet(start, i)
    requires children == WithEmptyCategories(children0, start, i)
    requires log == log0 + CategoryCalls(prefix, start, i)
    ensures channels + {start + i} == channels0 + IdSet(start, i + 1)
    ensures children[start + i := 0] == WithEmptyCategories(children0, start, i + 1)
    ensures log + [CategoryCreated(start + i, MajorCategory(prefix))] == log0 + CategoryCalls(prefix, start, i + 1)
  {
    Regroup(log0, CategoryCalls(prefix, start, i), CategoryCreated(start + i, MajorCategory(prefix)));
  }

  lemma RangeStep(start: nat, i: nat)
    ensures Range(start, i + 1) == Range(start, i) + [start + i]
  {
  }

  /** Appending one element regroups, whatever the parts are. */
  lemma Regroup<T>(xs: seq<T>, ys: seq<T>, y: T)
    ensures (xs + ys) + [y] == xs + (ys + [y])
  {
  }

  /** The major implement of `prefix` exists and has a category list. */
  predicate HasCategoryList(s: Storage, prefix: string) {
    prefix in s.majorImplements && s.majorImplements[prefix].categories.Overflow?
  }

  function CategoryIds(s: Storage, prefix: string): seq<Id>
    requires HasCategoryList(s, prefix)
  {
    s.majorImplements[prefix].categories.categoryIds
  }

  /** How many categories scaling `ids` out to `count` creates: the list grows to the larger of the two. */
  function ToCreate(ids: seq<Id>, count: nat): (n: nat)
    ensures |ids| + n == if count > |ids| then count else |ids|
  {
    if count > |ids| then count - |ids| else 0
  }

  /**
   * `scaleOutCategories`: creates `max(0, count - |ids|)` categories,
   * appends their IDs and saves the implement.  An absent implement, or
   * one without a category list, makes the source throw before any change.
   */
  method ScaleOutCategories(db: GuildStorageDatabase, p: Platform, prefix: string, count: nat)
    returns (r: Outcome<MajorImplement>)
    requires db.Valid() && p.Valid()
    modifies db, p
    ensures db.Valid() && p.Valid()
    ensures r.Ok? <==> HasCategoryList(old(db.View()), prefix)
    ensures r.Thrown? ==> db.View() == old(db.View()) && unchanged(p)
    ensures r.Ok? ==>
      var ids := CategoryIds(old(db.View()), prefix);
      r.value == old(db.View()).majorImplements[prefix].(categories := Overflow(ids + Range(old(p.nextId), ToCreate(ids, count))))
    ensures r.Ok? ==> db.View() == SetMajor(old(db.View()), prefix, Some(r.value))
    ensures r.Ok? ==> CategoriesCreated(old(p.nextId), ToCreate(CategoryIds(old(db.View()), prefix), count),
      old(p.channels), old(p.children), old(p.log), prefix, p)
    ensures p.roles == old(p.roles) && p.parentOf == old(p.parentOf) && p.memberRoles == old(p.memberRoles)
  {
    var found := db.GetMajorImplement(prefix);
    if found.None? || !found.value.categories.Overflow? {
      return Thrown("no category list");
    }
    var m := found.value;
    var ids := m.categories.categoryIds;
    var n := ToCreate(ids, count);
    var created := CreateCategories(p, prefix, n);
    var m' := m.(categories := Overflow(ids + created));
    db.SetMajorImplement(prefix, Some(m'));
    r := Ok(m');
  }

  /** The first half of `getCategoryIdForNewCourseImplement`: the existing implement, or a new empty one. */
  method EnsureMajorImplement(db: GuildStorageDatabase, prefix: string) returns (m: MajorImplement)
    requires db.Valid()
    modifies db
    ensures db.Valid() && MajorLookup(db.View(), prefix) == Some(m)
    ensures MajorLookup(old(db.View()), prefix).Some? ==>
      m == MajorLookup(old(db.View()), prefix).value && db.View() == old(db.View())
    ensures MajorLookup(old(db.View()), prefix).None? ==>
      m == EmptyMajorImplement && OnlyCategoriesChanged(old(db.View()), db.View(), prefix)
  {
    var implement := db.GetMajorImplement(prefix);
    if implement.Some? {
      return implement.value;
    }
    m := CreateEmptyMajorImplement(db, prefix);
  }

  /**
   * `getCategoryIdForNewCourseImplement`: ensures the major implement exists,
   * finds the first category with room and scales out to include it.  The
   * returned category resolves and has room for the course's two channels
   * within the platform limit.
   */
  method GetCategoryIdForNewCourseImplement(db: GuildStorageDatabase, p: Platform, prefix: string)
    returns (r: Outcome<Id>)
    requires db.Valid() && p.Valid()
    modifies db, p
    ensures db.Valid() && p.Valid()
    ensures r.Ok? ==> r.value in p.children
    ensures r.Ok? ==> p.children[r.value] + CHANNELS_PER_COURSE_IMPLEMENT <= MAX_CHANNELS_PER_CATEGORY
    ensures r.Ok? ==> p.children[r.value] + 2 * CHANNELS_PER_COURSE_IMPLEMENT <= PLATFORM_MAX_CHANNELS_PER_CATEGORY
    ensures r.Ok? ==> OnlyCategoriesChanged(old(db.View()), db.View(), prefix)
    ensures r.Ok? ==> (
      var m := db.View().majorImplements[prefix];
      m.categories.Overflow? && r.value in m.categories.categoryIds)
    ensures r.Thrown? ==> db.View() == old(db.View()) && unchanged(p)
    ensures MajorLookup(old(db.View()), prefix).None? ==>
      r.Ok? && r.value == old(p.nextId) && MajorLookup(db.View(), prefix) == Some(MajorImplement(Overflow([r.value]), map[]))
    ensures old(p.channels) <= p.channels
    ensures p.log == old(p.log) || p.log == old(p.log) + [CategoryCreated(old(p.nextId), MajorCategory(prefix))]
    ensures p.roles == old(p.roles) && p.parentOf == old(p.parentOf) && p.memberRoles == old(p.memberRoles)
    ensures forall c | c in old(p.children) :: c in p.children && p.children[c] == old(p.children)[c]
  {
    ghost var view0 := db.View();
    var implement := EnsureMajorImplement(db, prefix);
    if !implement.categories.Overflow? {
      return Thrown("no category list");
    }
    var ids := implement.categories.categoryIds;
    var index := FindCategoryIndex(ids, p.children, 0);
    if index.Thrown? {
      return Thrown(index.reason);
    }
    ghost var view1 := db.View();
    var id := TakeCategory(db, p, prefix, implement, ids, index.value);
    CategoriesOnlyChanged(view1, prefix, implement.(categories := Overflow(ids + (if index.value < |ids| then [] else [id]))));
    if view1 != view0 {
      OnlyCategoriesChangedTwice(view0, view1, db.View(), prefix);
    }
    if MajorLookup(view0, prefix).None? {
      assert ids + [id] == [id];
    }
    r := Ok(id);
  }

  /** Storing a major implement with new categories but the same course implements changes only categories. */
  lemma CategoriesOnlyChanged(s: Storage, prefix: string, m: MajorImplement)
    requires prefix in s.majorImplements && m.courseImplements == s.majorImplements[prefix].courseImplements
    ensures OnlyCategoriesChanged(s, SetMajor(s, prefix, Some(m)), prefix)
  {
  }

  /**
   * The second half of `getCategoryIdForNewCourseImplement`, for the index
   * the search found: `scaleOutCategories` to `index + 1` categories, which
   * creates one category exactly when the index is past the end, then the
   * category at the index.
   */
  method TakeCategory(db: GuildStorageDatabase, p: Platform, prefix: string, ghost m: MajorImplement,
    ids: seq<Id>, index: nat) returns (id: Id)
    requires db.Valid() && p.Valid()
    requires MajorLookup(db.View(), prefix) == Some(m) && m.categories == Overflow(ids)
    requires index <= |ids| && (index < |ids| ==> ids[index] in p.children && HasRoom(p.children[ids[index]]))
    modifies db, p
    ensures db.Valid() && p.Valid()
    ensures id in p.children && HasRoom(p.children[id])
    ensures index < |ids| ==> id == ids[index] && p.log == old(p.log) && p.children == old(p.children)
    ensures index == |ids| ==>
      && id == old(p.nextId) && p.log == old(p.log) + [CategoryCreated(id, MajorCategory(prefix))]
      && p.children == old(p.children)[id := 0]
    ensures db.View() == SetMajor(old(db.View()), prefix, Some(m.(categories := Overflow(ids + (if index < |ids| then [] else [id])))))
    ensures old(p.channels) <= p.channels
    ensures p.roles == old(p.roles) && p.parentOf == old(p.parentOf) && p.memberRoles == old(p.memberRoles)
  {
    ghost var next := p.nextId;
    ScaleOutByAtMostOne(ids, index, next, p.children, prefix);
    var scaled := ScaleOutCategories(db, p, prefix, index + 1);
    if scaled.Thrown? {
      assert false;
      return;
    }
    var scaledIds := scaled.value.categories.categoryIds;
    assert scaledIds == ids + (if index < |ids| then [] else [next]);
    id := scaledIds[index];
  }

  /**
   * Scaling out to include index `index <= |ids|` creates nothing when the
   * index is in the list and one category when it is just past the end.
   */
  lemma ScaleOutByAtMostOne(ids: seq<Id>, index: nat, start: nat, children: map<Id, nat>, prefix: string)
    requires index <= |ids|
    ensures index < |ids| ==>
      && ToCreate(ids, index + 1) == 0 && ids + Range(start, 0) == ids
      && IdSet(start, 0) == {} && WithEmptyCategories(children, start, 0) == children
      && CategoryCalls(prefix, start, 0) == []
    ensures index == |ids| ==>
      && ToCreate(ids, index + 1) == 1 && Range(start, 1) == [start]
      && IdSet(start, 1) == {start} && WithEmptyCategories(children, start, 1) == children[start := 0]
      && CategoryCalls(prefix, start, 1) == [CategoryCreated(start, MajorCategory(prefix))]
  {
    if index < |ids| {
      assert ids + [] == ids;
    }
  }

  /** Its removal code is commented out in the source: only the lookup remains. */
  method DeleteMajorImplementIfEmpty(db: GuildStorageDatabase, prefix: string)
    requires db.Valid()
    modifies db
    ensures db.Valid() && db.View() == old(db.View())
  {
    var implement := db.GetMajorImplement(prefix);
  }

  /** Likewise a lookup only: the sorting calls are commented out. */
  method SortMajorImplement(db: GuildStorageDatabase, prefix: string)
    requires db.Valid()
    modifies db
    ensures db.Valid() && db.View() == old(db.View())
  {
    var implement := db.GetMajorImplement(prefix);
  }

  datatype NamedChannel = NamedChannel(id: Id, name: string)
  datatype ChannelPosition = ChannelPosition(channel: NamedChannel, position: nat)

  function ChannelName(c: NamedChannel): string { c.name }

  function Numbered(s: seq<NamedChannel>, start: nat): (r: seq<ChannelPosition>)
    ensures |r| == |s|
    ensures forall i | 0 <= i < |s| :: r[i] == ChannelPosition(s[i], start + i)
  {
    if s == [] then [] else [ChannelPosition(s[0], start)] + Numbered(s[1..], start + 1)
  }

  /**
   * `createChannelPositionsByName`: the channels sorted by name, numbered
   * `0 .. n-1` in that order.
   */
  function CreateChannelPositionsByName(channels: seq<NamedChannel>): (r: seq<ChannelPosition>)
    ensures |r| == |channels|
    ensures forall i | 0 <= i < |r| :: r[i].position == i
    ensures multiset(seq(|r|, i requires 0 <= i < |r| => r[i].channel)) == multiset(channels)
    ensures forall i, j | 0 <= i < j < |r| :: Text.LessEq(r[i].channel.name, r[j].channel.name)
  {
    var sorted := Sorting.SortBy(channels, ChannelName);
    var r := Numbered(sorted, 0);
    assert seq(|r|, i requires 0 <= i < |r| => r[i].channel) == sorted;
    r
  }
}
