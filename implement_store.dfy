/**
 * The guild's implement store (src/services/database/guild-storage.ts):
 * a document holding the major implements, each with its course implements,
 * and the verification implement, read through a per-guild cache.
 *
 * The source's cache is a dictionary keyed by guild ID whose entries never
 * interact, so one `GuildStorageDatabase` object models one guild's entry
 * together with that guild's stored document.
 */
module ImplementStore {
  import opened Wrappers
  import opened Platform
  import opened Courses

  /** The platform resources realising one course. */
  datatype CourseImplement = CourseImplement(mainRoleId: Id, taRoleId: Id, mainChannelId: Id, voiceChannelId: Id)

  /**
   * How a major's channels are grouped.  `Overflow` is the shape
   * src/services/implement/major/implement.ts works with (a growing list of
   * categories); `TextVoice` is the shape of the older code under
   * src/services/discord/implement (one text and one voice category).
   */
  datatype Categories = Overflow(categoryIds: seq<Id>) | TextVoice(textCategoryId: Id, voiceCategoryId: Id)

  datatype MajorImplement = MajorImplement(categories: Categories, courseImplements: map<string, CourseImplement>)

  datatype VerificationImplement = VerificationImplement(roleId: Id)

  /** The guild-storage document. */
  datatype Storage = Storage(majorImplements: map<string, MajorImplement>, verificationImplement: Option<VerificationImplement>)

  /** A freshly created document: no major implements, no verification implement. */
  const EmptyStorage: Storage := Storage(map[], None)

  /** `getCourseImplement`: absent when the major implement is absent or lacks the key. */
  function CourseLookup(s: Storage, prefix: string, key: string): (r: Option<CourseImplement>)
    ensures prefix !in s.majorImplements ==> r.None?
    ensures prefix in s.majorImplements ==>
      (r.Some? <==> key in s.majorImplements[prefix].courseImplements)
    ensures r.Some? ==> r.value == s.majorImplements[prefix].courseImplements[key]
  {
    if prefix in s.majorImplements && key in s.majorImplements[prefix].courseImplements
    then Some(s.majorImplements[prefix].courseImplements[key])
    else None
  }

  function MajorLookup(s: Storage, prefix: string): Option<MajorImplement> {
    if prefix in s.majorImplements then Some(s.majorImplements[prefix]) else None
  }

  /** `setMajorImplement`: sets or deletes one prefix and nothing else. */
  function SetMajor(s: Storage, prefix: string, impl: Option<MajorImplement>): (r: Storage)
    ensures MajorLookup(r, prefix) == impl
    ensures forall p | p != prefix :: MajorLookup(r, p) == MajorLookup(s, p)
    ensures r.verificationImplement == s.verificationImplement
  {
    match impl
    case Some(m) => s.(majorImplements := s.majorImplements[prefix := m])
    case None => s.(majorImplements := s.majorImplements - {prefix})
  }

  /**
   * `setCourseImplement`: sets or deletes one course key inside its major;
   * when the major implement is absent the source logs an error and the
   * document is left as it is.
   */
  function SetCourse(s: Storage, prefix: string, key: string, impl: Option<CourseImplement>): (r: Storage)
    ensures prefix !in s.majorImplements ==> r == s
    ensures prefix in s.majorImplements ==> CourseLookup(r, prefix, key) == impl
    ensures forall p, k | p != prefix || k != key :: CourseLookup(r, p, k) == CourseLookup(s, p, k)
    ensures r.majorImplements.Keys == s.majorImplements.Keys
    ensures forall p | p in s.majorImplements :: r.majorImplements[p].categories == s.majorImplements[p].categories
    ensures r.verificationImplement == s.verificationImplement
  {
    if prefix !in s.majorImplements then s
    else
      var m := s.majorImplements[prefix];
      var courses := match impl
        case Some(c) => m.courseImplements[key := c]
        case None => m.courseImplements - {key};
      s.(majorImplements := s.majorImplements[prefix := m.(courseImplements := courses)])
  }

  /**
   * `t` differs from `s` at most in the category list of `prefix`'s major
   * implement, which exists in `t`.
   */
  ghost predicate OnlyCategoriesChanged(s: Storage, t: Storage, prefix: string) {
    && t.verificationImplement == s.verificationImplement
    && (forall q | q != prefix :: MajorLookup(t, q) == MajorLookup(s, q))
    && prefix in t.majorImplements
    && t.majorImplements[prefix].courseImplements ==
         (if prefix in s.majorImplements then s.majorImplements[prefix].courseImplements else map[])
  }

  lemma OnlyCategoriesChangedKeepsCourses(s: Storage, t: Storage, prefix: string)
    requires OnlyCategoriesChanged(s, t, prefix)
    ensures forall q, k :: CourseLookup(t, q, k) == CourseLookup(s, q, k)
  {
    forall q, k ensures CourseLookup(t, q, k) == CourseLookup(s, q, k) {
      if q != prefix {
        assert MajorLookup(t, q) == MajorLookup(s, q);
      }
    }
  }

  lemma {:induction false} OnlyCategoriesChangedTwice(s: Storage, t: Storage, u: Storage, prefix: string)
    requires OnlyCategoriesChanged(s, t, prefix) && OnlyCategoriesChanged(t, u, prefix)
    ensures OnlyCategoriesChanged(s, u, prefix)
  {
    forall q | q != prefix ensures MajorLookup(u, q) == MajorLookup(s, q) {
      assert MajorLookup(u, q) == MajorLookup(t, q);
    }
  }

  class GuildStorageDatabase {
    /** This guild's entry of the static CACHE dictionary. */
    var cached: Option<Storage>
    /** This guild's document in the database. */
    var persisted: Option<Storage>

    /** Whatever is cached was saved first (`saveAndCache`, or loaded from the database). */
    ghost predicate Valid()
      reads this
    {
      cached.Some? ==> persisted == cached
    }

    /** The storage every operation works on. */
    function View(): Storage
      reads this
    {
      if cached.Some? then cached.value
      else if persisted.Some? then persisted.value
      else EmptyStorage
    }

    constructor (document: Option<Storage>)
      ensures Valid() && cached == None && persisted == document
    {
      cached, persisted := None, document;
    }

    /**
     * `findOrCreateGuildStorage`: the cached storage when present; otherwise
     * the stored document, or a new empty one that is saved; either way the
     * result is cached.
     */
    method FindOrCreateGuildStorage() returns (s: Storage)
      requires Valid()
      modifies this
      ensures Valid() && s == old(View())
      ensures cached == Some(s) && persisted == Some(s)
      ensures old(cached).Some? ==> s == old(cached).value
      ensures old(cached).None? && old(persisted).Some? ==> s == old(persisted).value
      ensures old(cached).None? && old(persisted).None? ==> s == EmptyStorage
    {
      if cached.Some? {
        s := cached.value;
        return;
      }
      if persisted.Some? {
        s := persisted.value;
        cached := persisted;
        return;
      }
      s := EmptyStorage;
      persisted := Some(s);
      cached := Some(s);
    }

    /** `saveAndCache`. */
    method Save(s: Storage)
      modifies this
      ensures Valid() && cached == Some(s) && persisted == Some(s) && View() == s
    {
      persisted := Some(s);
      cached := Some(s);
    }

    method GetMajorImplement(prefix: string) returns (r: Option<MajorImplement>)
      requires Valid()
      modifies this
      ensures Valid() && View() == old(View()) && cached.Some?
      ensures r == MajorLookup(View(), prefix)
    {
      var s := FindOrCreateGuildStorage();
      r := MajorLookup(s, prefix);
    }

    method SetMajorImplement(prefix: string, impl: Option<MajorImplement>)
      requires Valid()
      modifies this
      ensures Valid() && View() == SetMajor(old(View()), prefix, impl)
    {
      var s := FindOrCreateGuildStorage();
      Save(SetMajor(s, prefix, impl));
    }

    method GetCourseImplement(course: Course) returns (r: Option<CourseImplement>)
      requires Valid()
      modifies this
      ensures Valid() && View() == old(View()) && cached.Some?
      ensures r == CourseLookup(View(), course.major.prefix, Key(course))
    {
      var s := FindOrCreateGuildStorage();
      r := CourseLookup(s, course.major.prefix, Key(course));
    }

    /** `loggedError` is true when the major implement is absent and nothing was written. */
    method SetCourseImplement(course: Course, impl: Option<CourseImplement>) returns (loggedError: bool)
      requires Valid()
      modifies this
      ensures Valid()
      ensures loggedError == (course.major.prefix !in old(View()).majorImplements)
      ensures View() == SetCourse(old(View()), course.major.prefix, Key(course), impl)
    {
      var s := FindOrCreateGuildStorage();
      if course.major.prefix !in s.majorImplements {
        loggedError := true;
        return;
      }
      loggedError := false;
      Save(SetCourse(s, course.major.prefix, Key(course), impl));
    }

    method GetVerificationImplement() returns (r: Option<VerificationImplement>)
      requires Valid()
      modifies this
      ensures Valid() && View() == old(View()) && cached.Some?
      ensures r == View().verificationImplement
    {
      var s := FindOrCreateGuildStorage();
      r := s.verificationImplement;
    }

    method SetVerificationImplement(impl: VerificationImplement)
      requires Valid()
      modifies this
      ensures Valid()
      ensures View() == old(View()).(verificationImplement := Some(impl))
    {
      var s := FindOrCreateGuildStorage();
      Save(s.(verificationImplement := Some(impl)));
    }
  }

  /** A write followed by a read of the verification implement returns what was written. */
  method SetThenGetVerificationImplement(db: GuildStorageDatabase, impl: VerificationImplement)
    returns (r: Option<VerificationImplement>)
    requires db.Valid()
    modifies db
    ensures db.Valid() && r == Some(impl)
    ensures db.View().majorImplements == old(db.View()).majorImplements
  {
    db.SetVerificationImplement(impl);
    r := db.GetVerificationImplement();
  }
}
