/**
 * Resolving course numbers against the course lists (src/services/course.ts).
 * The lists come from the web catalog in the source; here they are the
 * `catalog` parameter, keyed by major prefix.
 */
module CourseService {
  import opened Wrappers
  import opened Courses
  import Text

  type Catalog = map<string, seq<Course>>

  /** `majorCourses.find(c => c.number === n)`. */
  function FindByNumber(cs: seq<Course>, n: string): (r: Option<Course>)
    ensures r.None? <==> forall i | 0 <= i < |cs| :: cs[i].number != n
    ensures r.Some? ==> exists i | 0 <= i < |cs| ::
      cs[i] == r.value && r.value.number == n && forall j | 0 <= j < i :: cs[j].number != n
  {
    if cs == [] then None
    else if cs[0].number == n then Some(cs[0])
    else
      var r := FindByNumber(cs[1..], n);
      assert r.Some? ==> exists i | 0 <= i < |cs| ::
        cs[i] == r.value && r.value.number == n && forall j | 0 <= j < i :: cs[j].number != n by {
        if r.Some? {
          var i :| 0 <= i < |cs[1..]| && cs[1..][i] == r.value && r.value.number == n &&
            forall j | 0 <= j < i :: cs[1..][j].number != n;
          assert cs[i + 1] == r.value && forall j | 0 <= j < i + 1 :: cs[j].number != n;
        }
      }
      r
  }

  /**
   * `getCourseFromNumber`: a major with an empty list accepts any number as
   * given; otherwise the first course whose number is the lower-cased input.
   * A major missing from the catalog makes the source throw.
   */
  function GetCourseFromNumber(catalog: Catalog, number: string, major: Major): (r: Outcome<Option<Course>>)
    ensures r.Thrown? <==> major.prefix !in catalog
    ensures major.prefix in catalog && catalog[major.prefix] == [] ==> r == Ok(Some(Course(number, major, None)))
    ensures major.prefix in catalog && catalog[major.prefix] != [] ==>
      && (r.value.Some? <==> exists c | c in catalog[major.prefix] :: c.number == Text.ToLower(number))
      && (r.value.Some? ==> r.value.value in catalog[major.prefix] && r.value.value.number == Text.ToLower(number))
  {
    if major.prefix !in catalog then Thrown("no course list for the major")
    else if catalog[major.prefix] == [] then Ok(Some(Course(number, major, None)))
    else Ok(FindByNumber(catalog[major.prefix], Text.ToLower(number)))
  }

  datatype Resolution = Resolution(validCourses: seq<Course>, invalidCourseNames: seq<string>)

  /** The reference partition, number by number, in order. */
  function Partition(catalog: Catalog, list: seq<string>, major: Major): Resolution
    requires list == [] || major.prefix in catalog
  {
    if list == [] then Resolution([], [])
    else
      var prior := Partition(catalog, list[..|list| - 1], major);
      var n := list[|list| - 1];
      match GetCourseFromNumber(catalog, n, major).value
      case Some(c) => prior.(validCourses := prior.validCourses + [c])
      case None => prior.(invalidCourseNames := prior.invalidCourseNames + [major.prefix + "-" + n])
  }

  /** Every number lands in exactly one of the two lists. */
  lemma {:induction false} PartitionSizes(catalog: Catalog, list: seq<string>, major: Major)
    requires list == [] || major.prefix in catalog
    ensures |Partition(catalog, list, major).validCourses| + |Partition(catalog, list, major).invalidCourseNames| == |list|
  {
    if list != [] {
      PartitionSizes(catalog, list[..|list| - 1], major);
    }
  }

  /**
   * Valid courses are resolutions of given numbers, invalid names are
   * `{prefix}-{number}` for given numbers that did not resolve.
   */
  lemma {:induction false} PartitionSources(catalog: Catalog, list: seq<string>, major: Major)
    requires list == [] || major.prefix in catalog
    ensures forall c | c in Partition(catalog, list, major).validCourses ::
      exists i | 0 <= i < |list| :: GetCourseFromNumber(catalog, list[i], major) == Ok(Some(c))
    ensures forall name | name in Partition(catalog, list, major).invalidCourseNames ::
      exists i | 0 <= i < |list| :: GetCourseFromNumber(catalog, list[i], major) == Ok(None) &&
        name == major.prefix + "-" + list[i]
  {
    if list != [] {
      var init := list[..|list| - 1];
      PartitionSources(catalog, init, major);
      assert forall i | 0 <= i < |init| :: init[i] == list[i];
    }
  }

  /** With an empty course list every number is valid, as a course of that number. */
  lemma {:induction false} PartitionOfEmptyList(catalog: Catalog, list: seq<string>, major: Major)
    requires major.prefix in catalog && catalog[major.prefix] == []
    ensures Partition(catalog, list, major).invalidCourseNames == []
    ensures |Partition(catalog, list, major).validCourses| == |list|
    ensures forall i | 0 <= i < |list| :: Partition(catalog, list, major).validCourses[i] == Course(list[i], major, None)
  {
    if list != [] {
      PartitionOfEmptyList(catalog, list[..|list| - 1], major);
    }
  }

  /**
   * `getCoursesFromNumberList`: every number is resolved, then the results
   * are split into valid courses and invalid names; a number list for a
   * major missing from the catalog rejects.
   */
  method GetCoursesFromNumberList(catalog: Catalog, list: seq<string>, major: Major) returns (r: Outcome<Resolution>)
    ensures r.Thrown? <==> list != [] && major.prefix !in catalog
    ensures r.Ok? ==> r.value == Partition(catalog, list, major)
  {
    if list != [] && major.prefix !in catalog {
      return Thrown("no course list for the major");
    }
    var valid, invalid := [], [];
    var i := 0;
    while i < |list|
      invariant 0 <= i <= |list|
      invariant Resolution(valid, invalid) == Partition(catalog, list[..i], major)
    {
      assert list[..i + 1][..i] == list[..i];
      var course := GetCourseFromNumber(catalog, list[i], major);
      if course.value.Some? {
        valid := valid + [course.value.value];
      } else {
        invalid := invalid + [major.prefix + "-" + list[i]];
      }
      i := i + 1;
    }
    assert list[..i] == list;
    r := Ok(Resolution(valid, invalid));
  }

  /** The resolution of one prefix's numbers, `majors[prefix]` being the configured major. */
  function ResolutionFor(catalog: Catalog, majors: map<string, Major>, prefix: string, list: seq<string>): Resolution
    requires list == [] || (prefix in majors && majors[prefix].prefix in catalog)
  {
    if list == [] then Resolution([], []) else Partition(catalog, list, majors[prefix])
  }

  /** Whether resolving this prefix's numbers rejects. */
  predicate Rejects(catalog: Catalog, majors: map<string, Major>, prefix: string, list: seq<string>) {
    list != [] && (prefix !in majors || majors[prefix].prefix !in catalog)
  }

  /**
   * `getCoursesFromNumberListsByMajor`: one resolution per input prefix,
   * keyed by that prefix; any rejection rejects the whole.
   */
  method GetCoursesFromNumberListsByMajor(catalog: Catalog, majors: map<string, Major>,
    numbersByMajor: map<string, seq<string>>) returns (r: Outcome<map<string, Resolution>>)
    ensures r.Thrown? <==> exists p | p in numbersByMajor :: Rejects(catalog, majors, p, numbersByMajor[p])
    ensures r.Ok? ==> r.value.Keys == numbersByMajor.Keys
    ensures r.Ok? ==> forall p | p in numbersByMajor ::
      !Rejects(catalog, majors, p, numbersByMajor[p]) &&
      r.value[p] == ResolutionFor(catalog, majors, p, numbersByMajor[p])
  {
    var mapping: map<string, Resolution> := map[];
    var remaining := numbersByMajor.Keys;
    while remaining != {}
      invariant remaining <= numbersByMajor.Keys
      invariant mapping.Keys == numbersByMajor.Keys - remaining
      invariant forall p | p in mapping ::
        !Rejects(catalog, majors, p, numbersByMajor[p]) && mapping[p] == ResolutionFor(catalog, majors, p, numbersByMajor[p])
      decreases remaining
    {
      var p :| p in remaining;
      var list := numbersByMajor[p];
      var resolved: Outcome<Resolution>;
      if list == [] {
        resolved := Ok(Resolution([], []));
      } else if p !in majors {
        resolved := Thrown("the prefix is not a configured major");
      } else {
        resolved := GetCoursesFromNumberList(catalog, list, majors[p]);
      }
      if resolved.Thrown? {
        return Thrown(resolved.reason);
      }
      mapping := mapping[p := resolved.value];
      remaining := remaining - {p};
    }
    r := Ok(mapping);
  }
}
