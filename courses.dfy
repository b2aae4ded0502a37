/** The logical entities: majors, courses, course keys and assignments. */
module Courses {
  import opened Wrappers

  /** A major, identified by its lower-case prefix (`cs`, `math`). */
  datatype Major = Major(prefix: string)

  /** A course of a major; `number` is text so that `1410` and `01410` differ. */
  datatype Course = Course(number: string, major: Major, title: Option<string>)

  /**
   * The composite course key `{prefix}-{number}` (`course.key` and
   * `CourseUtils.convertToString` in the source, neither of which is part
   * of this model).
   */
  function Key(c: Course): (k: string)
    ensures |k| == |c.major.prefix| + 1 + |c.number|
    ensures k[..|c.major.prefix|] == c.major.prefix && k[|c.major.prefix|] == '-'
    ensures k[|c.major.prefix| + 1..] == c.number
  {
    c.major.prefix + "-" + c.number
  }

  /** One entry of a user's per-guild course list. */
  datatype Assignment = Assignment(courseKey: string, isTA: bool)

  function AssignmentKey(a: Assignment): string { a.courseKey }

  /** The first assignment with `key`, as `Array.prototype.find` returns it. */
  function FindAssignment(s: seq<Assignment>, key: string): (r: Option<Assignment>)
    ensures r.None? <==> forall i | 0 <= i < |s| :: s[i].courseKey != key
    ensures r.Some? ==> r.value.courseKey == key && r.value in s
    ensures r.Some? ==> exists i | 0 <= i < |s| :: s[i] == r.value && forall j | 0 <= j < i :: s[j].courseKey != key
  {
    if s == [] then None
    else if s[0].courseKey == key then Some(s[0])
    else
      var r := FindAssignment(s[1..], key);
      assert r.Some? ==> exists i | 0 <= i < |s| :: s[i] == r.value && forall j | 0 <= j < i :: s[j].courseKey != key by {
        if r.Some? {
          var i :| 0 <= i < |s[1..]| && s[1..][i] == r.value && forall j | 0 <= j < i :: s[1..][j].courseKey != key;
          assert s[i + 1] == r.value && forall j | 0 <= j < i + 1 :: s[j].courseKey != key;
        }
      }
      r
  }
}
