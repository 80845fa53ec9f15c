/** The course data service: the in-memory course table. */
module CourseService {
  import opened Js

  datatype Course = Course(
    id: string,
    title: string,
    language: string,
    level: string,
    totalLessons: int,
    completedLessons: int)

  /** The fields an `updates` object supplies; `None` is an absent key. */
  datatype CoursePatch = CoursePatch(
    id: Option<string>,
    title: Option<string>,
    language: Option<string>,
    level: Option<string>,
    totalLessons: Option<int>,
    completedLessons: Option<int>)

  /** `{ ...course, ...updates }`. */
  function Merge(c: Course, p: CoursePatch): Course
  {
    Course(
      if p.id.Some? then p.id.value else c.id,
      if p.title.Some? then p.title.value else c.title,
      if p.language.Some? then p.language.value else c.language,
      if p.level.Some? then p.level.value else c.level,
      if p.totalLessons.Some? then p.totalLessons.value else c.totalLessons,
      if p.completedLessons.Some? then p.completedLessons.value else c.completedLessons)
  }

  /** The record `create` appends: the supplied fields, a new id, no lessons completed. */
  function NewCourse(data: Course, now: nat): (c: Course)
    ensures c.completedLessons == 0
    ensures c.title == data.title && c.language == data.language && c.level == data.level
    ensures c.totalLessons == data.totalLessons
  {
    data.(id := "course-" + NatToString(now), completedLessons := 0)
  }

  function IdIndex(courses: seq<Course>, id: string): int
  {
    FindIndex(courses, (c: Course) => c.id == id)
  }

  class CourseTable {
    /** `coursesData`, the module-level array the service mutates. */
    var courses: seq<Course>

    constructor (fixture: seq<Course>)
      ensures courses == fixture
    {
      courses := fixture;
    }

    /** `getAll`: a copy of the whole table, in order (values are copied by construction). */
    function GetAll(): seq<Course>
      reads this
    {
      courses
    }

    /** `getById`: the first course with that id, or "not found". */
    function GetById(id: string): (r: Result<Course>)
      reads this
      ensures r.Err? <==> forall i :: 0 <= i < |courses| ==> courses[i].id != id
      ensures r.Err? ==> r.error == NotFound("Course", id)
      ensures r.Ok? ==> exists i :: 0 <= i < |courses| && courses[i] == r.value && r.value.id == id
                          && forall j :: 0 <= j < i ==> courses[j].id != id
    {
      var i := IdIndex(courses, id);
      if i < 0 then Err(NotFound("Course", id)) else Ok(courses[i])
    }

    /** `create`: appends one course with no lessons completed. */
    method Create(data: Course, now: nat) returns (created: Course)
      modifies this
      ensures created == NewCourse(data, now)
      ensures courses == old(courses) + [created]
    {
      created := NewCourse(data, now);
      courses := courses + [created];
    }

    /** `update`: merges `updates` into the matching course only. */
    method Update(id: string, updates: CoursePatch) returns (r: Result<Course>)
      modifies this
      ensures var i := IdIndex(old(courses), id);
              if i < 0 then r == Err(NotFound("Course", id)) && courses == old(courses)
              else r == Ok(Merge(old(courses)[i], updates)) && courses == old(courses)[i := r.value]
    {
      var i := IdIndex(courses, id);
      if i < 0 {
        return Err(NotFound("Course", id));
      }
      courses := courses[i := Merge(courses[i], updates)];
      r := Ok(courses[i]);
    }

    /** `delete`: splices out the matching course. */
    method Delete(id: string) returns (r: Result<bool>)
      modifies this
      ensures var i := IdIndex(old(courses), id);
              if i < 0 then r == Err(NotFound("Course", id)) && courses == old(courses)
              else r == Ok(true) && courses == RemoveAt(old(courses), i)
    {
      var i := IdIndex(courses, id);
      if i < 0 {
        return Err(NotFound("Course", id));
      }
      courses := RemoveAt(courses, i);
      r := Ok(true);
    }
  }
}
