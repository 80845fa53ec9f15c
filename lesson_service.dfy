/** The lesson data service: the in-memory lesson table. */
module LessonService {
  import opened Js

  datatype Lesson = Lesson(
    id: string,
    courseId: string,
    title: string,
    order: int,
    completed: bool)

  /** The fields an `updates` object supplies; `None` is an absent key. */
  datatype LessonPatch = LessonPatch(
    id: Option<string>,
    courseId: Option<string>,
    title: Option<string>,
    order: Option<int>,
    completed: Option<bool>)

  /** `{ ...lesson, ...updates }`. */
  function Merge(l: Lesson, p: LessonPatch): Lesson
  {
    Lesson(
      if p.id.Some? then p.id.value else l.id,
      if p.courseId.Some? then p.courseId.value else l.courseId,
      if p.title.Some? then p.title.value else l.title,
      if p.order.Some? then p.order.value else l.order,
      if p.completed.Some? then p.completed.value else l.completed)
  }

  /** The updates `markComplete` sends. */
  const CompletePatch := LessonPatch(None, None, None, None, Some(true))

  /** Marking a lesson complete sets only `completed`, and doing it twice is doing it once. */
  lemma MarkCompleteIdempotent(l: Lesson)
    ensures Merge(l, CompletePatch) == l.(completed := true)
    ensures Merge(Merge(l, CompletePatch), CompletePatch) == Merge(l, CompletePatch)
  {
  }

  /** The record `create` appends: the supplied fields, a new id, not completed. */
  function NewLesson(data: Lesson, now: nat): (l: Lesson)
    ensures !l.completed
    ensures l.courseId == data.courseId && l.title == data.title && l.order == data.order
  {
    data.(id := "lesson-" + NatToString(now), completed := false)
  }

  function IdIndex(lessons: seq<Lesson>, id: string): int
  {
    FindIndex(lessons, (l: Lesson) => l.id == id)
  }

  /** The filter test `l => l.courseId === courseId`. */
  function InCourse(courseId: string): Lesson -> bool
  {
    (l: Lesson) => l.courseId == courseId
  }

  class LessonTable {
    /** `lessonsData`, the module-level array the service mutates. */
    var lessons: seq<Lesson>

    constructor (fixture: seq<Lesson>)
      ensures lessons == fixture
    {
      lessons := fixture;
    }

    /** `getById`: the first lesson with that id, or "not found". */
    function GetById(id: string): (r: Result<Lesson>)
      reads this
      ensures r.Err? <==> forall i :: 0 <= i < |lessons| ==> lessons[i].id != id
      ensures r.Err? ==> r.error == NotFound("Lesson", id)
      ensures r.Ok? ==> exists i :: 0 <= i < |lessons| && lessons[i] == r.value && r.value.id == id
                          && forall j :: 0 <= j < i ==> lessons[j].id != id
    {
      var i := IdIndex(lessons, id);
      if i < 0 then Err(NotFound("Lesson", id)) else Ok(lessons[i])
    }

    /** `getByCourseId`: exactly the lessons of that course, in table order. */
    function GetByCourseId(courseId: string): (r: seq<Lesson>)
      reads this
      ensures forall i :: 0 <= i < |r| ==> r[i] in lessons && r[i].courseId == courseId
      ensures forall i :: 0 <= i < |lessons| && lessons[i].courseId == courseId ==> lessons[i] in r
      ensures forall x :: multiset(r)[x] == if x.courseId == courseId then multiset(lessons)[x] else 0
    {
      FilterCounts(lessons, InCourse(courseId));
      Filter(lessons, InCourse(courseId))
    }

    /** `create`: appends one lesson, not completed. */
    method Create(data: Lesson, now: nat) returns (created: Lesson)
      modifies this
      ensures created == NewLesson(data, now)
      ensures lessons == old(lessons) + [created]
      ensures forall courseId :: GetByCourseId(courseId)
                == old(GetByCourseId(courseId)) + if created.courseId == courseId then [created] else []
    {
      created := NewLesson(data, now);
      ghost var before := lessons;
      lessons := lessons + [created];
      forall courseId
        ensures Filter(lessons, InCourse(courseId)) == Filter(before, InCourse(courseId)) + if created.courseId == courseId then [created] else []
      {
        FilterSnoc(before, created, InCourse(courseId));
      }
    }

    /** `update`: merges `updates` into the matching lesson only. */
    method Update(id: string, updates: LessonPatch) returns (r: Result<Lesson>)
      modifies this
      ensures var i := IdIndex(old(lessons), id);
              if i < 0 then r == Err(NotFound("Lesson", id)) && lessons == old(lessons)
              else r == Ok(Merge(old(lessons)[i], updates)) && lessons == old(lessons)[i := r.value]
    {
      var i := IdIndex(lessons, id);
      if i < 0 {
        return Err(NotFound("Lesson", id));
      }
      lessons := lessons[i := Merge(lessons[i], updates)];
      r := Ok(lessons[i]);
    }

    /** `markComplete`: an `update` that sets `completed`. */
    method MarkComplete(id: string) returns (r: Result<Lesson>)
      modifies this
      ensures var i := IdIndex(old(lessons), id);
              if i < 0 then r == Err(NotFound("Lesson", id)) && lessons == old(lessons)
              else r == Ok(old(lessons)[i].(completed := true)) && lessons == old(lessons)[i := r.value]
    {
      r := Update(id, CompletePatch);
    }

    /** `delete`: splices out the matching lesson. */
    method Delete(id: string) returns (r: Result<bool>)
      modifies this
      ensures var i := IdIndex(old(lessons), id);
              if i < 0 then r == Err(NotFound("Lesson", id)) && lessons == old(lessons)
              else r == Ok(true) && lessons == RemoveAt(old(lessons), i)
    {
      var i := IdIndex(lessons, id);
      if i < 0 {
        return Err(NotFound("Lesson", id));
      }
      lessons := RemoveAt(lessons, i);
      r := Ok(true);
    }
  }
}
