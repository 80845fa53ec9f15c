/**
 * The flashcard data service: the in-memory card table. Despite the
 * "spaced repetition" label, a review only stores the raw rating in
 * `difficulty` and stamps `lastReviewed`; no interval is computed.
 */
module FlashcardService {
  import opened Js

  datatype Flashcard = Flashcard(
    id: string,
    courseId: string,
    front: string,
    back: string,
    category: string,
    difficulty: int,
    lastReviewed: Option<string>)

  /** The fields an `updates` object supplies; `None` is an absent key. */
  datatype FlashcardPatch = FlashcardPatch(
    id: Option<string>,
    courseId: Option<string>,
    front: Option<string>,
    back: Option<string>,
    category: Option<string>,
    difficulty: Option<int>,
    lastReviewed: Option<Option<string>>)

  /** `{ ...card, ...updates }`. */
  function Merge(c: Flashcard, p: FlashcardPatch): Flashcard
  {
    Flashcard(
      if p.id.Some? then p.id.value else c.id,
      if p.courseId.Some? then p.courseId.value else c.courseId,
      if p.front.Some? then p.front.value else c.front,
      if p.back.Some? then p.back.value else c.back,
      if p.category.Some? then p.category.value else c.category,
      if p.difficulty.Some? then p.difficulty.value else c.difficulty,
      if p.lastReviewed.Some? then p.lastReviewed.value else c.lastReviewed)
  }

  /** The updates `updateDifficulty` sends: the rating and the review time, nothing else. */
  function ReviewPatch(difficulty: int, reviewedAt: string): FlashcardPatch
  {
    FlashcardPatch(None, None, None, None, None, Some(difficulty), Some(Some(reviewedAt)))
  }

  /** A review stores the rating unchecked, stamps the time and keeps the card's content. */
  lemma ReviewKeepsContent(c: Flashcard, difficulty: int, reviewedAt: string)
    ensures var r := Merge(c, ReviewPatch(difficulty, reviewedAt));
            r == c.(difficulty := difficulty, lastReviewed := Some(reviewedAt))
  {
  }

  /** The record `create` appends: the supplied fields, a new id, difficulty 1, never reviewed. */
  function NewCard(data: Flashcard, now: nat): (c: Flashcard)
    ensures c.difficulty == 1 && c.lastReviewed == None
    ensures c.courseId == data.courseId && c.front == data.front && c.back == data.back
    ensures c.category == data.category
  {
    data.(id := "flashcard-" + NatToString(now), difficulty := 1, lastReviewed := None)
  }

  function IdIndex(cards: seq<Flashcard>, id: string): int
  {
    FindIndex(cards, (c: Flashcard) => c.id == id)
  }

  /** The filter test `c => c.courseId === courseId`. */
  function InCourse(courseId: string): Flashcard -> bool
  {
    (c: Flashcard) => c.courseId == courseId
  }

  class FlashcardTable {
    /** `flashcardsData`, the module-level array the service mutates. */
    var cards: seq<Flashcard>

    constructor (fixture: seq<Flashcard>)
      ensures cards == fixture
    {
      cards := fixture;
    }

    /** `getById`: the first card with that id, or "not found". */
    function GetById(id: string): (r: Result<Flashcard>)
      reads this
      ensures r.Err? <==> forall i :: 0 <= i < |cards| ==> cards[i].id != id
      ensures r.Err? ==> r.error == NotFound("Flashcard", id)
      ensures r.Ok? ==> exists i :: 0 <= i < |cards| && cards[i] == r.value && r.value.id == id
                          && forall j :: 0 <= j < i ==> cards[j].id != id
    {
      var i := IdIndex(cards, id);
      if i < 0 then Err(NotFound("Flashcard", id)) else Ok(cards[i])
    }

    /** `getByCourseId`: exactly the cards of that course, in table order. */
    function GetByCourseId(courseId: string): (r: seq<Flashcard>)
      reads this
      ensures forall i :: 0 <= i < |r| ==> r[i] in cards && r[i].courseId == courseId
      ensures forall i :: 0 <= i < |cards| && cards[i].courseId == courseId ==> cards[i] in r
      ensures forall x :: multiset(r)[x] == if x.courseId == courseId then multiset(cards)[x] else 0
    {
      FilterCounts(cards, InCourse(courseId));
      Filter(cards, InCourse(courseId))
    }

    /** `create`: appends one card with difficulty 1 and no review date. */
    method Create(data: Flashcard, now: nat) returns (created: Flashcard)
      modifies this
      ensures created == NewCard(data, now)
      ensures cards == old(cards) + [created]
      ensures forall courseId :: GetByCourseId(courseId)
                == old(GetByCourseId(courseId)) + if created.courseId == courseId then [created] else []
    {
      created := NewCard(data, now);
      ghost var before := cards;
      cards := cards + [created];
      forall courseId
        ensures Filter(cards, InCourse(courseId)) == Filter(before, InCourse(courseId)) + if created.courseId == courseId then [created] else []
      {
        FilterSnoc(before, created, InCourse(courseId));
      }
    }

    /** `update`: merges `updates` into the matching card only. */
    method Update(id: string, updates: FlashcardPatch) returns (r: Result<Flashcard>)
      modifies this
      ensures var i := IdIndex(old(cards), id);
              if i < 0 then r == Err(NotFound("Flashcard", id)) && cards == old(cards)
              else r == Ok(Merge(old(cards)[i], updates)) && cards == old(cards)[i := r.value]
    {
      var i := IdIndex(cards, id);
      if i < 0 {
        return Err(NotFound("Flashcard", id));
      }
      cards := cards[i := Merge(cards[i], updates)];
      r := Ok(cards[i]);
    }

    /** `updateDifficulty`: an `update` with the rating and the review time. */
    method UpdateDifficulty(id: string, difficulty: int, reviewedAt: string) returns (r: Result<Flashcard>)
      modifies this
      ensures var i := IdIndex(old(cards), id);
              if i < 0 then r == Err(NotFound("Flashcard", id)) && cards == old(cards)
              else r == Ok(old(cards)[i].(difficulty := difficulty, lastReviewed := Some(reviewedAt)))
                   && cards == old(cards)[i := r.value]
    {
      r := Update(id, ReviewPatch(difficulty, reviewedAt));
    }

    /** `delete`: splices out the matching card. */
    method Delete(id: string) returns (r: Result<bool>)
      modifies this
      ensures var i := IdIndex(old(cards), id);
              if i < 0 then r == Err(NotFound("Flashcard", id)) && cards == old(cards)
              else r == Ok(true) && cards == RemoveAt(old(cards), i)
    {
      var i := IdIndex(cards, id);
      if i < 0 {
        return Err(NotFound("Flashcard", id));
      }
      cards := RemoveAt(cards, i);
      r := Ok(true);
    }
  }
}
