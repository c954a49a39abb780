/** The lessons list of a chapter (LessonsTable.tsx): it maps the untyped
    lessons the server returns onto typed rows, normalising the lesson
    type, and deletes the lesson picked for deletion. */
module LessonsTable {
  import opened JsValues
  import opened Text
  import opened LessonKinds

  /** A row of the table. `id` and `name` are copied as the server sent them. */
  datatype LessonRow = LessonRow(id: Value, name: Value, lessonType: LessonType, duration: Value)

  /** The type normalisation of `fetchLessons`: a string is "Attachment"
      exactly when it lower-cases to "attachment", a number exactly when it
      is 1, and every other value is "Video". */
  function NormalizeType(raw: Value): (t: LessonType)
    ensures t == Attachment <==> (raw.Str? && Lower(raw.s) == "attachment") || (raw.Num? && raw.n == 1)
  {
    match raw
    case Str(s) => if Lower(s) == "attachment" then Attachment else Video
    case Num(n) => if n == 1 then Attachment else Video
    case _ => Video
  }

  /** One lesson of the reply as a row; the duration is `duration || "N/A"`. */
  function MapLesson(lesson: Record): (row: LessonRow)
    ensures row.id == Get(lesson, "id") && row.name == Get(lesson, "name")
    ensures row.lessonType == NormalizeType(Get(lesson, "type"))
    ensures Truthy(row.duration)
    ensures Truthy(Get(lesson, "duration")) ==> row.duration == lesson["duration"]
    ensures !Truthy(Get(lesson, "duration")) ==> row.duration == Str("N/A")
  {
    LessonRow(Get(lesson, "id"), Get(lesson, "name"), NormalizeType(Get(lesson, "type")),
              Or(Get(lesson, "duration"), Str("N/A")))
  }

  /** `data.lessons.map(...)` */
  function MapLessons(lessons: seq<Record>): (rows: seq<LessonRow>)
    ensures |rows| == |lessons|
    ensures forall k :: 0 <= k < |lessons| ==> rows[k] == MapLesson(lessons[k])
  {
    if lessons == [] then [] else MapLessons(lessons[..|lessons| - 1]) + [MapLesson(lessons[|lessons| - 1])]
  }

  /** Mapping two runs of lessons one after the other maps each in place. */
  lemma {:induction false} MapLessonsAppend(a: seq<Record>, b: seq<Record>)
    ensures MapLessons(a + b) == MapLessons(a) + MapLessons(b)
    decreases |b|
  {
    if b != [] {
      var init := b[..|b| - 1];
      assert (a + b)[..|a + b| - 1] == a + init;
      MapLessonsAppend(a, init);
    } else {
      assert a + b == a;
    }
  }

  /** The reply to `GetLessons`. `lessons` is None when the field is not an
      array; a rejected fetch or an unreadable body is `LessonsFetchFailed`. */
  datatype LessonsReply = LessonsReplied(isSuccess: bool, lessons: Option<seq<Record>>) | LessonsFetchFailed

  /** The state the component keeps. */
  class LessonsTableState {
    var lessons: seq<LessonRow>
    var loading: bool
    var lessonToDelete: Option<LessonRow>
    /** `searchParams.get("chapterid")` */
    const chapterId: Option<string>

    constructor (chapterId: Option<string>)
      ensures lessons == [] && loading && lessonToDelete.None? && this.chapterId == chapterId
    {
      lessons := [];
      loading := true;
      lessonToDelete := None;
      this.chapterId := chapterId;
    }

    /** `fetchLessons`: without a chapter id nothing happens; otherwise a
        successful reply holding an array replaces the rows, anything else
        keeps them, and loading always ends. */
    method FetchLessons(reply: LessonsReply)
      modifies this`lessons, this`loading
      ensures !Present(chapterId) ==> lessons == old(lessons) && loading == old(loading)
      ensures Present(chapterId) ==> !loading
      ensures Present(chapterId) && reply.LessonsReplied? && reply.isSuccess && reply.lessons.Some? ==>
                lessons == MapLessons(reply.lessons.value)
      ensures !(reply.LessonsReplied? && reply.isSuccess && reply.lessons.Some?) ==> lessons == old(lessons)
    {
      if !Present(chapterId) {
        return;
      }
      loading := true;
      if reply.LessonsReplied? && reply.isSuccess && reply.lessons.Some? {
        lessons := MapLessons(reply.lessons.value);
      }
      loading := false;
    }

    /** The delete button of a row, which opens the confirmation. */
    method AskToDelete(row: LessonRow)
      modifies this`lessonToDelete
      ensures lessonToDelete == Some(row)
    {
      lessonToDelete := Some(row);
    }

    /** Closing the confirmation without deleting: `onClose` forgets the row. */
    method CancelDelete()
      modifies this`lessonToDelete
      ensures lessonToDelete.None?
    {
      lessonToDelete := None;
    }

    /** `handleDeleteLesson`: with no lesson picked nothing is sent. `ok` is
        whether the DELETE resolved with `res.ok`, `reload` the reply to the
        `fetchLessons` that follows a success. Returns the path requested. */
    method HandleDeleteLesson(ok: bool, reload: LessonsReply) returns (request: Option<string>)
      modifies this`lessonToDelete, this`lessons, this`loading
      ensures old(lessonToDelete).None? ==>
                request.None? && lessonToDelete.None? && lessons == old(lessons) && loading == old(loading)
      ensures old(lessonToDelete).Some? ==>
                request == Some("/Lessons/DeleteLesson?Id=" + ToText(old(lessonToDelete).value.id))
      ensures old(lessonToDelete).Some? && !ok ==>
                lessonToDelete == old(lessonToDelete) && lessons == old(lessons) && loading == old(loading)
      ensures old(lessonToDelete).Some? && ok ==> lessonToDelete.None?
      ensures old(lessonToDelete).Some? && ok && Present(chapterId) ==> !loading
      ensures (old(lessonToDelete).Some? && ok && Present(chapterId) && reload.LessonsReplied? && reload.isSuccess &&
               reload.lessons.Some?) ==> lessons == MapLessons(reload.lessons.value)
      ensures old(lessonToDelete).Some? && ok && !(reload.LessonsReplied? && reload.isSuccess && reload.lessons.Some?) ==>
                lessons == old(lessons)
      ensures old(lessonToDelete).Some? && ok && !Present(chapterId) ==> lessons == old(lessons) && loading == old(loading)
    {
      request := None;
      if lessonToDelete.None? {
        return;
      }
      request := Some("/Lessons/DeleteLesson?Id=" + ToText(lessonToDelete.value.id));
      if !ok {
        return;
      }
      lessonToDelete := None;
      FetchLessons(reload);
    }
  }
}
