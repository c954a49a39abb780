/** The curriculum panel of the preview/publish page (CurriculumPublish.tsx):
    it sums the `hh:mm:ss` durations of all lessons (and of the video lessons
    alone), counts attachments, prints minute totals as `HHh MMm`, labels each
    lesson with its length in minutes, and keeps one chapter expanded. */
module CurriculumPublish {
  import opened JsValues
  import opened Text
  import LessonsTable
  import LessonKinds

  /** A lesson as the chapters reply carries it. `lessonType` is kept as the
      value the server sent: the panel compares it with "Video" and
      "Attachment" exactly, so any other value counts as neither. */
  datatype Lesson = Lesson(id: string, name: string, duration: Option<string>, lessonType: Value)

  datatype Chapter = Chapter(id: string, name: string, lessons: seq<Lesson>)

  /** `const [hh, mm, ss] = duration.split(":").map(Number)` followed by
      `hh * 3600 + mm * 60 + ss`. With fewer than three pieces `ss` is
      undefined and the sum is NaN; pieces after the third are ignored. */
  function HmsSeconds(duration: string): (r: Number)
    ensures r.Int? ==> r.i >= 0
  {
    var parts := Split(duration, ':');
    if |parts| < 3 then NaN
    else StringToNumber(parts[0]).Times(3600).Plus(StringToNumber(parts[1]).Times(60)).Plus(StringToNumber(parts[2]))
  }

  /** Any duration whose three fields read as the numbers a, b and c lasts
      a * 3600 + b * 60 + c seconds. */
  lemma FieldSeconds(duration: string, hh: string, mm: string, ss: string, a: nat, b: nat, c: nat)
    requires Split(duration, ':') == [hh, mm, ss]
    requires StringToNumber(hh) == Int(a) && StringToNumber(mm) == Int(b) && StringToNumber(ss) == Int(c)
    ensures HmsSeconds(duration) == Int(a * 3600 + b * 60 + c)
  {
  }

  /** `if (lesson.duration)`: a missing or empty duration is skipped. */
  predicate HasDuration(lesson: Lesson) {
    Present(lesson.duration)
  }

  /** Whether a sum counts the lesson: the total counts every lesson, the
      video sum only lessons of type "Video". */
  predicate Counted(lesson: Lesson, videoOnly: bool) {
    (!videoOnly || lesson.lessonType == Str("Video")) && HasDuration(lesson)
  }

  /** The seconds a lesson adds to a sum. */
  function LessonSeconds(lesson: Lesson, videoOnly: bool): (r: Number)
    ensures !Counted(lesson, videoOnly) ==> r == Int(0)
    ensures r.Int? ==> r.i >= 0
  {
    if Counted(lesson, videoOnly) then HmsSeconds(lesson.duration.value) else Int(0)
  }

  /** Every lesson of every chapter, chapter by chapter. */
  function AllLessons(chapters: seq<Chapter>): seq<Lesson> {
    if chapters == [] then []
    else AllLessons(chapters[..|chapters| - 1]) + chapters[|chapters| - 1].lessons
  }

  /** The `totalSeconds` accumulator after visiting `lessons` in order. */
  function SumSeconds(lessons: seq<Lesson>, videoOnly: bool): (r: Number)
    ensures r.Int? ==> r.i >= 0
  {
    if lessons == [] then Int(0)
    else SumSeconds(lessons[..|lessons| - 1], videoOnly).Plus(LessonSeconds(lessons[|lessons| - 1], videoOnly))
  }

  /** `Math.floor(totalSeconds / 60)`; NaN stays NaN. */
  function FloorMinutes(seconds: Number): (r: Number)
    ensures seconds.Int? <==> r.Int?
    ensures r.Int? && seconds.i >= 0 ==> r.i * 60 <= seconds.i < r.i * 60 + 60
  {
    if seconds.Int? then Int(seconds.i / 60) else NaN
  }

  /** What `calculateTotalDuration` returns. */
  function TotalMinutes(chapters: seq<Chapter>): Number {
    FloorMinutes(SumSeconds(AllLessons(chapters), false))
  }

  /** What `calculateVideoDuration` returns. */
  function VideoMinutes(chapters: seq<Chapter>): Number {
    FloorMinutes(SumSeconds(AllLessons(chapters), true))
  }

  /** The number of lessons of type "Attachment" in the list. */
  function CountAttachments(lessons: seq<Lesson>): (n: nat)
    ensures n <= |lessons|
  {
    if lessons == [] then 0
    else CountAttachments(lessons[..|lessons| - 1]) + (if lessons[|lessons| - 1].lessonType == Str("Attachment") then 1 else 0)
  }

  /** A lesson whose type is neither "Video" nor "Attachment" adds nothing
      to the video sum and is not counted as an attachment. */
  lemma OtherTypesCountAsNeither(lesson: Lesson)
    requires lesson.lessonType != Str("Video") && lesson.lessonType != Str("Attachment")
    ensures LessonSeconds(lesson, true) == Int(0)
    ensures CountAttachments([lesson]) == 0
  {
    assert [lesson][..0] == [];
  }

  /** The lessons table shows a lesson typed 1 or "attachment" as an
      attachment, but this panel, comparing exactly, does not count it. */
  lemma TableAttachmentsThePanelSkips(id: string, name: string, duration: Option<string>)
    ensures LessonsTable.NormalizeType(Num(1)) == LessonKinds.Attachment
    ensures LessonsTable.NormalizeType(Str("attachment")) == LessonKinds.Attachment
    ensures CountAttachments([Lesson(id, name, duration, Num(1))]) == 0
    ensures CountAttachments([Lesson(id, name, duration, Str("attachment"))]) == 0
  {
    OtherTypesCountAsNeither(Lesson(id, name, duration, Num(1)));
    OtherTypesCountAsNeither(Lesson(id, name, duration, Str("attachment")));
  }

  /** The video sum never exceeds the total: whenever the total is a number,
      so is the video sum, and it is at most the total (in seconds). */
  lemma {:induction false} VideoSecondsAtMostTotal(lessons: seq<Lesson>)
    ensures SumSeconds(lessons, false).Int? ==>
              SumSeconds(lessons, true).Int? && SumSeconds(lessons, true).i <= SumSeconds(lessons, false).i
  {
    if lessons != [] {
      VideoSecondsAtMostTotal(lessons[..|lessons| - 1]);
    }
  }

  /** The video duration shown is never greater than the total duration. */
  lemma VideoMinutesAtMostTotal(chapters: seq<Chapter>)
    ensures TotalMinutes(chapters).Int? ==>
              VideoMinutes(chapters).Int? && VideoMinutes(chapters).i <= TotalMinutes(chapters).i
  {
    VideoSecondsAtMostTotal(AllLessons(chapters));
  }

  /** The lesson count the panel shows (`reduce` over `lessons.length`). */
  function LessonCount(chapters: seq<Chapter>): nat {
    if chapters == [] then 0
    else LessonCount(chapters[..|chapters| - 1]) + |chapters[|chapters| - 1].lessons|
  }

  /** The attachment count is at most the number of lessons shown. */
  lemma {:induction false} AttachmentsAtMostLessons(chapters: seq<Chapter>)
    ensures CountAttachments(AllLessons(chapters)) <= LessonCount(chapters)
    ensures |AllLessons(chapters)| == LessonCount(chapters)
  {
    if chapters != [] {
      AttachmentsAtMostLessons(chapters[..|chapters| - 1]);
    }
  }

  /** Visiting one more lesson adds its share to the sum. */
  lemma SumAppendOne(lessons: seq<Lesson>, lesson: Lesson, videoOnly: bool)
    ensures SumSeconds(lessons + [lesson], videoOnly) == SumSeconds(lessons, videoOnly).Plus(LessonSeconds(lesson, videoOnly))
  {
    assert (lessons + [lesson])[..|lessons|] == lessons;
  }

  /** A lesson without a duration adds nothing to either sum, wherever it sits. */
  lemma {:induction false} UntimedLessonAddsNothing(before: seq<Lesson>, lesson: Lesson, after: seq<Lesson>, videoOnly: bool)
    requires !HasDuration(lesson)
    ensures SumSeconds(before + [lesson] + after, videoOnly) == SumSeconds(before + after, videoOnly)
    decreases |after|
  {
    if after == [] {
      assert before + [lesson] + after == before + [lesson];
      assert before + after == before;
      SumAppendOne(before, lesson, videoOnly);
    } else {
      var last := after[|after| - 1];
      var shorter := after[..|after| - 1];
      assert before + [lesson] + after == (before + [lesson] + shorter) + [last];
      assert before + after == (before + shorter) + [last];
      SumAppendOne(before + [lesson] + shorter, last, videoOnly);
      SumAppendOne(before + shorter, last, videoOnly);
      UntimedLessonAddsNothing(before, lesson, shorter, videoOnly);
    }
  }

  /** One more element of a prefix, after a fixed run. */
  lemma PrefixStep<T>(done: seq<T>, s: seq<T>, k: nat)
    requires k < |s|
    ensures done + s[..k + 1] == (done + s[..k]) + [s[k]]
  {
    assert s[..k + 1] == s[..k] + [s[k]];
  }

  /** The chapters up to c + 1 hold those up to c, then chapter c's lessons. */
  lemma AllLessonsStep(chapters: seq<Chapter>, c: nat)
    requires c < |chapters|
    ensures AllLessons(chapters[..c + 1]) == AllLessons(chapters[..c]) + chapters[c].lessons
  {
    assert chapters[..c + 1][..c] == chapters[..c];
  }

  /** The inner `forEach` over one chapter's lessons. */
  method AddLessonSeconds(totalSeconds: Number, done: seq<Lesson>, lessons: seq<Lesson>, videoOnly: bool)
    returns (sum: Number)
    requires totalSeconds == SumSeconds(done, videoOnly)
    ensures sum == SumSeconds(done + lessons, videoOnly)
  {
    sum := totalSeconds;
    ghost var seen := done;
    var k := 0;
    assert done + lessons[..0] == done;
    while k < |lessons|
      invariant 0 <= k <= |lessons|
      invariant seen == done + lessons[..k]
      invariant sum == SumSeconds(seen, videoOnly)
    {
      var lesson := lessons[k];
      PrefixStep(done, lessons, k);
      SumAppendOne(seen, lesson, videoOnly);
      if Counted(lesson, videoOnly) {
        sum := sum.Plus(HmsSeconds(lesson.duration.value));
      }
      seen := seen + [lesson];
      k := k + 1;
    }
    assert lessons[..k] == lessons;
  }


  /** The seconds-to-sum loop of `calculateTotalDuration` and
      `calculateVideoDuration`: nested `forEach` over chapters and lessons. */
  method SumLessonSeconds(chapters: seq<Chapter>, videoOnly: bool) returns (totalSeconds: Number)
    ensures totalSeconds == SumSeconds(AllLessons(chapters), videoOnly)
  {
    totalSeconds := Int(0);
    var c := 0;
    while c < |chapters|
      invariant 0 <= c <= |chapters|
      invariant totalSeconds == SumSeconds(AllLessons(chapters[..c]), videoOnly)
    {
      totalSeconds := AddLessonSeconds(totalSeconds, AllLessons(chapters[..c]), chapters[c].lessons, videoOnly);
      AllLessonsStep(chapters, c);
      c := c + 1;
    }
    assert chapters[..c] == chapters;
  }

  /** `calculateTotalDuration` */
  method CalculateTotalDuration(chapters: seq<Chapter>) returns (minutes: Number)
    ensures minutes == TotalMinutes(chapters)
  {
    var totalSeconds := SumLessonSeconds(chapters, false);
    minutes := FloorMinutes(totalSeconds);
  }

  /** `calculateVideoDuration` */
  method CalculateVideoDuration(chapters: seq<Chapter>) returns (minutes: Number)
    ensures minutes == VideoMinutes(chapters)
  {
    var totalSeconds := SumLessonSeconds(chapters, true);
    minutes := FloorMinutes(totalSeconds);
  }

  /** `countAttachments` */
  method CountAttachmentLessons(chapters: seq<Chapter>) returns (count: nat)
    ensures count == CountAttachments(AllLessons(chapters))
  {
    count := 0;
    var c := 0;
    while c < |chapters|
      invariant 0 <= c <= |chapters|
      invariant count == CountAttachments(AllLessons(chapters[..c]))
    {
      count := AddAttachments(count, AllLessons(chapters[..c]), chapters[c].lessons);
      AllLessonsStep(chapters, c);
      c := c + 1;
    }
    assert chapters[..c] == chapters;
  }

  /** The inner `forEach` of `countAttachments` over one chapter's lessons. */
  method AddAttachments(before: nat, done: seq<Lesson>, lessons: seq<Lesson>) returns (count: nat)
    requires before == CountAttachments(done)
    ensures count == CountAttachments(done + lessons)
  {
    count := before;
    ghost var seen := done;
    var k := 0;
    assert done + lessons[..0] == done;
    while k < |lessons|
      invariant 0 <= k <= |lessons|
      invariant seen == done + lessons[..k]
      invariant count == CountAttachments(seen)
    {
      PrefixStep(done, lessons, k);
      assert (seen + [lessons[k]])[..|seen|] == seen;
      if lessons[k].lessonType == Str("Attachment") {
        count := count + 1;
      }
      seen := seen + [lessons[k]];
      k := k + 1;
    }
    assert lessons[..k] == lessons;
  }


  /** `String(n)` for a JavaScript number. */
  function NumberText(n: Number): string {
    if n.Int? then IntText(n.i) else "NaN"
  }

  /** JavaScript's `%`, whose result takes the sign of the dividend. */
  function JsRemainder(a: int, b: int): (r: int)
    requires b > 0
    ensures a >= 0 ==> r == a % b
  {
    if a >= 0 then a % b else -((-a) % b)
  }

  /** `formatDuration`: hours and minutes, each padded to two digits. */
  function FormatDuration(totalMinutes: Number): string {
    var hours := if totalMinutes.Int? then Int(totalMinutes.i / 60) else NaN;
    var minutes := if totalMinutes.Int? then Int(JsRemainder(totalMinutes.i, 60)) else NaN;
    var hoursField := Pad2(NumberText(hours)) + "h";
    var minutesField := Pad2(NumberText(minutes)) + "m";
    hoursField + " " + minutesField
  }

  /** Reads the two numbers of an `HHh MMm` text back. */
  function ReadHoursMinutes(text: string): Option<(Number, Number)> {
    var parts := Split(text, ' ');
    if |parts| != 2 || parts[0] == [] || parts[1] == [] then None
    else if parts[0][|parts[0]| - 1] != 'h' || parts[1][|parts[1]| - 1] != 'm' then None
    else Some((StringToNumber(parts[0][..|parts[0]| - 1]), StringToNumber(parts[1][..|parts[1]| - 1])))
  }

  /** A numeral padded with `padStart(2, "0")` reads back as its value. */
  lemma PaddedNumeral(n: nat)
    ensures AllDigits(Pad2(DigitString(n)))
    ensures StringToNumber(Pad2(DigitString(n))) == Int(n)
  {
    Pad2Value(DigitString(n));
    ParseDigitString(n);
  }

  /** A numeral followed by a unit letter: no space in it, and dropping the
      letter gives the numeral back. */
  lemma NumeralWithUnit(numeral: string, unit: char)
    requires AllDigits(numeral) && unit != ' '
    ensures ' ' !in numeral + [unit]
    ensures (numeral + [unit])[..|numeral|] == numeral
  {
    forall i | 0 <= i < |numeral + [unit]|
      ensures (numeral + [unit])[i] != ' '
    {
      if i < |numeral| {
        assert IsDigit(numeral[i]);
      }
    }
  }

  /** The text of a whole minute count: two padded numerals, `h`, a space, `m`. */
  lemma FormatDurationText(m: nat)
    ensures FormatDuration(Int(m)) == (Pad2(DigitString(m / 60)) + "h") + [' '] + (Pad2(DigitString(m % 60)) + "m")
  {
  }

  /** The `HHh MMm` text of a minute total splits into its two fields. */
  lemma FormatDurationFields(m: nat)
    ensures Split(FormatDuration(Int(m)), ' ') ==
              [Pad2(DigitString(m / 60)) + "h", Pad2(DigitString(m % 60)) + "m"]
  {
    var hours := Pad2(DigitString(m / 60)) + "h";
    var minutes := Pad2(DigitString(m % 60)) + "m";
    PaddedNumeral(m / 60);
    PaddedNumeral(m % 60);
    NumeralWithUnit(Pad2(DigitString(m / 60)), 'h');
    NumeralWithUnit(Pad2(DigitString(m % 60)), 'm');
    FormatDurationText(m);
    SplitPair(hours, minutes, ' ');
  }

  /** Any text whose space-separated fields are `<hh>h` and `<mm>m` reads as
      those two numbers. */
  lemma ReadFields(text: string, hh: string, mm: string)
    requires Split(text, ' ') == [hh + "h", mm + "m"]
    ensures ReadHoursMinutes(text) == Some((StringToNumber(hh), StringToNumber(mm)))
  {
    assert (hh + "h")[..|hh|] == hh;
    assert (mm + "m")[..|mm|] == mm;
  }

  /** The text of a minute total shows a minute part below 60, and reading
      its two numbers back as hours * 60 + minutes gives the total. */
  lemma FormatDurationReadsBack(m: nat)
    ensures var read := ReadHoursMinutes(FormatDuration(Int(m)));
            read.Some? && read.value.0.Int? && read.value.1.Int? &&
            0 <= read.value.1.i < 60 && read.value.0.i * 60 + read.value.1.i == m
  {
    PaddedNumeral(m / 60);
    PaddedNumeral(m % 60);
    FormatDurationFields(m);
    ReadFields(FormatDuration(Int(m)), Pad2(DigitString(m / 60)), Pad2(DigitString(m % 60)));
  }

  /** The hours, minutes and seconds of an `HH:mm:ss` duration. */
  function ReadClock(duration: string): Option<(nat, nat, nat)> {
    var parts := Split(duration, ':');
    if |parts| == 3 && parts[0] != [] && parts[1] != [] && parts[2] != [] &&
       AllDigits(parts[0]) && AllDigits(parts[1]) && AllDigits(parts[2])
    then Some((ParseDigits(parts[0]), ParseDigits(parts[1]), ParseDigits(parts[2])))
    else None
  }

  /** `durationToMinutes`: "N/A" for an empty or all-zero duration,
      otherwise the hours and minutes as a minute count (seconds are
      dropped); a duration that does not read as a clock time gives "NaN min". */
  function DurationToMinutes(duration: string): (text: string)
    ensures duration == "" || duration == "00:00:00" ==> text == "N/A"
    ensures duration != "" && duration != "00:00:00" && ReadClock(duration).Some? ==>
              text == DigitString(ReadClock(duration).value.0 * 60 + ReadClock(duration).value.1) + " min"
  {
    if duration == "" || duration == "00:00:00" then "N/A"
    else match ReadClock(duration)
      case Some((h, m, _)) => DigitString(h * 60 + m) + " min"
      case None => "NaN min"
  }

  /** `toggleChapter`: the clicked chapter closes if it was the expanded one
      and otherwise becomes the only expanded chapter. */
  function Toggled(expanded: Option<string>, id: string): (r: Option<string>)
    ensures r == Some(id) <==> expanded != Some(id)
    ensures r.None? <==> expanded == Some(id)
  {
    if expanded == Some(id) then None else Some(id)
  }

  /** The reply to `GetChapters`; `ChaptersFailed` is a rejected fetch,
      which the effect does not catch, so nothing is updated. */
  datatype ChaptersReply = ChaptersReplied(isSuccess: bool, items: seq<Chapter>) | ChaptersFailed

  /** The three figures `fetchChapters` derives from the loaded chapters. */
  method ChapterTotals(chapters: seq<Chapter>) returns (total: string, attachments: nat, video: string)
    ensures total == FormatDuration(TotalMinutes(chapters))
    ensures attachments == CountAttachments(AllLessons(chapters))
    ensures video == FormatDuration(VideoMinutes(chapters))
  {
    var totalMinutes := CalculateTotalDuration(chapters);
    attachments := CountAttachmentLessons(chapters);
    var videoMinutes := CalculateVideoDuration(chapters);
    total := FormatDuration(totalMinutes);
    video := FormatDuration(videoMinutes);
  }

  /** The panel's state and handlers. */
  class CurriculumBarPreview {
    var chapters: seq<Chapter>
    var expandedChapterId: Option<string>
    var totalDuration: string
    /** What the panel passed to its parent's `setAttachmentCount` and
        `setVideoDuration` (none before the first successful load). */
    var reportedAttachmentCount: Option<nat>
    var reportedVideoDuration: Option<string>

    constructor ()
      ensures chapters == [] && expandedChapterId.None? && totalDuration == "00h 00m"
      ensures reportedAttachmentCount.None? && reportedVideoDuration.None?
    {
      chapters := [];
      expandedChapterId := None;
      totalDuration := "00h 00m";
      reportedAttachmentCount := None;
      reportedVideoDuration := None;
    }

    /** `toggleChapter` */
    method ToggleChapter(id: string)
      modifies this`expandedChapterId
      ensures expandedChapterId == Toggled(old(expandedChapterId), id)
    {
      expandedChapterId := if expandedChapterId == Some(id) then None else Some(id);
    }

    /** The `fetchChapters` effect. A successful reply replaces the chapters,
        expands the first one when there is one, and publishes the totals. */
    method LoadChapters(courseId: Option<string>, reply: ChaptersReply)
      modifies this`chapters, this`expandedChapterId, this`totalDuration, this`reportedAttachmentCount, this`reportedVideoDuration
      ensures !Present(courseId) || !(reply.ChaptersReplied? && reply.isSuccess) ==>
                chapters == old(chapters) && expandedChapterId == old(expandedChapterId) &&
                totalDuration == old(totalDuration) &&
                reportedAttachmentCount == old(reportedAttachmentCount) &&
                reportedVideoDuration == old(reportedVideoDuration)
      ensures Present(courseId) && reply.ChaptersReplied? && reply.isSuccess ==>
                expandedChapterId == (if |reply.items| > 0 then Some(reply.items[0].id) else old(expandedChapterId))
      ensures Present(courseId) && reply.ChaptersReplied? && reply.isSuccess ==>
                chapters == reply.items &&
                totalDuration == FormatDuration(TotalMinutes(reply.items)) &&
                reportedAttachmentCount == Some(CountAttachments(AllLessons(reply.items))) &&
                reportedVideoDuration == Some(FormatDuration(VideoMinutes(reply.items)))
    {
      if !Present(courseId) || !(reply.ChaptersReplied? && reply.isSuccess) {
        return;
      }
      var chapterItems := reply.items;
      chapters := chapterItems;
      if |chapterItems| > 0 {
        expandedChapterId := Some(chapterItems[0].id);
      }
      var total, attachments, video := ChapterTotals(chapterItems);
      totalDuration := total;
      reportedAttachmentCount := Some(attachments);
      reportedVideoDuration := Some(video);
    }
  }
}
