/** The "Add new lesson" dialog (AddLessonModal.tsx): it validates a title,
    a type and a whole number of minutes, turns the minutes into an
    `HH:mm:ss` duration and posts the lesson to the chapter named in the URL. */
module AddLessonModal {
  import opened JsValues
  import opened Text
  import opened LessonKinds
  import opened CurriculumPublish

  /** `convertMinutesToHHMMSS`: hours and remaining minutes, each padded to
      two digits, and always zero seconds. */
  function ConvertMinutesToHHMMSS(minutes: nat): string {
    var hoursField := Pad2(DigitString(minutes / 60));
    var minutesField := Pad2(DigitString(minutes % 60));
    hoursField + ":" + minutesField + ":" + Pad2(DigitString(0))
  }

  /** The duration text: three numerals joined by colons. */
  lemma ConvertedText(minutes: nat)
    ensures ConvertMinutesToHHMMSS(minutes) ==
              Pad2(DigitString(minutes / 60)) + [':'] + Pad2(DigitString(minutes % 60)) + [':'] + "00"
  {
  }

  /** A padded numeral holds no colon. */
  lemma PaddedNumeralLacksColon(n: nat)
    ensures ':' !in Pad2(DigitString(n))
  {
    PaddedNumeral(n);
    NumeralLacks(Pad2(DigitString(n)), ':');
  }

  /** The duration text splits into its three padded numerals. */
  lemma ConvertedFields(minutes: nat)
    ensures Split(ConvertMinutesToHHMMSS(minutes), ':') ==
              [Pad2(DigitString(minutes / 60)), Pad2(DigitString(minutes % 60)), "00"]
  {
    PaddedNumeralLacksColon(minutes / 60);
    PaddedNumeralLacksColon(minutes % 60);
    PaddedNumeralLacksColon(0);
    ConvertedText(minutes);
    SplitTriple(Pad2(DigitString(minutes / 60)), Pad2(DigitString(minutes % 60)), "00", ':');
  }

  /** The seconds field is the numeral "00". */
  lemma ZeroSeconds()
    ensures AllDigits("00") && ParseDigits("00") == 0 && StringToNumber("00") == Int(0)
  {
    assert ParseDigits("0") == 0;
    assert "00"[..1] == "0";
  }

  /** Hours and remaining minutes make up the whole. */
  lemma MinuteParts(minutes: nat, h: nat, r: nat)
    requires h == minutes / 60 && r == minutes % 60
    ensures h * 60 + r == minutes
  {
  }

  /** Hours and remaining minutes, weighted in seconds, make up the whole. */
  lemma MinuteSplitSeconds(minutes: nat)
    ensures (minutes / 60) * 3600 + (minutes % 60) * 60 + 0 == minutes * 60
  {
    var h := minutes / 60;
    var r := minutes % 60;
    assert minutes == h * 60 + r;
    calc {
      h * 3600 + r * 60;
      (h * 60 + r) * 60;
    }
  }

  /** The duration's fields weighted in seconds, with h and r the hours
      and remaining minutes. */
  lemma ConvertedFieldSum(minutes: nat, h: nat, r: nat)
    requires h == minutes / 60 && r == minutes % 60
    ensures HmsSeconds(ConvertMinutesToHHMMSS(minutes)) == Int(h * 3600 + r * 60 + 0)
  {
    ConvertedFields(minutes);
    PaddedNumeral(h);
    PaddedNumeral(r);
    ZeroSeconds();
    FieldSeconds(ConvertMinutesToHHMMSS(minutes), Pad2(DigitString(h)), Pad2(DigitString(r)), "00", h, r, 0);
  }

  /** A duration worth the hours and remaining minutes of a minute count is
      worth the whole count. */
  lemma WholeMinutes(duration: string, minutes: nat, h: nat, r: nat)
    requires h == minutes / 60 && r == minutes % 60
    requires HmsSeconds(duration) == Int(h * 3600 + r * 60 + 0)
    ensures HmsSeconds(duration) == Int(minutes * 60)
  {
    MinuteSplitSeconds(minutes);
  }

  /** The curriculum panel reads the duration this dialog writes back as
      exactly the minutes entered: `minutes * 60` seconds. */
  lemma ConvertedDurationSeconds(minutes: nat)
    ensures HmsSeconds(ConvertMinutesToHHMMSS(minutes)) == Int(minutes * 60)
  {
    var h, r := minutes / 60, minutes % 60;
    ConvertedFieldSum(minutes, h, r);
    WholeMinutes(ConvertMinutesToHHMMSS(minutes), minutes, h, r);
  }

  /** Any duration whose three fields are non-empty numerals reads as a
      clock time with their values. */
  lemma ClockFields(duration: string, hh: string, mm: string, ss: string)
    requires Split(duration, ':') == [hh, mm, ss]
    requires hh != [] && mm != [] && ss != [] && AllDigits(hh) && AllDigits(mm) && AllDigits(ss)
    ensures ReadClock(duration) == Some((ParseDigits(hh), ParseDigits(mm), ParseDigits(ss)))
  {
  }

  /** Read as a clock time, the duration is the hours, the remaining
      minutes, and zero seconds. */
  lemma ConvertedClock(minutes: nat, h: nat, r: nat)
    requires h == minutes / 60 && r == minutes % 60
    ensures ReadClock(ConvertMinutesToHHMMSS(minutes)) == Some((h, r, 0))
  {
    ConvertedFields(minutes);
    Pad2Value(DigitString(h));
    Pad2Value(DigitString(r));
    ParseDigitString(h);
    ParseDigitString(r);
    ZeroSeconds();
    ClockFields(ConvertMinutesToHHMMSS(minutes), Pad2(DigitString(h)), Pad2(DigitString(r)), "00");
  }

  /** Zero minutes convert to the all-zero duration. */
  lemma ConvertedZero()
    ensures ConvertMinutesToHHMMSS(0) == "00:00:00"
  {
    assert Pad2(DigitString(0)) == "00";
  }

  /** The all-zero duration reads as zero hours, minutes and seconds. */
  lemma ZeroClock()
    ensures ReadClock("00:00:00") == Some((0, 0, 0))
  {
    ZeroSeconds();
    NumeralLacks("00", ':');
    assert "00:00:00" == "00" + [':'] + "00" + [':'] + "00";
    SplitTriple("00", "00", "00", ':');
    ClockFields("00:00:00", "00", "00", "00");
  }

  /** A positive minute count does not convert to the all-zero duration. */
  lemma ConvertedNotZero(minutes: nat, h: nat, r: nat)
    requires minutes > 0 && h == minutes / 60 && r == minutes % 60
    ensures ConvertMinutesToHHMMSS(minutes) != "00:00:00"
  {
    MinuteParts(minutes, h, r);
    if ConvertMinutesToHHMMSS(minutes) == "00:00:00" {
      ConvertedClock(minutes, h, r);
      ZeroClock();
      assert false;
    }
  }

  /** A non-zero clock time of h hours and r minutes is labelled with its
      minute count. */
  lemma ClockLabel(duration: string, h: nat, r: nat, minutes: nat)
    requires duration != "" && duration != "00:00:00"
    requires ReadClock(duration) == Some((h, r, 0)) && h * 60 + r == minutes
    ensures DurationToMinutes(duration) == DigitString(minutes) + " min"
  {
  }

  /** The lesson's minute label on the curriculum panel shows the minutes
      entered, or "N/A" when zero minutes were entered. */
  lemma ConvertedDurationLabel(minutes: nat)
    ensures DurationToMinutes(ConvertMinutesToHHMMSS(minutes)) ==
              if minutes == 0 then "N/A" else DigitString(minutes) + " min"
  {
    if minutes == 0 {
      ConvertedZero();
    } else {
      var h, r := minutes / 60, minutes % 60;
      ConvertedClock(minutes, h, r);
      ConvertedNotZero(minutes, h, r);
      MinuteParts(minutes, h, r);
      ConvertedText(minutes);
      ClockLabel(ConvertMinutesToHHMMSS(minutes), h, r, minutes);
    }
  }

  /** The lessons' durations were all written by this dialog from the given
      minute counts. */
  predicate WrittenFrom(lessons: seq<Lesson>, minutes: seq<nat>) {
    |lessons| == |minutes| &&
    forall k :: 0 <= k < |lessons| ==> lessons[k].duration == Some(ConvertMinutesToHHMMSS(minutes[k]))
  }

  function SumMinutes(minutes: seq<nat>): nat {
    if minutes == [] then 0 else SumMinutes(minutes[..|minutes| - 1]) + minutes[|minutes| - 1]
  }

  /** Adding a lesson's minutes adds sixty times as many seconds. */
  lemma ScaleSum(total: nat, more: nat)
    ensures total * 60 + more * 60 == (total + more) * 60
  {
  }

  /** A lesson written by this dialog counts for its minutes in seconds. */
  lemma WrittenLessonSeconds(lesson: Lesson, minutes: nat)
    requires lesson.duration == Some(ConvertMinutesToHHMMSS(minutes))
    ensures LessonSeconds(lesson, false) == Int(minutes * 60)
  {
    ConvertedText(minutes);
    assert Counted(lesson, false);
    ConvertedDurationSeconds(minutes);
  }

  /** Lessons that each count for sixty times their minutes. */
  predicate SecondsFrom(lessons: seq<Lesson>, minutes: seq<nat>) {
    |lessons| == |minutes| &&
    forall k :: 0 <= k < |lessons| ==> LessonSeconds(lessons[k], false) == Int(minutes[k] * 60)
  }

  /** The curriculum sum of such lessons is sixty times the minutes. */
  lemma {:induction false} SumOfSeconds(lessons: seq<Lesson>, minutes: seq<nat>)
    requires SecondsFrom(lessons, minutes)
    ensures SumSeconds(lessons, false) == Int(SumMinutes(minutes) * 60)
  {
    if lessons != [] {
      var n := |lessons| - 1;
      var init, before := lessons[..n], minutes[..n];
      assert SecondsFrom(init, before) by {
        forall k | 0 <= k < n
          ensures LessonSeconds(init[k], false) == Int(before[k] * 60)
        {
          assert init[k] == lessons[k] && before[k] == minutes[k];
        }
      }
      SumOfSeconds(init, before);
      assert SumSeconds(lessons, false) == SumSeconds(init, false).Plus(LessonSeconds(lessons[n], false));
      assert SumMinutes(minutes) == SumMinutes(before) + minutes[n];
      ScaleSum(SumMinutes(before), minutes[n]);
    }
  }

  /** Lessons created through this dialog add up, on the curriculum panel,
      to exactly the minutes that were entered for them, in seconds. */
  lemma WrittenLessonsSeconds(lessons: seq<Lesson>, minutes: seq<nat>)
    requires WrittenFrom(lessons, minutes)
    ensures SumSeconds(lessons, false) == Int(SumMinutes(minutes) * 60)
  {
    forall k | 0 <= k < |lessons|
      ensures LessonSeconds(lessons[k], false) == Int(minutes[k] * 60)
    {
      WrittenLessonSeconds(lessons[k], minutes[k]);
    }
    SumOfSeconds(lessons, minutes);
  }

  /** ... and so to exactly that many minutes of total duration. */
  lemma WrittenLessonsTotal(lessons: seq<Lesson>, minutes: seq<nat>)
    requires WrittenFrom(lessons, minutes)
    ensures FloorMinutes(SumSeconds(lessons, false)) == Int(SumMinutes(minutes))
  {
    WrittenLessonsSeconds(lessons, minutes);
    var total := SumMinutes(minutes);
    assert (total * 60) / 60 == total;
  }

  /** The form's fields; `duration` is None while the number input is empty. */
  datatype LessonForm = LessonForm(title: string, lessonType: LessonType, duration: Option<nat>)

  /** `defaultValues` */
  const DefaultLessonForm := LessonForm("", Attachment, Some(0))

  /** The field rules: a title, and a duration of at least one minute. */
  predicate FormValid(form: LessonForm) {
    form.title != "" && form.duration.Some? && form.duration.value >= 1
  }

  /** The JSON body posted to `/Lessons/CreateLesson`. */
  function CreateLessonBody(chapterId: string, form: LessonForm): Record
    requires form.duration.Some?
  {
    map[
      "ChapterId" := Str(chapterId),
      "Name" := Str(form.title),
      "order" := Str("1"),
      "Type" := Str(form.lessonType.Name()),
      "Duration" := Str(ConvertMinutesToHHMMSS(form.duration.value))
    ]
  }

  /** The body holds exactly the chapter, the title, the order "1", the
      type's name and the duration as `HH:MM:SS`. */
  lemma CreateLessonBodyFields(chapterId: string, form: LessonForm)
    requires form.duration.Some?
    ensures var body := CreateLessonBody(chapterId, form);
            body.Keys == {"ChapterId", "Name", "order", "Type", "Duration"} &&
            body["ChapterId"] == Str(chapterId) && body["Name"] == Str(form.title) &&
            body["order"] == Str("1") && body["Type"] == Str(form.lessonType.Name()) &&
            body["Duration"] == Str(ConvertMinutesToHHMMSS(form.duration.value))
  {
  }

  datatype ModalToast = ChapterIdMissing | LessonCreated | CreateFailed

  /** The dialog's open flag (owned by its parent), its form values, and
      how many times the parent's optional `refetch` ran. */
  class AddLessonDialog {
    var isOpen: bool
    var values: LessonForm
    var refetchCount: nat
    const hasRefetch: bool

    constructor (isOpen: bool, hasRefetch: bool)
      ensures this.isOpen == isOpen && this.hasRefetch == hasRefetch
      ensures values == DefaultLessonForm && refetchCount == 0
    {
      this.isOpen := isOpen;
      this.hasRefetch := hasRefetch;
      values := DefaultLessonForm;
      refetchCount := 0;
    }

    /** The user edits the fields. */
    method Fill(form: LessonForm)
      modifies this`values
      ensures values == form
    {
      values := form;
    }

    /** `setIsOpen` together with the effect that resets the form whenever
        the dialog is closed. */
    method SetOpen(open: bool)
      modifies this`isOpen, this`values
      ensures isOpen == open
      ensures values == if open then old(values) else DefaultLessonForm
    {
      isOpen := open;
      if !open {
        values := DefaultLessonForm;
      }
    }

    /** `handleSubmit(onSubmit)`: nothing is sent unless the fields are
        valid and the URL names a chapter; `ok` is whether the fetch
        resolved with `res.ok` (a rejected fetch counts as not ok). */
    method HandleSubmit(chapterId: Option<string>, ok: bool) returns (request: Option<Record>, toast: Option<ModalToast>)
      modifies this`isOpen, this`values, this`refetchCount
      ensures !FormValid(old(values)) ==> request.None? && toast.None?
      ensures FormValid(old(values)) && !Present(chapterId) ==> request.None? && toast == Some(ChapterIdMissing)
      ensures FormValid(old(values)) && Present(chapterId) ==>
                request == Some(CreateLessonBody(chapterId.value, old(values))) &&
                toast == Some(if ok then LessonCreated else CreateFailed)
      ensures request.Some? && ok ==>
                !isOpen && values == DefaultLessonForm &&
                refetchCount == old(refetchCount) + (if hasRefetch then 1 else 0)
      ensures !(request.Some? && ok) ==>
                isOpen == old(isOpen) && values == old(values) && refetchCount == old(refetchCount)
    {
      request := None;
      toast := None;
      if !FormValid(values) {
        return;
      }
      if !Present(chapterId) {
        toast := Some(ChapterIdMissing);
        return;
      }
      request := Some(CreateLessonBody(chapterId.value, values));
      if !ok {
        toast := Some(CreateFailed);
        return;
      }
      toast := Some(LessonCreated);
      isOpen := false;
      if hasRefetch {
        refetchCount := refetchCount + 1;
      }
      values := DefaultLessonForm;
    }
  }
}
