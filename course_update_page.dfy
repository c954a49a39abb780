/** The edit-course page (app/CourseUpdate/page.tsx): one "Save to Draft"
    press validates and submits the Basic Info, MetaData and Instructor
    sections in that order, stopping at the first invalid section; a
    rejected submit throws out of the loop uncaught. */
module CourseUpdate {
  import opened JsValues
  import opened CourseSteps

  datatype UpdateSection = BasicInfo | MetaData | Instructor

  /** The sections in the order the loop visits them. */
  const UpdateSections: seq<UpdateSection> := [BasicInfo, MetaData, Instructor]

  /** The name the "Please complete …" toast uses. */
  function SectionName(section: UpdateSection): string {
    match section
    case BasicInfo => "Basic Info"
    case MetaData => "MetaData"
    case Instructor => "Instructor"
  }

  /** The rating field this page's staff submit reads. */
  const UpdateRatingField := "allowRatingOnInstructor"

  /** The course id from the URL as a JSON value: `null` when absent. */
  function IdValue(courseId: Option<string>): Value {
    if courseId.Some? then Str(courseId.value) else Null
  }

  /** The request each section's submit sends. The basic-info update also
      sends `Id` as `courseId || ""`. */
  function UpdatePayload(section: UpdateSection, data: Record, courseId: Option<string>): (request: Request)
    ensures section == BasicInfo ==>
              request == Multipart("/Courses/UpdateCourse",
                BasicInfoParts(data) + [Part("Id", Str(if Present(courseId) then courseId.value else ""))] + CoverImageParts(data))
    ensures section == MetaData ==> request.Json? && request.body == MetadataBody(data, IdValue(courseId))
    ensures section == Instructor ==> request.Json? && request.body == StaffBody(data, IdValue(courseId), UpdateRatingField)
  {
    match section
    case BasicInfo =>
      var id := if Present(courseId) then courseId.value else "";
      Multipart("/Courses/UpdateCourse", BasicInfoParts(data) + [Part("Id", Str(id))] + CoverImageParts(data))
    case MetaData => Json("/Courses/AddCourseData", MetadataBody(data, IdValue(courseId)))
    case Instructor => Json("/Courses/AddCourseStaff", StaffBody(data, IdValue(courseId), UpdateRatingField))
  }

  /** The message a section's submit throws when the reply says
      `isSuccess: false` without one. */
  function UpdateDefaultMessage(section: UpdateSection): string {
    match section
    case BasicInfo => "Failed to update basic info"
    case MetaData => "Failed to update metadata"
    case Instructor => "Failed to update instructors"
  }

  /** The message a section's submit throws on a failed reply. */
  function FailureMessage(section: UpdateSection, reply: Reply): (m: string)
    requires !Succeeded(reply)
    ensures reply.Replied? && reply.message != "" ==> m == reply.message
    ensures reply.Replied? && reply.message == "" ==> m == UpdateDefaultMessage(section)
    ensures reply.NetworkError? ==> m == reply.reason
  {
    if reply.NetworkError? then reply.reason else RejectionMessage(reply.message, UpdateDefaultMessage(section))
  }

  /** One section at the moment of the save: whether it validates, its
      values, and the backend's reply to its submit. */
  datatype SectionInput = SectionInput(valid: bool, values: Record, reply: Reply)

  datatype UpdateForms = UpdateForms(basicInfo: SectionInput, metaData: SectionInput, instructor: SectionInput) {
    function Of(section: UpdateSection): SectionInput {
      match section
      case BasicInfo => basicInfo
      case MetaData => metaData
      case Instructor => instructor
    }

    /** The section at position i of the loop. */
    function At(i: nat): SectionInput
      requires i < 3
    {
      Of(UpdateSections[i])
    }
  }

  /** How a save ends: the success toast, the "Please complete X" toast, or
      an uncaught throw carrying a submit's message. */
  datatype UpdateOutcome = AllSaved | Incomplete(sectionName: string) | Aborted(message: string)

  /** The step state, the requests sent in order, and the ending. */
  datatype UpdateRun = UpdateRun(step: string, requests: seq<Request>, outcome: UpdateOutcome)

  function Prepend(requests: seq<Request>, run: UpdateRun): UpdateRun {
    UpdateRun(run.step, requests + run.requests, run.outcome)
  }

  /** The loop from position i on, with `step` the state when it gets there. */
  function RunFrom(i: nat, step: string, forms: UpdateForms, courseId: Option<string>): UpdateRun
    requires i <= 3
    decreases 3 - i
  {
    if i == 3 then UpdateRun(step, [], AllSaved)
    else
      var section := UpdateSections[i];
      var input := forms.Of(section);
      if !input.valid then UpdateRun(step, [], Incomplete(SectionName(section)))
      else
        var request := UpdatePayload(section, input.values, courseId);
        if !Succeeded(input.reply) then UpdateRun(step, [request], Aborted(FailureMessage(section, input.reply)))
        else Prepend([request], RunFrom(i + 1, input.reply.status, forms, courseId))
  }

  /** Sections i..k-1 validated and were accepted. */
  predicate AcceptedBetween(forms: UpdateForms, i: nat, k: nat)
    requires i <= k <= 3
  {
    forall j :: i <= j < k ==> forms.At(j).valid && Succeeded(forms.At(j).reply)
  }

  /** The loop at an invalid section ends there. */
  lemma RunFromInvalid(i: nat, step: string, forms: UpdateForms, courseId: Option<string>)
    requires i < 3 && !forms.At(i).valid
    ensures RunFrom(i, step, forms, courseId) == UpdateRun(step, [], Incomplete(SectionName(UpdateSections[i])))
  {
  }

  /** The loop at a rejected section sends its request and aborts. */
  lemma RunFromRejected(i: nat, step: string, forms: UpdateForms, courseId: Option<string>)
    requires i < 3 && forms.At(i).valid && !Succeeded(forms.At(i).reply)
    ensures RunFrom(i, step, forms, courseId) ==
              UpdateRun(step, [UpdatePayload(UpdateSections[i], forms.At(i).values, courseId)],
                        Aborted(FailureMessage(UpdateSections[i], forms.At(i).reply)))
  {
  }

  /** The loop at an accepted section sends its request and goes on. */
  lemma RunFromAccepted(i: nat, step: string, forms: UpdateForms, courseId: Option<string>)
    requires i < 3 && forms.At(i).valid && Succeeded(forms.At(i).reply)
    ensures RunFrom(i, step, forms, courseId) ==
              Prepend([UpdatePayload(UpdateSections[i], forms.At(i).values, courseId)],
                      RunFrom(i + 1, forms.At(i).reply.status, forms, courseId))
  {
  }

  lemma PrependTwice(a: seq<Request>, b: seq<Request>, run: UpdateRun)
    ensures Prepend(a, Prepend(b, run)) == Prepend(a + b, run)
  {
    assert a + (b + run.requests) == (a + b) + run.requests;
  }

  /** The loop sends at most one request per remaining section. */
  lemma {:induction false} RequestsBound(i: nat, step: string, forms: UpdateForms, courseId: Option<string>)
    requires i <= 3
    ensures |RunFrom(i, step, forms, courseId).requests| <= 3 - i
    decreases 3 - i
  {
    if i < 3 && forms.At(i).valid && Succeeded(forms.At(i).reply) {
      RequestsBound(i + 1, forms.At(i).reply.status, forms, courseId);
    }
  }

  /** Counting from position i, the request at place k - i is the payload
      of section k. */
  lemma {:induction false} RequestAt(i: nat, step: string, forms: UpdateForms, courseId: Option<string>, k: nat)
    requires i <= k && i <= 3 && k - i < |RunFrom(i, step, forms, courseId).requests|
    ensures k < 3
    ensures RunFrom(i, step, forms, courseId).requests[k - i] == UpdatePayload(UpdateSections[k], forms.At(k).values, courseId)
    decreases k - i
  {
    if i == 3 {
      assert false;
    }
    if !forms.At(i).valid {
      RunFromInvalid(i, step, forms, courseId);
      assert false;
    } else if !Succeeded(forms.At(i).reply) {
      RunFromRejected(i, step, forms, courseId);
      assert k == i;
    } else {
      RunFromAccepted(i, step, forms, courseId);
      var rest := RunFrom(i + 1, forms.At(i).reply.status, forms, courseId);
      if k > i {
        RequestAt(i + 1, forms.At(i).reply.status, forms, courseId, k);
        assert RunFrom(i, step, forms, courseId).requests[k - i] == rest.requests[k - (i + 1)];
      }
    }
  }

  /** The requests go out in the fixed section order, one per section
      reached, each the payload of its own section. */
  lemma RequestsInSectionOrder(i: nat, step: string, forms: UpdateForms, courseId: Option<string>)
    requires i <= 3
    ensures var run := RunFrom(i, step, forms, courseId);
            |run.requests| <= 3 - i &&
            forall k :: i <= k < i + |run.requests| ==>
              k < 3 && run.requests[k - i] == UpdatePayload(UpdateSections[k], forms.At(k).values, courseId)
  {
    RequestsBound(i, step, forms, courseId);
    forall k | i <= k < i + |RunFrom(i, step, forms, courseId).requests|
      ensures k < 3 && RunFrom(i, step, forms, courseId).requests[k - i] == UpdatePayload(UpdateSections[k], forms.At(k).values, courseId)
    {
      RequestAt(i, step, forms, courseId, k);
    }
  }


  /** The loop stops at the first invalid section k: the sections before it
      were all submitted, it and the later ones are neither validated
      further nor submitted. */
  lemma {:induction false} StopsAtFirstInvalid(i: nat, k: nat, step: string, forms: UpdateForms, courseId: Option<string>)
    requires i <= k < 3
    requires AcceptedBetween(forms, i, k) && !forms.At(k).valid
    ensures RunFrom(i, step, forms, courseId).outcome == Incomplete(SectionName(UpdateSections[k]))
    ensures |RunFrom(i, step, forms, courseId).requests| == k - i
    ensures RunFrom(i, step, forms, courseId).step == if k == i then step else forms.At(k - 1).reply.status
    decreases k - i
  {
    if i < k {
      StopsAtFirstInvalid(i + 1, k, forms.At(i).reply.status, forms, courseId);
    }
  }

  /** A rejected submit at section k ends the save with its message after
      k - i + 1 requests; the sections after it are skipped. */
  lemma {:induction false} StopsAtFirstRejection(i: nat, k: nat, step: string, forms: UpdateForms, courseId: Option<string>)
    requires i <= k < 3
    requires AcceptedBetween(forms, i, k) && forms.At(k).valid && !Succeeded(forms.At(k).reply)
    ensures RunFrom(i, step, forms, courseId).outcome == Aborted(FailureMessage(UpdateSections[k], forms.At(k).reply))
    ensures |RunFrom(i, step, forms, courseId).requests| == k - i + 1
    ensures RunFrom(i, step, forms, courseId).step == if k == i then step else forms.At(k - 1).reply.status
    decreases k - i
  {
    if i < k {
      StopsAtFirstRejection(i + 1, k, forms.At(i).reply.status, forms, courseId);
    }
  }

  /** The success toast is reached exactly when every remaining section
      validated and was accepted; the step is then the status the last
      reply returned. */
  lemma {:induction false} AllSavedExactlyWhenAllAccepted(i: nat, step: string, forms: UpdateForms, courseId: Option<string>)
    requires i < 3
    ensures RunFrom(i, step, forms, courseId).outcome == AllSaved <==> AcceptedBetween(forms, i, 3)
    ensures RunFrom(i, step, forms, courseId).outcome == AllSaved ==>
              Succeeded(forms.instructor.reply) && RunFrom(i, step, forms, courseId).step == forms.instructor.reply.status
    decreases 3 - i
  {
    if forms.At(i).valid && Succeeded(forms.At(i).reply) {
      if i + 1 < 3 {
        AllSavedExactlyWhenAllAccepted(i + 1, forms.At(i).reply.status, forms, courseId);
      }
    }
  }

  /** The page component's state and handlers. */
  class UpdateCoursePage {
    var step: string
    /** `searchParams.get("id")` */
    const courseId: Option<string>

    constructor (courseId: Option<string>)
      ensures step == "" && this.courseId == courseId
    {
      step := "";
      this.courseId := courseId;
    }

    /** `submitBasicInfo`, `submitMetaData` and `submitInstructor`. */
    method SubmitSection(section: UpdateSection, data: Record, reply: Reply) returns (request: Request, outcome: Outcome)
      modifies this`step
      ensures request == UpdatePayload(section, data, courseId)
      ensures outcome.Resolved? <==> Succeeded(reply)
      ensures outcome.Thrown? ==> outcome.message == FailureMessage(section, reply)
      ensures step == if Succeeded(reply) then reply.status else old(step)
    {
      request := UpdatePayload(section, data, courseId);
      if !Succeeded(reply) {
        outcome := Thrown(FailureMessage(section, reply));
        return;
      }
      step := reply.status;
      outcome := Resolved;
    }

    /** `handleAllSubmits` */
    method HandleAllSubmits(forms: UpdateForms) returns (requests: seq<Request>, outcome: UpdateOutcome)
      modifies this`step
      ensures UpdateRun(step, requests, outcome) == RunFrom(0, old(step), forms, courseId)
    {
      requests := [];
      var i := 0;
      while i < |UpdateSections|
        invariant 0 <= i <= 3
        invariant RunFrom(0, old(step), forms, courseId) == Prepend(requests, RunFrom(i, step, forms, courseId))
      {
        var section := UpdateSections[i];
        var input := forms.Of(section);
        if !input.valid {
          outcome := Incomplete(SectionName(section));
          RunFromInvalid(i, step, forms, courseId);
          assert requests + [] == requests;
          return;
        }
        var before := step;
        var request, submitted := SubmitSection(section, input.values, input.reply);
        if submitted.Thrown? {
          RunFromRejected(i, before, forms, courseId);
          requests := requests + [request];
          outcome := Aborted(submitted.message);
          return;
        }
        RunFromAccepted(i, before, forms, courseId);
        PrependTwice(requests, [request], RunFrom(i + 1, step, forms, courseId));
        requests := requests + [request];
        i := i + 1;
      }
      outcome := AllSaved;
      assert requests + [] == requests;
    }
  }
}
