/** The step registry of the add-course wizard (app/configs/courseStepsConfig.ts).
    Each workflow status the server can report is bound to the form that is
    editable at that status and to the procedure that submits that form. A
    submit procedure builds a payload, sends it, checks `isSuccess`, and only
    then writes the page state through the `setStep`/`setCourseId` callbacks. */
module CourseSteps {
  import opened JsValues

  /** The four react-hook-form instances the registry is built from. */
  datatype FormHandle = BasicInfoForm | SidePanelForm | InstructorForm | ContentForm

  /** The backend call each step's `onSubmit` makes. */
  datatype SubmitProcedure = CreateCourse | SaveMetadata | SaveStaff | SaveContent

  /** A registry entry: the status key, its form and its submit procedure. */
  datatype StepConfig = StepConfig(step: string, form: FormHandle, onSubmit: SubmitProcedure)

  /** One `FormData.append(key, value)` entry. */
  datatype Part = Part(key: string, value: Value)

  /** A request as sent: the endpoint path below the backend URL and its body,
      either multipart form data or a JSON object before serialisation. */
  datatype Request =
    | Multipart(endpoint: string, parts: seq<Part>)
    | Json(endpoint: string, body: Record)

  /** The backend's answer to a course call. `NetworkError` stands for a
      rejected `fetch` or an unreadable body; its reason is what is thrown. */
  datatype Reply =
    | Replied(isSuccess: bool, id: string, status: string, message: string)
    | NetworkError(reason: string)

  /** The page state the `setStep` and `setCourseId` callbacks write. */
  datatype Draft = Draft(step: string, courseId: string)

  /** How a submit procedure's promise settles. */
  datatype Outcome = Resolved | Thrown(message: string)

  predicate Succeeded(reply: Reply) {
    reply.Replied? && reply.isSuccess
  }

  /** `createStepConfigs`: a plain list construction, with no calls made. */
  function CreateStepConfigs(): (configs: seq<StepConfig>)
    ensures |configs| == 4
    ensures (set c | c in configs :: c.step) == {"new", "Draft-BasicInfo", "Draft-MetaData", "Draft-StaffInfo"}
    ensures forall i, j :: 0 <= i < j < |configs| ==>
              configs[i].step != configs[j].step && configs[i].form != configs[j].form
    ensures forall i, j :: 0 <= i < j < |configs| ==> configs[i].onSubmit != configs[j].onSubmit
  {
    var configs := [
      StepConfig("new", BasicInfoForm, CreateCourse),
      StepConfig("Draft-BasicInfo", SidePanelForm, SaveMetadata),
      StepConfig("Draft-MetaData", InstructorForm, SaveStaff),
      StepConfig("Draft-StaffInfo", ContentForm, SaveContent)
    ];
    assert (set c | c in configs :: c.step) == {"new", "Draft-BasicInfo", "Draft-MetaData", "Draft-StaffInfo"} by {
      assert configs[0] in configs && configs[1] in configs && configs[2] in configs && configs[3] in configs;
    }
    configs
  }

  /** The four text fields the basic-info form sends: `Name` as given and
      `Description`, `Outcome`, `Prerequisites` defaulted with `?? ""`. */
  function BasicInfoParts(data: Record): (parts: seq<Part>)
    ensures |parts| == 4
    ensures parts[0] == Part("Name", Get(data, "Name"))
    ensures [parts[1].key, parts[2].key, parts[3].key] == ["Description", "Outcome", "Prerequisites"]
    ensures forall k :: 1 <= k < 4 ==>
              (Get(data, parts[k].key).Undefined? || Get(data, parts[k].key).Null? ==> parts[k].value == Str(""))
    ensures forall k :: 1 <= k < 4 ==>
              (!Get(data, parts[k].key).Undefined? && !Get(data, parts[k].key).Null? ==> parts[k].value == data[parts[k].key])
  {
    [ Part("Name", Get(data, "Name")),
      Part("Description", Coalesce(Get(data, "Description"), Str(""))),
      Part("Outcome", Coalesce(Get(data, "Outcome"), Str(""))),
      Part("Prerequisites", Coalesce(Get(data, "Prerequisites"), Str(""))) ]
  }

  /** `CoverImage` is appended only when it is a File. */
  function CoverImageParts(data: Record): (parts: seq<Part>)
    ensures Get(data, "CoverImage").File? ==> parts == [Part("CoverImage", data["CoverImage"])]
    ensures !Get(data, "CoverImage").File? ==> parts == []
  {
    if Get(data, "CoverImage").File? then [Part("CoverImage", data["CoverImage"])] else []
  }

  /** The metadata body: the form's values spread, then `id`, `duration`
      coerced with `Number(…)` and `minEnrollment` fixed at 0. */
  function MetadataBody(data: Record, id: Value): (body: Record)
    ensures body.Keys == data.Keys + {"id", "duration", "minEnrollment"}
    ensures forall k :: k in data && k != "id" && k != "duration" && k != "minEnrollment" ==> body[k] == data[k]
    ensures body["id"] == id && body["minEnrollment"] == Num(0)
    ensures body["duration"].Num? || body["duration"].NotANumber?
    ensures ToNumber(Get(data, "duration")).Int? ==> body["duration"] == Num(ToNumber(Get(data, "duration")).i)
  {
    data["id" := id]["duration" := ToNumber(Get(data, "duration")).AsValue()]["minEnrollment" := Num(0)]
  }

  /** The staff body: the id lists defaulted to [] with `||`, the instructor
      rating flag read from `ratingField` and defaulted to false, and the
      assistant rating flag always true. */
  function StaffBody(data: Record, id: Value, ratingField: string): (body: Record)
    ensures body.Keys == {"id", "instructorIds", "assistantIds", "allowRatingOnInstructor", "allowRatingOnAssistant"}
    ensures body["id"] == id && body["allowRatingOnAssistant"] == Bool(true)
    ensures body["instructorIds"] == (if Truthy(Get(data, "instructorIds")) then data["instructorIds"] else Arr([]))
    ensures body["assistantIds"] == (if Truthy(Get(data, "assistantIds")) then data["assistantIds"] else Arr([]))
    ensures body["allowRatingOnInstructor"] == (if Truthy(Get(data, ratingField)) then data[ratingField] else Bool(false))
  {
    map[
      "id" := id,
      "instructorIds" := Or(Get(data, "instructorIds"), Arr([])),
      "assistantIds" := Or(Get(data, "assistantIds"), Arr([])),
      "allowRatingOnInstructor" := Or(Get(data, ratingField), Bool(false)),
      "allowRatingOnAssistant" := Bool(true)
    ]
  }

  /** The field the wizard's staff procedure reads the instructor rating flag from. */
  const WizardRatingField := "instructorAllowRating"

  /** The request each procedure sends for the given form values and course id. */
  function Payload(proc: SubmitProcedure, data: Record, courseId: string): (request: Request)
    ensures proc == CreateCourse <==> request.Multipart?
    ensures proc == CreateCourse ==> request.parts == BasicInfoParts(data) + CoverImageParts(data)
    ensures proc == SaveMetadata ==> request.Json? && request.body == MetadataBody(data, Str(courseId))
    ensures proc == SaveStaff ==> request.Json? && request.body == StaffBody(data, Str(courseId), WizardRatingField)
    ensures proc == SaveContent ==> request.Json? && request.body == data["id" := Str(courseId)]
  {
    match proc
    case CreateCourse => Multipart("/Courses/CreateCourse", BasicInfoParts(data) + CoverImageParts(data))
    case SaveMetadata => Json("/Courses/AddCourseData", MetadataBody(data, Str(courseId)))
    case SaveStaff => Json("/Courses/AddCourseStaff", StaffBody(data, Str(courseId), WizardRatingField))
    case SaveContent => Json("/Courses/AddCourseContent", data["id" := Str(courseId)])
  }

  /** The message thrown when the reply says `isSuccess: false` without one. */
  function DefaultMessage(proc: SubmitProcedure): string {
    match proc
    case CreateCourse => "Failed to create course"
    case SaveMetadata => "Failed to save metadata"
    case SaveStaff => "Failed to save instructors"
    case SaveContent => "Failed to save content"
  }

  /** `result.message || default` for an unsuccessful reply. */
  function RejectionMessage(message: string, default: string): (m: string)
    ensures m != ""  <== default != ""
    ensures message != "" ==> m == message
    ensures message == "" ==> m == default
  {
    if message != "" then message else default
  }

  /** How a procedure's promise settles: it resolves exactly on a successful
      reply and otherwise throws the server's message or its own default. */
  function SubmitOutcome(proc: SubmitProcedure, reply: Reply): (outcome: Outcome)
    ensures outcome.Resolved? <==> Succeeded(reply)
    ensures reply.NetworkError? ==> outcome == Thrown(reply.reason)
    ensures reply.Replied? && !reply.isSuccess ==>
              outcome == Thrown(RejectionMessage(reply.message, DefaultMessage(proc)))
  {
    match reply
    case NetworkError(reason) => Thrown(reason)
    case Replied(ok, _, _, message) =>
      if ok then Resolved else Thrown(RejectionMessage(message, DefaultMessage(proc)))
  }

  /** The page state after a procedure ran: a failure throws before either
      callback, the create step adopts the server's id, and every step adopts
      the server's status. */
  function AfterSubmit(proc: SubmitProcedure, draft: Draft, reply: Reply): (after: Draft)
    ensures !Succeeded(reply) ==> after == draft
    ensures Succeeded(reply) ==> after.step == reply.status
    ensures proc != CreateCourse ==> after.courseId == draft.courseId
    ensures proc == CreateCourse && Succeeded(reply) ==> after.courseId == reply.id
  {
    if !Succeeded(reply) then draft
    else if proc == CreateCourse then Draft(reply.status, reply.id)
    else Draft(reply.status, draft.courseId)
  }

  /** The `step`/`courseId` state pair that the callbacks handed to a submit
      procedure write. */
  class DraftState {
    var step: string
    var courseId: string

    constructor (step: string, courseId: string)
      ensures this.step == step && this.courseId == courseId
    {
      this.step := step;
      this.courseId := courseId;
    }

    function Snapshot(): Draft
      reads this
    {
      Draft(step, courseId)
    }

    /** `setStep` */
    method SetStep(s: string)
      modifies this`step
      ensures step == s
    {
      step := s;
    }

    /** `setCourseId` */
    method SetCourseId(id: string)
      modifies this`courseId
      ensures courseId == id
    {
      courseId := id;
    }
  }

  /** A registry entry's `onSubmit`, run against one reply: it sends the
      payload built from the form values and the current course id, throws on
      failure, and otherwise writes the state through the callbacks. */
  method OnSubmit(config: StepConfig, data: Record, state: DraftState, reply: Reply)
    returns (request: Request, outcome: Outcome)
    modifies state
    ensures request == Payload(config.onSubmit, data, old(state.courseId))
    ensures outcome == SubmitOutcome(config.onSubmit, reply)
    ensures state.Snapshot() == AfterSubmit(config.onSubmit, old(state.Snapshot()), reply)
  {
    request := Payload(config.onSubmit, data, state.courseId);
    match reply
    case NetworkError(reason) =>
      outcome := Thrown(reason);
    case Replied(isSuccess, id, status, message) =>
      if !isSuccess {
        outcome := Thrown(RejectionMessage(message, DefaultMessage(config.onSubmit)));
        return;
      }
      if config.onSubmit == CreateCourse {
        state.SetCourseId(id);
      }
      state.SetStep(status);
      outcome := Resolved;
  }
}
