/** The add-course wizard page (AddCoursePageClient.tsx): it holds the current
    workflow status and course id, loads an existing course named in the URL,
    saves only the form of the step that matches the current status, and
    renders exactly one form section editable per registered status. */
module AddCoursePage {
  import opened JsValues
  import opened CourseSteps

  /** The form sections the page renders. */
  datatype Section = BasicInfoSection | SidePanelSection | InstructorSection | ContentSection

  /** The form whose FormProvider wraps each section. */
  function SectionForm(section: Section): FormHandle {
    match section
    case BasicInfoSection => BasicInfoForm
    case SidePanelSection => SidePanelForm
    case InstructorSection => InstructorForm
    case ContentSection => ContentForm
  }

  /** The status at which the page renders a section editable. */
  function EnablingStep(section: Section): string {
    match section
    case BasicInfoSection => "new"
    case SidePanelSection => "Draft-BasicInfo"
    case InstructorSection => "Draft-MetaData"
    case ContentSection => "Draft-StaffInfo"
  }

  /** The `disabled` prop each section receives. */
  predicate Disabled(section: Section, step: string) {
    step != EnablingStep(section)
  }

  /** `stepConfigs.find((s) => s.step === step)`: the first entry whose key
      is the current status, if any. */
  function FindStepConfig(configs: seq<StepConfig>, step: string): (found: Option<StepConfig>)
    ensures found.None? <==> forall i :: 0 <= i < |configs| ==> configs[i].step != step
    ensures found.Some? ==> found.value.step == step && found.value in configs
    ensures found.Some? ==> exists i :: 0 <= i < |configs| && configs[i] == found.value &&
                                        forall j :: 0 <= j < i ==> configs[j].step != step
  {
    if configs == [] then None
    else if configs[0].step == step then Some(configs[0])
    else
      var rest := FindStepConfig(configs[1..], step);
      assert rest.Some? ==> exists i :: 1 <= i < |configs| && configs[i] == rest.value &&
                                        forall j :: 0 <= j < i ==> configs[j].step != step by {
        if rest.Some? {
          var i :| 0 <= i < |configs[1..]| && configs[1..][i] == rest.value &&
                   forall j :: 0 <= j < i ==> configs[1..][j].step != step;
          assert forall j :: 0 <= j < i + 1 ==> configs[j].step != step by {
            forall j | 0 <= j < i + 1 ensures configs[j].step != step {
              if j > 0 { assert configs[j] == configs[1..][j - 1]; }
            }
          }
        }
      }
      rest
  }

  /** In the registry, a status selects the entry with that key. */
  lemma {:induction false} RegistryLookup(i: nat)
    requires i < |CreateStepConfigs()|
    ensures FindStepConfig(CreateStepConfigs(), CreateStepConfigs()[i].step) == Some(CreateStepConfigs()[i])
  {
    var configs := CreateStepConfigs();
    var found := FindStepConfig(configs, configs[i].step);
    var k :| 0 <= k < |configs| && configs[k] == found.value &&
             forall j :: 0 <= j < k ==> configs[j].step != configs[i].step;
    assert k == i;
  }

  /** For every registry entry, the one enabled section is the one wrapped
      by that entry's form, so editing and saving always concern the same form. */
  lemma EnabledSectionMatchesRegistry(config: StepConfig, section: Section)
    requires config in CreateStepConfigs()
    ensures !Disabled(section, config.step) <==> SectionForm(section) == config.form
  {
  }

  /** At most one section is editable at any status, and none at a status
      the registry does not know. */
  lemma AtMostOneSectionEnabled(step: string, s1: Section, s2: Section)
    ensures !Disabled(s1, step) && !Disabled(s2, step) ==> s1 == s2
    ensures FindStepConfig(CreateStepConfigs(), step).None? ==> Disabled(s1, step)
  {
    if FindStepConfig(CreateStepConfigs(), step).None? {
      var configs := CreateStepConfigs();
      assert configs[0].step != step && configs[1].step != step;
      assert configs[2].step != step && configs[3].step != step;
    }
  }

  /** Validity and values of one form at the moment of a save: what
      `form.trigger()` resolves to and what `handleSubmit` passes on. */
  datatype FormState = FormState(valid: bool, values: Record)

  datatype Forms = Forms(basicInfo: FormState, sidePanel: FormState, instructor: FormState, content: FormState) {
    function Of(handle: FormHandle): FormState {
      match handle
      case BasicInfoForm => basicInfo
      case SidePanelForm => sidePanel
      case InstructorForm => instructor
      case ContentForm => content
    }
  }

  /** The toast a save leaves: none, "✅ Saved successfully!" or "❌ Error saving data". */
  datatype SaveToast = NoToast | SavedToast | ErrorToast

  /** What one press of "Save to draft" does: the state it leaves, the one
      request it sends (if any) and the toast it shows. */
  datatype SaveRun = SaveRun(draft: Draft, request: Option<Request>, toast: SaveToast)

  /** `handleAllSubmits` as a function of the state before it, the forms and
      the backend's reply. */
  function Save(draft: Draft, forms: Forms, reply: Reply): (run: SaveRun)
    ensures FindStepConfig(CreateStepConfigs(), draft.step).None? ==> run == SaveRun(draft, None, NoToast)
    ensures run.request.None? ==> run.draft == draft && run.toast == NoToast
    ensures run.request.Some? ==>
              var config := FindStepConfig(CreateStepConfigs(), draft.step).value;
              forms.Of(config.form).valid &&
              run.request.value == Payload(config.onSubmit, forms.Of(config.form).values, draft.courseId)
    ensures run.toast == SavedToast <==> run.request.Some? && Succeeded(reply)
    ensures run.toast == ErrorToast <==> run.request.Some? && !Succeeded(reply)
    ensures !Succeeded(reply) ==> run.draft == draft
    ensures Succeeded(reply) && run.request.Some? ==> run.draft.step == reply.status
    ensures FindStepConfig(CreateStepConfigs(), draft.step).Some? &&
            forms.Of(FindStepConfig(CreateStepConfigs(), draft.step).value.form).valid ==>
              var config := FindStepConfig(CreateStepConfigs(), draft.step).value;
              run.request == Some(Payload(config.onSubmit, forms.Of(config.form).values, draft.courseId)) &&
              run.draft == AfterSubmit(config.onSubmit, draft, reply)
  {
    match FindStepConfig(CreateStepConfigs(), draft.step)
    case None => SaveRun(draft, None, NoToast)
    case Some(config) =>
      var form := forms.Of(config.form);
      if !form.valid then SaveRun(draft, None, NoToast)
      else
        var request := Payload(config.onSubmit, form.values, draft.courseId);
        var after := AfterSubmit(config.onSubmit, draft, reply);
        var toast := if SubmitOutcome(config.onSubmit, reply).Resolved? then SavedToast else ErrorToast;
        SaveRun(after, Some(request), toast)
  }

  /** If the active form is invalid, nothing is sent and nothing changes. */
  lemma InvalidFormIsNoop(draft: Draft, forms: Forms, reply: Reply, config: StepConfig)
    requires config in CreateStepConfigs() && config.step == draft.step
    requires !forms.Of(config.form).valid
    ensures Save(draft, forms, reply) == SaveRun(draft, None, NoToast)
  {
    var i :| 0 <= i < |CreateStepConfigs()| && CreateStepConfigs()[i] == config;
    RegistryLookup(i);
  }

  /** A save changes the course id only on the "new" step, and then to the
      id the server assigned. */
  lemma SaveSetsCourseIdOnlyWhenCreating(draft: Draft, forms: Forms, reply: Reply)
    ensures Save(draft, forms, reply).draft.courseId != draft.courseId ==>
              draft.step == "new" && Succeeded(reply) && Save(draft, forms, reply).draft.courseId == reply.id
  {
    var run := Save(draft, forms, reply);
    if run.draft.courseId != draft.courseId {
      var config := FindStepConfig(CreateStepConfigs(), draft.step).value;
      assert run.draft == AfterSubmit(config.onSubmit, draft, reply);
      CreateCourseEntryIsNew(config);
    }
  }

  /** Only the registry's "new" entry runs `createCourse`. */
  lemma CreateCourseEntryIsNew(config: StepConfig)
    requires config in CreateStepConfigs()
    ensures config.onSubmit == CreateCourse ==> config.step == "new"
  {
    var configs := CreateStepConfigs();
    var i :| 0 <= i < 4 && configs[i] == config;
    assert configs[0].onSubmit == CreateCourse;
  }

  /** At status "new" with a valid basic-info form, an accepted reply sets
      the course id to the one the server assigned and the status to the
      returned one. */
  lemma CreatingSetsCourseId(courseId: string, forms: Forms, reply: Reply)
    requires forms.basicInfo.valid && Succeeded(reply)
    ensures Save(Draft("new", courseId), forms, reply).draft == Draft(reply.status, reply.id)
  {
    RegistryLookup(0);
  }

  /** Saves move through the registry: after an accepted save whose reply
      names the status of entry i, the next save sends entry i's form through
      entry i's procedure, under the course id the first save left (the new
      id when the first save created the course). */
  lemma NextSaveFollowsReturnedStatus(draft: Draft, forms: Forms, reply: Reply, i: nat, nextForms: Forms, nextReply: Reply)
    requires Succeeded(reply) && Save(draft, forms, reply).request.Some?
    requires i < |CreateStepConfigs()| && reply.status == CreateStepConfigs()[i].step
    requires nextForms.Of(CreateStepConfigs()[i].form).valid
    ensures var first := Save(draft, forms, reply).draft;
            var config := CreateStepConfigs()[i];
            Save(first, nextForms, nextReply).request ==
              Some(Payload(config.onSubmit, nextForms.Of(config.form).values, first.courseId))
    ensures draft.step == "new" ==> Save(draft, forms, reply).draft.courseId == reply.id
  {
    RegistryLookup(i);
    if draft.step == "new" {
      RegistryLookup(0);
    }
  }

  /** A fresh course: at status "new", a valid basic-info form named
      "Intro to Design" and a reply with id "abc123" and status
      "Draft-BasicInfo" leave that id and status, after which only the side
      panel (the metadata form) is editable. */
  lemma CreateScenario(forms: Forms)
    requires forms.basicInfo == FormState(true, map["Name" := Str("Intro to Design")])
    ensures var run := Save(Draft("new", ""), forms, Replied(true, "abc123", "Draft-BasicInfo", ""));
            run.draft == Draft("Draft-BasicInfo", "abc123") &&
            run.toast == SavedToast &&
            !Disabled(SidePanelSection, run.draft.step) && Disabled(BasicInfoSection, run.draft.step)
  {
    RegistryLookup(0);
  }

  /** A rejected metadata save keeps the status and surfaces the server's message. */
  lemma RejectedMetadataScenario(forms: Forms, courseId: string)
    requires forms.sidePanel.valid
    ensures var reply := Replied(false, "", "", "duration required");
            var run := Save(Draft("Draft-BasicInfo", courseId), forms, reply);
            run.draft == Draft("Draft-BasicInfo", courseId) && run.toast == ErrorToast &&
            SubmitOutcome(SaveMetadata, reply) == Thrown("duration required")
  {
    RegistryLookup(1);
  }

  /** A course as `GetCourseBasicInfo` returns it. */
  datatype CourseInfo = CourseInfo(id: string, status: string)

  /** The reply to the course-load request; `LoadFailed` is a thrown fetch or parse. */
  datatype LoadReply = Loaded(isSuccess: bool, course: Option<CourseInfo>) | LoadFailed

  /** The state after the load effect: with no id in the URL nothing
      happens; a successful reply adopts the course's id and its status (or
      "new" when the status is empty); any other outcome resets the status to
      "new" and keeps the course id. */
  function AfterLoad(draft: Draft, courseIdFromUrl: Option<string>, reply: LoadReply): (after: Draft)
    ensures !Present(courseIdFromUrl) ==> after == draft
    ensures Present(courseIdFromUrl) && reply.Loaded? && reply.isSuccess && reply.course.Some? ==>
              after.courseId == reply.course.value.id &&
              after.step == (if reply.course.value.status != "" then reply.course.value.status else "new")
    ensures Present(courseIdFromUrl) && !(reply.Loaded? && reply.isSuccess && reply.course.Some?) ==>
              after == Draft("new", draft.courseId)
  {
    if !Present(courseIdFromUrl) then draft
    else match reply
      case Loaded(true, Some(course)) =>
        Draft(if course.status != "" then course.status else "new", course.id)
      case _ => Draft("new", draft.courseId)
  }

  /** The page component's state and handlers. */
  class AddCoursePageClient {
    /** The `step`/`courseId` state, written by the load effect and by the
        registry's submit procedures through their callbacks. */
    const draft: DraftState

    constructor ()
      ensures fresh(draft)
      ensures draft.step == "new" && draft.courseId == ""
    {
      draft := new DraftState("new", "");
    }

    /** The `fetchCourseById` effect. */
    method LoadCourse(courseIdFromUrl: Option<string>, reply: LoadReply)
      modifies draft
      ensures draft.Snapshot() == AfterLoad(old(draft.Snapshot()), courseIdFromUrl, reply)
    {
      if !Present(courseIdFromUrl) {
        return;
      }
      match reply
      case Loaded(true, Some(course)) =>
        draft.SetCourseId(course.id);
        draft.SetStep(if course.status != "" then course.status else "new");
      case _ =>
        draft.SetStep("new");
    }

    /** `handleAllSubmits`: look up the active step, validate its form, run
        its submit procedure and catch whatever it throws. */
    method HandleAllSubmits(forms: Forms, reply: Reply) returns (request: Option<Request>, toast: SaveToast)
      modifies draft
      ensures SaveRun(draft.Snapshot(), request, toast) == Save(old(draft.Snapshot()), forms, reply)
    {
      var activeStepConfig := FindStepConfig(CreateStepConfigs(), draft.step);
      if activeStepConfig.None? {
        return None, NoToast;
      }
      var config := activeStepConfig.value;
      var form := forms.Of(config.form);
      if !form.valid {
        return None, NoToast;
      }
      var sent, outcome := OnSubmit(config, form.values, draft, reply);
      request := Some(sent);
      toast := if outcome.Resolved? then SavedToast else ErrorToast;
    }
  }
}
