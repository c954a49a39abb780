# Course authoring admin: a Dafny model

This project models the application logic of the course-authoring admin
frontend (a Next.js/React app). Every network reply is an input value:
`isSuccess`, `id`, `status`, `message`, or a rejected fetch. Every
react-hook-form validation is a boolean input. Component state becomes a
Dafny `class` whose methods change exactly the fields the component's
handlers set.

- **Draft workflow** (`CourseSteps`, `AddCoursePage`, `CourseUpdate`). The
  step registry maps a course status ("new", "Draft-BasicInfo",
  "Draft-MetaData", "Draft-StaffInfo") to a form and a submit procedure.
  - The wizard's save looks up the current status and validates that one
    form. It submits it and adopts the status the server returns. It never
    chains into the next step.
  - Exactly one form section is enabled per registered status.
  - The edit page's "save all" runs Basic Info, MetaData and Instructor in
    that order. It stops at the first invalid section or the first rejected
    reply.
- **Curriculum arithmetic** (`CurriculumPublish`, `AddLessonModal`).
  - Lesson durations `hh:mm:ss` are summed into whole minutes, overall and
    for video lessons only. Attachments are counted.
  - Minutes are shown as `HHh MMm` and per lesson as `N min`.
  - The lesson dialog writes a minute count as `HH:MM:00`; read back, that
    text gives exactly that many minutes.
- **List operations** (`CourseTags`, `LessonsTable`, `CourseTable`,
  `InstructorInfo`):
  - the tag selection, capped at ten and free of duplicates;
  - lesson-type normalisation of untyped server values;
  - case-insensitive course search with six courses per page;
  - the instructor and assistant pickers and the rating switch.
- **Lesson editor** (`LessonsPage`). The form state becomes the ordered
  multipart field list, with its defaults. A fetched lesson becomes form
  state. Saves bump the refetch counter.

JavaScript semantics the code depends on live in `JsValues`: truthiness,
`||`, `??`, `Number(...)` and string conversion. ASCII text helpers live in
`Text`.

Behaviour of the code that the model makes visible:

- The wizard's staff submit reads `data.instructorAllowRating`. The
  instructor section writes the switch to `allowRatingOnInstructor`. So the
  wizard always sends `allowRatingOnInstructor: false`, whatever the switch
  shows (`InstructorInfo.WizardIgnoresTheSwitch`). The edit page reads the
  right field (`InstructorInfo.UpdatePageSendsTheSwitch`).
- At the cap, `addTag` sets an error, and the error hides the text input.
  `removeTag` does not clear it, so the input stays hidden after removals,
  and a hidden input takes no typing that could clear it.
- The lesson editor registers no input for `name`, `order`, `duration` or an
  item's `altText`. Every save therefore sends "Untitled Lesson", "0", "0"
  and "" for them (`LessonsPage.EverySaveSendsDefaults`).
- Loading a lesson resets `video` to null, and `video` is required. A loaded
  lesson can only be saved after a new video is picked
  (`LessonsPage.LoadedLessonNeedsNewVideo`).

## Model

| member | source | states |
|---|---|---|
| CourseSteps.CreateStepConfigs | app/configs/courseStepsConfig.ts:20-125 | the registry has four entries whose steps are exactly "new", "Draft-BasicInfo", "Draft-MetaData" and "Draft-StaffInfo", with pairwise distinct steps, forms and submit procedures |
| CourseSteps.BasicInfoParts | app/configs/courseStepsConfig.ts:31-35 | the create form sends Name as given, then Description, Outcome and Prerequisites, each the form value when it is neither null nor undefined and "" otherwise |
| CourseSteps.CoverImageParts | app/configs/courseStepsConfig.ts:36-38 | CoverImage is appended exactly when it is a File |
| CourseSteps.MetadataBody | app/configs/courseStepsConfig.ts:63-68 | the metadata body is the form data plus `id`, `duration` coerced to a number and `minEnrollment` fixed at 0; all other keys are kept |
| CourseSteps.StaffBody | app/configs/courseStepsConfig.ts:87-93 | the staff body has exactly five keys; ids default to [], `allowRatingOnAssistant` is always true, and the rating flag is read from the given field, defaulting to false |
| CourseSteps.Payload | app/configs/courseStepsConfig.ts:29-115 | each submit procedure builds its own request: multipart for create, JSON bodies for the other three, with the course id added |
| CourseSteps.RejectionMessage | app/configs/courseStepsConfig.ts:47 | a rejection throws the server message when non-empty, and exactly the step's default when it is empty |
| CourseSteps.SubmitOutcome | app/configs/courseStepsConfig.ts:47 | a submit resolves exactly when the reply succeeded; otherwise it throws the rejection message or the network error |
| CourseSteps.AfterSubmit | app/configs/courseStepsConfig.ts:46-50 | failure leaves step and course id unchanged; success sets step to the returned status; only create changes the course id, to the returned id |
| CourseSteps.OnSubmit | app/configs/courseStepsConfig.ts:29-123 | the procedure sends the payload for the current course id and leaves the draft state as AfterSubmit says |
| AddCoursePage.FindStepConfig | app/components/AddCoursePageClient/AddCoursePageClient.tsx:68-69 | the lookup finds an entry exactly when one has the step, and then it is the first such entry |
| AddCoursePage.RegistryLookup | app/components/AddCoursePageClient/AddCoursePageClient.tsx:68-69 | every registered step finds its own entry |
| AddCoursePage.EnabledSectionMatchesRegistry | app/components/AddCoursePageClient/AddCoursePageClient.tsx:134-162 | at a registered step, a section is enabled exactly when it holds the form that step is bound to |
| AddCoursePage.AtMostOneSectionEnabled | app/components/AddCoursePageClient/AddCoursePageClient.tsx:134-162 | at most one section is enabled at any step, and none at an unregistered step |
| AddCoursePage.Save | app/components/AddCoursePageClient/AddCoursePageClient.tsx:71-104 | an unknown step or an invalid form sends nothing and changes nothing; a valid form at a registered step sends that entry's payload under the current course id and leaves the state its procedure sets; the success toast shows exactly when a request was sent and accepted, the error toast exactly when one was sent and failed; a failure keeps the draft |
| AddCoursePage.InvalidFormIsNoop | app/components/AddCoursePageClient/AddCoursePageClient.tsx:74-75 | when the active form is invalid the save sends nothing and changes nothing |
| AddCoursePage.SaveSetsCourseIdOnlyWhenCreating | app/components/AddCoursePageClient/AddCoursePageClient.tsx:71-104 | a save changes the course id only from step "new" on an accepted reply, and then to the returned id |
| AddCoursePage.CreatingSetsCourseId | app/configs/courseStepsConfig.ts:46-50 | at status "new" with a valid form, an accepted reply sets the course id to the returned id and the status to the returned status |
| AddCoursePage.CreateCourseEntryIsNew | app/configs/courseStepsConfig.ts:26-30 | only the registry entry for status "new" runs the create-course submit |
| AddCoursePage.NextSaveFollowsReturnedStatus | app/components/AddCoursePageClient/AddCoursePageClient.tsx:69-81 | after an accepted save, the next save sends the form of the registry entry for the returned status, under the course id the first save left, which is the new id after a create |
| AddCoursePage.CreateScenario | app/components/AddCoursePageClient/AddCoursePageClient.tsx:71-104 | from a fresh draft, a valid basic-info form and an accepted reply set the returned id and status |
| AddCoursePage.RejectedMetadataScenario | app/components/AddCoursePageClient/AddCoursePageClient.tsx:93-100 | a rejected metadata save keeps step and course id and ends with the error toast "❌ Error saving data"; the procedure throws the server message |
| AddCoursePage.AfterLoad | app/components/AddCoursePageClient/AddCoursePageClient.tsx:37-66 | without a course id nothing changes; a successful load takes the course's id and `status \|\| "new"`; any other outcome sets step "new" |
| AddCoursePage.AddCoursePageClient.LoadCourse | app/components/AddCoursePageClient/AddCoursePageClient.tsx:37-66 | the load effect leaves the state AfterLoad describes |
| AddCoursePage.AddCoursePageClient.HandleAllSubmits | app/components/AddCoursePageClient/AddCoursePageClient.tsx:71-104 | the handler sends the request, shows the toast and leaves the state that Save describes |
| CourseUpdate.UpdatePayload | app/CourseUpdate/page.tsx:47-111 | basic info sends `Id = courseId \|\| ""`; metadata and instructor send the shared bodies, the staff body reading `allowRatingOnInstructor` |
| CourseUpdate.FailureMessage | app/CourseUpdate/page.tsx:64-108 | a rejection throws the server message when non-empty and the section's own default ("Failed to update basic info", "… metadata", "… instructors") when it is empty; a network error throws its own reason |
| CourseUpdate.RequestsInSectionOrder | app/CourseUpdate/page.tsx:27-42 | at most one request per section is sent, and the request for section k is the k-th one, in the order Basic Info, MetaData, Instructor |
| CourseUpdate.RequestAt | app/CourseUpdate/page.tsx:27-42 | counting from any section on, the request at each place is the payload of the section that far along |
| CourseUpdate.StopsAtFirstInvalid | app/CourseUpdate/page.tsx:34-40 | at the first invalid section the run stops: only earlier sections were sent, and the step is the last accepted status |
| CourseUpdate.StopsAtFirstRejection | app/CourseUpdate/page.tsx:34-42 | at the first rejected reply the run aborts with its message; later sections are neither validated nor sent |
| CourseUpdate.AllSavedExactlyWhenAllAccepted | app/CourseUpdate/page.tsx:44 | the success toast is reached exactly when every section is valid and accepted, and the step is then the last returned status |
| CourseUpdate.UpdateCoursePage.SubmitSection | app/CourseUpdate/page.tsx:47-111 | one submit sends its payload, resolves exactly on success, and sets step to the returned status only then |
| CourseUpdate.UpdateCoursePage.HandleAllSubmits | app/CourseUpdate/page.tsx:26-45 | the loop sends the requests and ends in the outcome and step that RunFrom describes |
| CurriculumPublish.HmsSeconds | app/components/CurriculumPublish/CurriculumPublish.tsx:92-93 | a duration reads as hh * 3600 + mm * 60 + ss, never negative when it is a number |
| CurriculumPublish.FieldSeconds | app/components/CurriculumPublish/CurriculumPublish.tsx:92-93 | a duration whose three fields read as the numbers a, b and c lasts a * 3600 + b * 60 + c seconds |
| CurriculumPublish.LessonSeconds | app/components/CurriculumPublish/CurriculumPublish.tsx:89-94 | a lesson without a duration, or not a video lesson when only videos count, adds 0 |
| CurriculumPublish.FloorMinutes | app/components/CurriculumPublish/CurriculumPublish.tsx:97 | the minutes are the floor of seconds / 60 |
| CurriculumPublish.CountAttachments | app/components/CurriculumPublish/CurriculumPublish.tsx:113-121 | there are never more attachments than lessons |
| CurriculumPublish.VideoSecondsAtMostTotal | app/components/CurriculumPublish/CurriculumPublish.tsx:87-111 | the video-only seconds never exceed the total seconds |
| CurriculumPublish.VideoMinutesAtMostTotal | app/components/CurriculumPublish/CurriculumPublish.tsx:87-111 | the video duration is never greater than the total duration |
| CurriculumPublish.AttachmentsAtMostLessons | app/components/CurriculumPublish/CurriculumPublish.tsx:112-121 | the attachment count is at most the lesson count shown |
| CurriculumPublish.OtherTypesCountAsNeither | app/components/CurriculumPublish/CurriculumPublish.tsx:104-116 | a lesson whose type is neither "Video" nor "Attachment" adds nothing to the video sum and is not counted as an attachment |
| CurriculumPublish.TableAttachmentsThePanelSkips | app/components/CurriculumPublish/CurriculumPublish.tsx:112-121 | a lesson typed 1 or "attachment", which the lessons table shows as an attachment, is not counted as one by the panel |
| CurriculumPublish.UntimedLessonAddsNothing | app/components/CurriculumPublish/CurriculumPublish.tsx:89-94 | inserting a lesson without a duration anywhere leaves both sums unchanged |
| CurriculumPublish.SumLessonSeconds | app/components/CurriculumPublish/CurriculumPublish.tsx:88-96 | the nested loops accumulate the sum of the lessons' seconds over all chapters |
| CurriculumPublish.AddLessonSeconds | app/components/CurriculumPublish/CurriculumPublish.tsx:89-94 | the inner loop adds one chapter's lessons to the running sum |
| CurriculumPublish.CalculateTotalDuration | app/components/CurriculumPublish/CurriculumPublish.tsx:87-98 | the total is the floored minutes of all lessons |
| CurriculumPublish.CalculateVideoDuration | app/components/CurriculumPublish/CurriculumPublish.tsx:100-111 | the video total is the floored minutes of the video lessons |
| CurriculumPublish.CountAttachmentLessons | app/components/CurriculumPublish/CurriculumPublish.tsx:113-121 | the loop counts the attachment lessons of all chapters |
| CurriculumPublish.AddAttachments | app/components/CurriculumPublish/CurriculumPublish.tsx:115-117 | the inner loop adds one chapter's attachment lessons to the running count |
| CurriculumPublish.FormatDurationReadsBack | app/components/CurriculumPublish/CurriculumPublish.tsx:123-127 | the `HHh MMm` text shows minutes below 60, and hours * 60 + minutes read back is the total |
| CurriculumPublish.DurationToMinutes | app/components/CurriculumPublish/CurriculumPublish.tsx:78-85 | "" and "00:00:00" give "N/A"; any other clock gives "h * 60 + m min", ignoring seconds |
| CurriculumPublish.Toggled | app/components/CurriculumPublish/CurriculumPublish.tsx:70-72 | toggling closes the expanded chapter and otherwise makes the chapter the only expanded one |
| CurriculumPublish.CurriculumBarPreview.ToggleChapter | app/components/CurriculumPublish/CurriculumPublish.tsx:70-72 | the handler sets the expanded chapter Toggled describes |
| CurriculumPublish.ChapterTotals | app/components/CurriculumPublish/CurriculumPublish.tsx:55-63 | the loaded chapters give the formatted total, the attachment count and the formatted video total |
| CurriculumPublish.CurriculumBarPreview.LoadChapters | app/components/CurriculumPublish/CurriculumPublish.tsx:37-68 | without a course id or on failure nothing changes; on success the chapters are replaced, the first is expanded and the three totals are published |
| AddLessonModal.ConvertedDurationSeconds | app/components/AddLessonModal/AddLessonModal.tsx:47-55 | `HH:MM:00` read back as hh * 3600 + mm * 60 + ss is exactly minutes * 60 |
| AddLessonModal.ConvertedClock | app/components/AddLessonModal/AddLessonModal.tsx:47-55 | the text reads as the clock (minutes / 60, minutes % 60, 0) |
| AddLessonModal.ConvertedDurationLabel | app/components/AddLessonModal/AddLessonModal.tsx:47-55 | the lesson list labels a written duration "N/A" for 0 and "minutes min" otherwise |
| AddLessonModal.WrittenLessonsTotal | app/components/AddLessonModal/AddLessonModal.tsx:47-55 | lessons written by the dialog total exactly the sum of their minutes in the curriculum panel |
| AddLessonModal.CreateLessonBodyFields | app/components/AddLessonModal/AddLessonModal.tsx:71-77 | the body is exactly ChapterId, Name, order "1", Type and the formatted Duration |
| AddLessonModal.AddLessonDialog.SetOpen | app/components/AddLessonModal/AddLessonModal.tsx:43-45 | closing the dialog resets the form |
| AddLessonModal.AddLessonDialog.HandleSubmit | app/components/AddLessonModal/AddLessonModal.tsx:56-90 | invalid fields send nothing; without a chapter id nothing is sent and an error shows; on success the dialog closes, the list refetches and the form resets; on failure everything stays |
| CourseTags.Added | app/components/CourseTagsInput/CourseTagsInput.tsx:56-67 | at the cap or with the id present the selection is kept; otherwise the id is appended |
| CourseTags.AddError | app/components/CourseTagsInput/CourseTagsInput.tsx:57-65 | at the cap the error is the cap message; a new id clears it; a duplicate leaves it |
| CourseTags.Removed | app/components/CourseTagsInput/CourseTagsInput.tsx:69-72 | removal keeps exactly the other ids |
| CourseTags.RemovedKeepsDistinct | app/components/CourseTagsInput/CourseTagsInput.tsx:69-72 | removal keeps a duplicate-free selection duplicate-free |
| CourseTags.RemovedAbsent | app/components/CourseTagsInput/CourseTagsInput.tsx:69-72 | removing an id the selection does not hold leaves it as it was |
| CourseTags.RemovedAppend | app/components/CourseTagsInput/CourseTagsInput.tsx:69-72 | removal distributes over concatenation, so the remaining ids keep their order |
| CourseTags.RemovedAtPosition | app/components/CourseTagsInput/CourseTagsInput.tsx:69-72 | in a duplicate-free selection, removing the id at position k leaves exactly the ids before and after it, in order |
| CourseTags.AddKeepsValid | app/components/CourseTagsInput/CourseTagsInput.tsx:56-67 | adding keeps at most ten tags, each once |
| CourseTags.RemoveKeepsValid | app/components/CourseTagsInput/CourseTagsInput.tsx:69-72 | removing keeps at most ten tags, each once |
| CourseTags.RemoveUndoesAdd | app/components/CourseTagsInput/CourseTagsInput.tsx:63-70 | removing a just-added new tag restores the selection |
| CourseTags.ReplayKeepsValid | app/components/CourseTagsInput/CourseTagsInput.tsx:56-72 | from no tags, any series of adds and removes keeps at most ten tags, each once |
| CourseTags.MatchTag | app/components/CourseTagsInput/CourseTagsInput.tsx:99-100 | a tag is matched exactly when some name equals the trimmed text ignoring case, and it is the first such tag in the list |
| CourseTags.CourseTagsInput.LoadTags | app/components/CourseTagsInput/CourseTagsInput.tsx:27-53 | loading always ends; success sets the tags, a rejected reply or a network error sets its message |
| CourseTags.CourseTagsInput.AddTag | app/components/CourseTagsInput/CourseTagsInput.tsx:56-67 | the handler sets the selection and error Added and AddError describe |
| CourseTags.CourseTagsInput.RemoveTag | app/components/CourseTagsInput/CourseTagsInput.tsx:69-72 | a press removes the id, or does nothing when the picker is disabled, and leaves the input's visibility as it was |
| CourseTags.CourseTagsInput.OnInputChange | app/components/CourseTagsInput/CourseTagsInput.tsx:96-104 | typed text adds the matched tag and sets the error as adding does, or changes nothing without a match, when the input is disabled, or while it is not rendered (loading or an error shown); at the cap the input is hidden |
| LessonsTable.NormalizeType | app/components/LessonsTable/LessonsTable.tsx:50-57 | the type is Attachment exactly for a string lower-casing to "attachment" or the number 1 |
| LessonsTable.MapLesson | app/components/LessonsTable/LessonsTable.tsx:59-64 | id and name are copied, the type normalised, and a falsy duration becomes "N/A" |
| LessonsTable.MapLessons | app/components/LessonsTable/LessonsTable.tsx:46-65 | the mapping keeps length and order, row k coming from lesson k |
| LessonsTable.MapLessonsAppend | app/components/LessonsTable/LessonsTable.tsx:46-65 | mapping two runs of lessons maps each in place |
| LessonsTable.LessonsTableState.FetchLessons | app/components/LessonsTable/LessonsTable.tsx:29-76 | without a chapter id nothing happens; only a successful array reply replaces the rows; loading ends |
| LessonsTable.LessonsTableState.AskToDelete | app/components/LessonsTable/LessonsTable.tsx:119 | the row's delete button selects it |
| LessonsTable.LessonsTableState.CancelDelete | app/components/LessonsTable/LessonsTable.tsx:135 | closing the confirmation forgets the selected row |
| LessonsTable.LessonsTableState.HandleDeleteLesson | app/components/LessonsTable/LessonsTable.tsx:78-99 | no selection sends nothing; the path names the selected id; failure keeps everything; success clears the selection and refetches: the rows become the reply's lessons when it is a successful array and stay as they were otherwise, and without a chapter id neither rows nor loading flag change |
| CourseTable.FilterCourses | app/components/CourseTable/CourseTable.tsx:48 | the filtered list holds exactly the named courses whose name contains the query ignoring case |
| CourseTable.FilterAppend | app/components/CourseTable/CourseTable.tsx:48 | filtering keeps the original order |
| CourseTable.EmptyQueryKeepsNamed | app/components/CourseTable/CourseTable.tsx:48 | the empty query lists every named course in order |
| CourseTable.TotalPages | app/components/CourseTable/CourseTable.tsx:50 | the page count is the fewest pages of six holding the list |
| CourseTable.PageOf | app/components/CourseTable/CourseTable.tsx:51 | a page holds at most six courses |
| CourseTable.PagesArePrefix | app/components/CourseTable/CourseTable.tsx:51 | pages 1..k are the first 6k courses |
| CourseTable.PagesCoverAll | app/components/CourseTable/CourseTable.tsx:50-51 | pages 1..totalPages together are exactly the filtered list |
| CourseTable.PageNonEmptyExactlyInRange | app/components/CourseTable/CourseTable.tsx:125-130 | a page is non-empty exactly when it is one of the buttons shown |
| CourseTable.CoursesTable.FetchCourses | app/components/CourseTable/CourseTable.tsx:18-42 | loading ends; only a successful reply with courses replaces them |
| CourseTable.CoursesTable.OnSearchChange | app/components/CourseTable/CourseTable.tsx:61-64 | a new query resets to page 1, showing the first six matches |
| CourseTable.CoursesTable.OnPageClick | app/components/CourseTable/CourseTable.tsx:125-130 | a page button opens a non-empty page of at most six |
| InstructorInfo.FilterPeople | app/components/InstructorInfo/InstructorInfo.tsx:84-85 | the list holds exactly the people whose name contains the query ignoring case |
| InstructorInfo.FilterPeopleAppend | app/components/InstructorInfo/InstructorInfo.tsx:84-85 | filtering distributes over concatenation, so the options keep the order of the fetched list |
| InstructorInfo.AllMatchListsEveryone | app/components/InstructorInfo/InstructorInfo.tsx:84-85 | when every person matches the query, the options are the whole list in order |
| InstructorInfo.EmptyQueryListsEveryone | app/components/InstructorInfo/InstructorInfo.tsx:84-85 | the empty query lists every person, in order |
| InstructorInfo.NameMatchesItself | app/components/InstructorInfo/InstructorInfo.tsx:114-119 | after a pick the query is the picked name, which still lists that person |
| InstructorInfo.ApplyStaffEdit | app/components/InstructorInfo/InstructorInfo.tsx:114-178 | picking sets the ids to exactly [id]; the switch flips the flag |
| InstructorInfo.ToggleFlips | app/components/InstructorInfo/InstructorInfo.tsx:178 | the switch flips the flag, and two presses restore it |
| InstructorInfo.PickedInstructorIsSent | app/components/InstructorInfo/InstructorInfo.tsx:114-119 | after a pick the required instructor field is met and the body sends exactly that id |
| InstructorInfo.EditsTouchOnlyStaffFields | app/components/InstructorInfo/InstructorInfo.tsx:114-178 | the section changes no form field but its three own |
| InstructorInfo.WizardIgnoresTheSwitch | app/configs/courseStepsConfig.ts:91 | the wizard's staff body sends false for the rating flag, whatever the switch shows |
| InstructorInfo.UpdatePageSendsTheSwitch | app/CourseUpdate/page.tsx:102 | the edit page sends the flag the switch shows |
| InstructorInfo.ItemsOrEmpty | app/components/InstructorInfo/InstructorInfo.tsx:61-62 | a missing list reads as empty |
| InstructorInfo.StaffPickers.LoadPeople | app/components/InstructorInfo/InstructorInfo.tsx:39-63 | both lists are set only when both bodies are read |
| InstructorInfo.StaffPickers.OnInstructorQuery | app/components/InstructorInfo/InstructorInfo.tsx:97-106 | typing opens the list, shown exactly when the query is non-empty; a disabled input keeps its state |
| InstructorInfo.StaffPickers.OnAssistantQuery | app/components/InstructorInfo/InstructorInfo.tsx:138-147 | typing opens the list, shown exactly when the query is non-empty; a disabled input keeps its state |
| InstructorInfo.StaffPickers.SelectInstructor | app/components/InstructorInfo/InstructorInfo.tsx:114-119 | a pick sets `instructorIds` to [id], the query to the name, and closes the list |
| InstructorInfo.StaffPickers.SelectAssistant | app/components/InstructorInfo/InstructorInfo.tsx:155-159 | a pick sets `assistantIds` to [id], the query to the name, and closes the list |
| InstructorInfo.StaffPickers.ToggleRatingSwitch | app/components/InstructorInfo/InstructorInfo.tsx:177-178 | the switch flips `allowRatingOnInstructor`, and a disabled switch leaves it |
| InstructorInfo.StaffPickers.ClickOutside | app/components/InstructorInfo/InstructorInfo.tsx:68-82 | each list closes when the press is outside it |
| LessonsPage.ItemKeysDistinct | app/components/LessonsClientPage/LessonsClientPage.tsx:113-119 | item field keys of different items or fields never coincide |
| LessonsPage.ItemPartsKeys | app/components/LessonsClientPage/LessonsClientPage.tsx:113-119 | an item sends AltText and Description, "" by default, and Image exactly when it is a File, all under its own index |
| LessonsPage.ItemPartsPerItem | app/components/LessonsClientPage/LessonsClientPage.tsx:113-119 | in the whole list, item i's Image is present exactly for a File and its AltText and Description always |
| LessonsPage.NoKeysOfLaterItems | app/components/LessonsClientPage/LessonsClientPage.tsx:113-119 | no key names an item beyond the list |
| LessonsPage.VideoPartExactlyForFile | app/components/LessonsClientPage/LessonsClientPage.tsx:105-108 | Video is sent exactly when it is a File |
| LessonsPage.VideoPlaceholderPartExactlyForFile | app/components/LessonsClientPage/LessonsClientPage.tsx:109-111 | the body holds a VideoPlaceholder part if and only if the placeholder is a picked file |
| LessonsPage.ImagePartExactlyForFile | app/components/LessonsClientPage/LessonsClientPage.tsx:113-119 | each item's Image is sent exactly when it is a File |
| LessonsPage.BuildLessonFormData | app/components/LessonsClientPage/LessonsClientPage.tsx:95-119 | the appends build exactly the header, file and item fields in order |
| LessonsPage.AppendAllItemParts | app/components/LessonsClientPage/LessonsClientPage.tsx:113-119 | the loop appends the fields of every item in order |
| LessonsPage.UnsetHeaderDefaults | app/components/LessonsClientPage/LessonsClientPage.tsx:97-103 | with no name, order or duration, the header sends "Untitled Lesson", "0" and "0" |
| LessonsPage.UnsetFieldsSendDefaults | app/components/LessonsClientPage/LessonsClientPage.tsx:97-119 | with the unregistered fields unset, the defaults and empty alt texts are sent |
| LessonsPage.DefaultFormHeader | app/components/LessonsClientPage/LessonsClientPage.tsx:97-103 | the default form sends LessonId, "Untitled Lesson", Intro, Description, "0", Type "Video" and "0" |
| LessonsPage.PreviewUrl | app/components/LessonsClientPage/LessonsClientPage.tsx:61-75 | a preview is the files prefix plus the stored path when present, else "" |
| LessonsPage.ResetValues | app/components/LessonsClientPage/LessonsClientPage.tsx:58-78 | loading resets the form to exactly the default fields and exactly two item images |
| LessonsPage.ResetLoadsTexts | app/components/LessonsClientPage/LessonsClientPage.tsx:58-78 | loading clears the video and its placeholder, takes intro and description with "" and type with "Video" as defaults, and previews the stored video |
| LessonsPage.ResetLoadsItems | app/components/LessonsClientPage/LessonsClientPage.tsx:58-78 | each of the two reset items has no file, the loaded description and a preview of the loaded image at the same position |
| LessonsPage.LoadedLessonNeedsNewVideo | app/components/LessonsClientPage/LessonsClientPage.tsx:58-78 | a just-loaded lesson fails the required video rule |
| LessonsPage.LoadedLessonSendsNoFiles | app/components/LessonsClientPage/LessonsClientPage.tsx:58-78 | a just-loaded lesson sends no video, placeholder or item image |
| LessonsPage.SetItemField | app/components/LessonsClientPage/LessonsClientPage.tsx:290-308 | an item edit changes only that item's field |
| LessonsPage.EverySaveSendsDefaults | app/components/LessonsClientPage/LessonsClientPage.tsx:97-119 | whatever the user edits, the save sends the defaults for the unregistered fields |
| LessonsPage.LessonsClientPage.FetchLessonData | app/components/LessonsClientPage/LessonsClientPage.tsx:47-87 | loading ends; a reply holding a lesson resets the form and makes that lesson active; any other reply keeps both; only a rejected or unreadable reply reports failure |
| LessonsPage.LessonsClientPage.SelectLesson | app/components/LessonsClientPage/LessonsClientPage.tsx:349-352 | a click makes the lesson active before loading it: a found lesson resets the form, and a failed load keeps the previous form under the new lesson id |
| LessonsPage.LessonIdOnlyDiffers | app/components/LessonsClientPage/LessonsClientPage.tsx:97-119 | the same form saved under two lesson ids differs only in the leading LessonId part, which carries the active id |
| LessonsPage.LessonsClientPage.Edit | app/components/LessonsClientPage/LessonsClientPage.tsx:198-308 | an edit keeps the unregistered fields unset |
| LessonsPage.LessonsClientPage.OnSubmit | app/components/LessonsClientPage/LessonsClientPage.tsx:93-137 | a request is sent exactly when the required fields are filled, and it is the full field list; the refetch trigger grows by exactly 1 on a save and is otherwise unchanged |

## Left out

- Network calls, the bearer token, toasts, `router.push` and
  `console.error`. Replies are inputs. Requests and toasts are recorded
  outputs. `Backend_Url` and `Fake_Token` are not modelled. `Files_Url` is a
  parameter.
- react-hook-form internals (`register`, `trigger`, `handleSubmit`, `reset`,
  `watch`). Form state is a field map and validity is a boolean. The
  placeholder's `required` rule is the boolean `placeholderRuleMet`, since
  its watched value is not modelled.
- The date-fns `parse` in `durationToMinutes`. The model reads `HH:mm:ss`
  directly as digits. Out-of-range fields are not rejected as date-fns
  would reject them.
- JavaScript numbers are integers here. Floating point, signs, decimals and
  exponents in `Number(...)` strings are not modelled; such strings read as
  NaN. Surrounding whitespace is trimmed, as `Number` does. Fractional minutes in `convertMinutesToHHMMSS` are
  not modelled, since the input is a natural number.
- `toLowerCase` is ASCII lower-casing. Unicode case folding is not modelled.
- JSON.stringify and FormData's string conversion of values are not
  modelled. The request is the list of (key, value) pairs.
- Concurrency: overlapping saves and fetches are not modelled. One handler
  runs at a time.
- Server fields of unexpected types: a list element that is not an object,
  and a reply whose lists are not arrays, apart from the cases each reply
  datatype names.
- Rejections the source does not catch: `fetchPeople` and the
  `fetchChapters` effect. These are modelled as leaving the state unchanged.
- LessonsPage.LessonsClientPage.SaveDisabled and
  CourseTable.CoursesTable.PaginationShown are predicates with no contract.
  They state the `disabled` and `totalPages > 1` conditions directly.
- The `disabled` prop is modelled where it blocks the user: the two search
  inputs and the rating switch of InstructorInfo, and the tag input and the
  remove buttons of CourseTagsInput. The instructor and assistant list
  entries and the outside-click handler carry no `disabled` in the source
  and are not gated; a list can only be opened by typing, which a disabled
  input refuses.
- Rendering, and the components outside this core: the course preview, the
  publish page, image cropping, the rich text editor, file-upload previews,
  the loaders that only fetch and assign, and the presentational components.
