/** The staff section of the course form (InstructorInfo.tsx): searchable
    pickers for the instructor and the assistant, and the switch that
    allows rating the instructor. It writes the `instructorIds`,
    `assistantIds` and `allowRatingOnInstructor` form fields. */
module InstructorInfo {
  import opened JsValues
  import opened Text
  import opened CourseSteps
  import CourseUpdate

  datatype Person = Person(id: string, name: string)

  /** `p.name.toLowerCase().includes(query.toLowerCase())` */
  predicate NameMatches(person: Person, query: string) {
    Contains(Lower(person.name), Lower(query))
  }

  /** `filteredInstructors` and `filteredAssistants`, in the original order. */
  function FilterPeople(people: seq<Person>, query: string): (r: seq<Person>)
    ensures |r| <= |people|
    ensures forall p :: p in r <==> p in people && NameMatches(p, query)
  {
    if people == [] then []
    else
      var last := people[|people| - 1];
      FilterPeople(people[..|people| - 1], query) + (if NameMatches(last, query) then [last] else [])
  }

  /** Filtering two runs of people filters each in place, so the options
      keep the order of the fetched list. */
  lemma {:induction false} FilterPeopleAppend(a: seq<Person>, b: seq<Person>, query: string)
    ensures FilterPeople(a + b, query) == FilterPeople(a, query) + FilterPeople(b, query)
    decreases |b|
  {
    if b != [] {
      var init := b[..|b| - 1];
      assert (a + b)[..|a + b| - 1] == a + init;
      FilterPeopleAppend(a, init, query);
    } else {
      assert a + b == a;
    }
  }

  /** When everyone matches the query, everyone is listed, in order. */
  lemma {:induction false} AllMatchListsEveryone(people: seq<Person>, query: string)
    requires forall k :: 0 <= k < |people| ==> NameMatches(people[k], query)
    ensures FilterPeople(people, query) == people
  {
    if people != [] {
      var n := |people| - 1;
      var init := people[..n];
      assert forall k :: 0 <= k < n ==> NameMatches(init[k], query) by {
        forall k | 0 <= k < n
          ensures NameMatches(init[k], query)
        {
          assert init[k] == people[k];
        }
      }
      AllMatchListsEveryone(init, query);
      assert NameMatches(people[n], query);
      SplitLast(people);
    }
  }

  /** A non-empty list is its first part followed by its last element. */
  lemma SplitLast(people: seq<Person>)
    requires people != []
    ensures people == people[..|people| - 1] + [people[|people| - 1]]
  {
  }

  /** The empty query lists everyone, in order. */
  lemma EmptyQueryListsEveryone(people: seq<Person>)
    ensures FilterPeople(people, "") == people
  {
    forall k | 0 <= k < |people|
      ensures NameMatches(people[k], "")
    {
      EmptyQueryMatches(people[k]);
    }
    AllMatchListsEveryone(people, "");
  }

  /** Everyone's name contains the empty query. */
  lemma EmptyQueryMatches(person: Person)
    ensures NameMatches(person, "")
  {
    assert Lower("") == [];
  }

  /** A person's own name finds them again. */
  lemma NameMatchesItself(person: Person)
    ensures NameMatches(person, person.name)
  {
    var s := Lower(person.name);
    assert s <= s;
  }

  /** The form field the switch writes and reads. */
  const RatingField := "allowRatingOnInstructor"

  /** `watch("allowRatingOnInstructor") || false`, as a truth value. */
  predicate RatingEnabled(values: Record) {
    Truthy(Get(values, RatingField))
  }

  /** The writes this section makes to the form values. */
  datatype StaffEdit = PickInstructor(instructor: Person) | PickAssistant(assistant: Person) | ToggleRating

  function ApplyStaffEdit(values: Record, edit: StaffEdit): (r: Record)
    ensures edit.PickInstructor? ==> r == values["instructorIds" := Arr([Str(edit.instructor.id)])]
    ensures edit.PickAssistant? ==> r == values["assistantIds" := Arr([Str(edit.assistant.id)])]
    ensures edit.ToggleRating? ==> r == values[RatingField := Bool(!RatingEnabled(values))]
  {
    match edit
    case PickInstructor(p) => values["instructorIds" := Arr([Str(p.id)])]
    case PickAssistant(p) => values["assistantIds" := Arr([Str(p.id)])]
    case ToggleRating => values[RatingField := Bool(!RatingEnabled(values))]
  }

  function ApplyStaffEdits(values: Record, edits: seq<StaffEdit>): Record {
    if edits == [] then values
    else ApplyStaffEdit(ApplyStaffEdits(values, edits[..|edits| - 1]), edits[|edits| - 1])
  }

  /** The switch flips the flag; pressed twice it is back where it was. */
  lemma ToggleFlips(values: Record)
    ensures RatingEnabled(ApplyStaffEdit(values, ToggleRating)) == !RatingEnabled(values)
    ensures RatingEnabled(ApplyStaffEdit(ApplyStaffEdit(values, ToggleRating), ToggleRating)) == RatingEnabled(values)
  {
  }

  /** Picking an instructor satisfies the `required` rule on `instructorIds`
      and puts exactly that instructor's id in the staff body. */
  lemma PickedInstructorIsSent(values: Record, instructor: Person, id: Value, ratingField: string)
    requires ratingField != "instructorIds"
    ensures var after := ApplyStaffEdit(values, PickInstructor(instructor));
            RequiredMet(Get(after, "instructorIds")) &&
            StaffBody(after, id, ratingField)["instructorIds"] == Arr([Str(instructor.id)])
  {
  }

  /** This section writes no form field but its own three, so whatever the
      user does here leaves every other field as it was. */
  lemma {:induction false} EditsTouchOnlyStaffFields(values: Record, edits: seq<StaffEdit>, key: string)
    requires key !in {"instructorIds", "assistantIds", RatingField}
    ensures Get(ApplyStaffEdits(values, edits), key) == Get(values, key)
  {
    if edits != [] {
      EditsTouchOnlyStaffFields(values, edits[..|edits| - 1], key);
    }
  }

  /** The course wizard's staff submit reads the flag from
      `instructorAllowRating`, a field this section never writes: starting
      from values without it, the wizard always sends false whatever the
      switch shows. */
  lemma WizardIgnoresTheSwitch(values: Record, edits: seq<StaffEdit>, id: Value)
    requires WizardRatingField !in values
    ensures StaffBody(ApplyStaffEdits(values, edits), id, WizardRatingField)["allowRatingOnInstructor"] == Bool(false)
  {
    EditsTouchOnlyStaffFields(values, edits, WizardRatingField);
  }

  /** The edit page's staff submit reads the field the switch writes: after
      a press it sends true exactly when the switch was off before. */
  lemma UpdatePageSendsTheSwitch(values: Record, id: Value)
    ensures StaffBody(ApplyStaffEdit(values, ToggleRating), id, CourseUpdate.UpdateRatingField)["allowRatingOnInstructor"]
            == Bool(!RatingEnabled(values))
  {
  }

  /** The JSON of one of the two lists: `items` is None when
      `data?.instructors?.items` (or the assistants' one) is missing. */
  datatype PeopleReply = PeopleBody(items: Option<seq<Person>>) | PeopleUnreadable

  /** `data?.….items || []` */
  function ItemsOrEmpty(items: Option<seq<Person>>): (r: seq<Person>)
    ensures items.Some? ==> r == items.value
    ensures items.None? ==> r == []
  {
    if items.Some? then items.value else []
  }

  class StaffPickers {
    var instructors: seq<Person>
    var assistants: seq<Person>
    var instructorQuery: string
    var assistantQuery: string
    var showInstructorList: bool
    var showAssistantList: bool
    /** The form values this section writes. */
    var values: Record
    /** The `disabled` prop: both inputs and the switch ignore the user. */
    const disabled: bool

    constructor (values: Record, disabled: bool)
      ensures instructors == [] && assistants == [] && instructorQuery == "" && assistantQuery == ""
      ensures !showInstructorList && !showAssistantList && this.values == values && this.disabled == disabled
    {
      instructors := [];
      assistants := [];
      instructorQuery := "";
      assistantQuery := "";
      showInstructorList := false;
      showAssistantList := false;
      this.values := values;
      this.disabled := disabled;
    }

    /** The instructor list is on screen. */
    predicate InstructorListShown()
      reads this
    {
      showInstructorList && instructorQuery != ""
    }

    predicate AssistantListShown()
      reads this
    {
      showAssistantList && assistantQuery != ""
    }

    function InstructorOptions(): seq<Person>
      reads this
    {
      FilterPeople(instructors, instructorQuery)
    }

    function AssistantOptions(): seq<Person>
      reads this
    {
      FilterPeople(assistants, assistantQuery)
    }

    /** `fetchPeople`: both lists are set only once both bodies are read; an
        unreadable body throws and leaves both as they were. */
    method LoadPeople(instructorReply: PeopleReply, assistantReply: PeopleReply)
      modifies this`instructors, this`assistants
      ensures instructorReply.PeopleBody? && assistantReply.PeopleBody? ==>
                instructors == ItemsOrEmpty(instructorReply.items) && assistants == ItemsOrEmpty(assistantReply.items)
      ensures instructorReply.PeopleUnreadable? || assistantReply.PeopleUnreadable? ==>
                instructors == old(instructors) && assistants == old(assistants)
    {
      if instructorReply.PeopleUnreadable? || assistantReply.PeopleUnreadable? {
        return;
      }
      instructors := ItemsOrEmpty(instructorReply.items);
      assistants := ItemsOrEmpty(assistantReply.items);
    }

    /** The instructor input's `onChange`: the list opens, and it is on
        screen exactly when something is typed. A disabled input takes no
        typing. */
    method OnInstructorQuery(typed: string)
      modifies this`instructorQuery, this`showInstructorList
      ensures disabled ==> instructorQuery == old(instructorQuery) && showInstructorList == old(showInstructorList)
      ensures !disabled ==> instructorQuery == typed && showInstructorList
      ensures !disabled ==> (InstructorListShown() <==> typed != "")
    {
      if disabled {
        return;
      }
      instructorQuery := typed;
      showInstructorList := true;
    }

    method OnAssistantQuery(typed: string)
      modifies this`assistantQuery, this`showAssistantList
      ensures disabled ==> assistantQuery == old(assistantQuery) && showAssistantList == old(showAssistantList)
      ensures !disabled ==> assistantQuery == typed && showAssistantList
      ensures !disabled ==> (AssistantListShown() <==> typed != "")
    {
      if disabled {
        return;
      }
      assistantQuery := typed;
      showAssistantList := true;
    }

    /** A click on a listed instructor: the query becomes the name, which
        still lists them, the id is the only one selected, and the list closes. */
    method SelectInstructor(person: Person)
      requires InstructorListShown() && person in InstructorOptions()
      modifies this`instructorQuery, this`showInstructorList, this`values
      ensures instructorQuery == person.name && !InstructorListShown()
      ensures values == ApplyStaffEdit(old(values), PickInstructor(person))
      ensures person in InstructorOptions()
    {
      instructorQuery := person.name;
      values := values["instructorIds" := Arr([Str(person.id)])];
      showInstructorList := false;
      NameMatchesItself(person);
    }

    method SelectAssistant(person: Person)
      requires AssistantListShown() && person in AssistantOptions()
      modifies this`assistantQuery, this`showAssistantList, this`values
      ensures assistantQuery == person.name && !AssistantListShown()
      ensures values == ApplyStaffEdit(old(values), PickAssistant(person))
      ensures person in AssistantOptions()
    {
      assistantQuery := person.name;
      values := values["assistantIds" := Arr([Str(person.id)])];
      showAssistantList := false;
      NameMatchesItself(person);
    }

    /** The rating switch; a disabled switch ignores presses. */
    method ToggleRatingSwitch()
      modifies this`values
      ensures disabled ==> values == old(values)
      ensures !disabled ==> values == ApplyStaffEdit(old(values), ToggleRating)
      ensures !disabled ==> RatingEnabled(values) == !RatingEnabled(old(values))
    {
      if disabled {
        return;
      }
      values := values[RatingField := Bool(!RatingEnabled(values))];
    }

    /** `handleClickOutside`: each list closes when the press is outside it. */
    method ClickOutside(insideInstructor: bool, insideAssistant: bool)
      modifies this`showInstructorList, this`showAssistantList
      ensures showInstructorList == (old(showInstructorList) && insideInstructor)
      ensures showAssistantList == (old(showAssistantList) && insideAssistant)
    {
      if !insideInstructor {
        showInstructorList := false;
      }
      if !insideAssistant {
        showAssistantList := false;
      }
    }
  }
}
