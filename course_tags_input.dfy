/** The tag picker of the course form (CourseTagsInput.tsx): it keeps the
    selected tag ids in the `coursesTags` form field, at most ten and each
    once, adds a tag when the typed text names one, and removes tags. */
module CourseTags {
  import opened JsValues
  import opened Text

  datatype Tag = Tag(id: string, name: string)

  /** The cap `addTag` enforces. */
  const MaxTags := 10

  const CapMessage := "You can select up to 10 tags only"

  predicate NoDuplicates(ids: seq<string>) {
    forall i, j :: 0 <= i < j < |ids| ==> ids[i] != ids[j]
  }

  /** What the picker maintains about the selection. */
  predicate SelectionValid(ids: seq<string>) {
    |ids| <= MaxTags && NoDuplicates(ids)
  }

  /** The selection after `addTag`: full or already holding the id, it is
      kept; otherwise the id is appended. */
  function Added(selected: seq<string>, id: string): (r: seq<string>)
    ensures |selected| >= MaxTags || id in selected ==> r == selected
    ensures |selected| < MaxTags && id !in selected ==> r == selected + [id]
    ensures id in r || |selected| >= MaxTags
  {
    if |selected| >= MaxTags then selected
    else if id !in selected then selected + [id]
    else selected
  }

  /** The error message after `addTag`. */
  function AddError(selected: seq<string>, id: string, error: string): (r: string)
    ensures |selected| >= MaxTags ==> r == CapMessage
    ensures |selected| < MaxTags && id !in selected ==> r == ""
    ensures |selected| < MaxTags && id in selected ==> r == error
  {
    if |selected| >= MaxTags then CapMessage
    else if id !in selected then ""
    else error
  }

  /** `selectedTagIds.filter((tagId) => tagId !== id)` */
  function Removed(selected: seq<string>, id: string): (r: seq<string>)
    ensures |r| <= |selected|
    ensures forall x :: x in r <==> x in selected && x != id
  {
    if selected == [] then []
    else
      var last := selected[|selected| - 1];
      Removed(selected[..|selected| - 1], id) + (if last != id then [last] else [])
  }

  /** Removing from two runs of ids one after the other removes from each
      in place, so the remaining ids keep their order. */
  lemma {:induction false} RemovedAppend(a: seq<string>, b: seq<string>, id: string)
    ensures Removed(a + b, id) == Removed(a, id) + Removed(b, id)
    decreases |b|
  {
    if b != [] {
      var init := b[..|b| - 1];
      assert (a + b)[..|a + b| - 1] == a + init;
      RemovedAppend(a, init, id);
    } else {
      assert a + b == a;
    }
  }

  /** Removing keeps the selection free of duplicates. */
  lemma {:induction false} RemovedKeepsDistinct(selected: seq<string>, id: string)
    requires NoDuplicates(selected)
    ensures NoDuplicates(Removed(selected, id))
  {
    if selected != [] {
      var init := selected[..|selected| - 1];
      var last := selected[|selected| - 1];
      assert NoDuplicates(init);
      RemovedKeepsDistinct(init, id);
      assert last !in init;
      assert last !in Removed(init, id);
    }
  }

  /** Removing an id the selection does not hold leaves it as it is. */
  lemma {:induction false} RemovedAbsent(selected: seq<string>, id: string)
    requires id !in selected
    ensures Removed(selected, id) == selected
  {
    if selected != [] {
      var n := |selected| - 1;
      var init := selected[..n];
      assert selected[n] != id;
      assert id !in init by {
        forall j | 0 <= j < n
          ensures init[j] != id
        {
          assert init[j] == selected[j];
        }
      }
      RemovedAbsent(init, id);
      assert selected == init + [selected[n]];
    }
  }

  /** In a selection without duplicates, removing the id at position k
      leaves the ids before and after it, in their order. */
  lemma RemovedAtPosition(selected: seq<string>, id: string, k: nat)
    requires NoDuplicates(selected) && k < |selected| && selected[k] == id
    ensures Removed(selected, id) == selected[..k] + selected[k + 1..]
  {
    var before := selected[..k];
    var after := selected[k + 1..];
    assert id !in before by {
      forall j | 0 <= j < |before|
        ensures before[j] != id
      {
        assert before[j] == selected[j];
      }
    }
    assert id !in after by {
      forall j | 0 <= j < |after|
        ensures after[j] != id
      {
        assert after[j] == selected[k + 1 + j];
      }
    }
    assert selected == before + [id] + after;
    RemovedSplice(before, id, after);
  }

  /** Removing an id that occurs once, between two runs without it, joins the runs. */
  lemma RemovedSplice(before: seq<string>, id: string, after: seq<string>)
    requires id !in before && id !in after
    ensures Removed(before + [id] + after, id) == before + after
  {
    var left := before + [id];
    RemovedAppend(before, [id], id);
    RemovedAppend(left, after, id);
    assert Removed([id], id) == [] by {
      assert [id][..0] == [];
    }
    RemovedAbsent(before, id);
    RemovedAbsent(after, id);
    assert Removed(left, id) == before;
  }

  /** Adding keeps the selection within the cap and free of duplicates. */
  lemma AddKeepsValid(selected: seq<string>, id: string)
    requires SelectionValid(selected)
    ensures SelectionValid(Added(selected, id))
  {
  }

  /** Removing keeps the selection within the cap and free of duplicates. */
  lemma RemoveKeepsValid(selected: seq<string>, id: string)
    requires SelectionValid(selected)
    ensures SelectionValid(Removed(selected, id))
  {
    RemovedKeepsDistinct(selected, id);
  }

  /** Removing a tag that was just added restores the earlier selection. */
  lemma RemoveUndoesAdd(selected: seq<string>, id: string)
    requires |selected| < MaxTags && id !in selected
    ensures Removed(Added(selected, id), id) == selected
  {
    RemovedAbsent(selected, id);
    var s := selected + [id];
    assert s[..|s| - 1] == selected;
  }

  /** The picker's edits to the selection. */
  datatype TagEdit = AddTagEdit(id: string) | RemoveTagEdit(id: string)

  /** The selection after a series of edits. */
  function Replay(selected: seq<string>, edits: seq<TagEdit>): seq<string> {
    if edits == [] then selected
    else
      var before := Replay(selected, edits[..|edits| - 1]);
      match edits[|edits| - 1]
      case AddTagEdit(id) => Added(before, id)
      case RemoveTagEdit(id) => Removed(before, id)
  }

  /** Starting from no tags, no series of edits exceeds ten tags or
      selects a tag twice. */
  lemma {:induction false} ReplayKeepsValid(edits: seq<TagEdit>)
    ensures SelectionValid(Replay([], edits))
  {
    if edits != [] {
      ReplayKeepsValid(edits[..|edits| - 1]);
      var before := Replay([], edits[..|edits| - 1]);
      match edits[|edits| - 1]
      case AddTagEdit(id) => AddKeepsValid(before, id);
      case RemoveTagEdit(id) => RemoveKeepsValid(before, id);
    }
  }

  /** The search key of the typed text: trimmed and lower-cased. */
  function SearchKey(typed: string): string {
    Lower(Trim(typed))
  }

  /** Whether a tag's name, lower-cased, is the search key. */
  predicate NamedBy(tag: Tag, key: string) {
    Lower(tag.name) == key
  }

  /** The position of the first tag named by the key, or the length of the
      list when there is none. */
  function MatchIndex(available: seq<Tag>, key: string): (k: nat)
    ensures k <= |available|
    ensures forall j :: 0 <= j < k ==> !NamedBy(available[j], key)
    ensures k < |available| ==> NamedBy(available[k], key)
  {
    if available == [] then 0
    else if NamedBy(available[0], key) then 0
    else
      var k := MatchIndex(available[1..], key);
      assert forall j :: 1 <= j < k + 1 ==> available[j] == available[1..][j - 1];
      k + 1
  }

  /** `availableTags.find(...)` for the typed text: the first tag whose
      name equals the trimmed text, ignoring case. */
  function MatchTag(available: seq<Tag>, typed: string): (r: Option<Tag>)
    ensures r.None? <==> forall k :: 0 <= k < |available| ==> !NamedBy(available[k], SearchKey(typed))
    ensures r.Some? ==> r.value in available && NamedBy(r.value, SearchKey(typed))
    ensures r.Some? ==> exists k :: 0 <= k < |available| && available[k] == r.value &&
                                    forall j :: 0 <= j < k ==> !NamedBy(available[j], SearchKey(typed))
  {
    var key := SearchKey(typed);
    var k := MatchIndex(available, key);
    if k < |available| then
      assert available[k] == available[k] && forall j :: 0 <= j < k ==> !NamedBy(available[j], key);
      Some(available[k])
    else None
  }

  /** The reply to `GetTags`: `items` is None when `tags?.items` is missing;
      a rejected fetch or an unreadable body is `TagsNetworkError`. */
  datatype TagsReply = TagsReplied(isSuccess: bool, items: Option<seq<Tag>>) | TagsNetworkError

  /** The picker's state: the watched form field and its own state. */
  class CourseTagsInput {
    var coursesTags: seq<string>
    var availableTags: seq<Tag>
    var loading: bool
    var error: string
    /** The `disabled` prop: the input and the remove buttons ignore the user. */
    const disabled: bool

    /** `watch("coursesTags") || []` on a fresh form, and the initial state. */
    constructor (disabled: bool)
      ensures coursesTags == [] && availableTags == [] && loading && error == "" && this.disabled == disabled
    {
      coursesTags := [];
      availableTags := [];
      loading := true;
      error := "";
      this.disabled := disabled;
    }

    /** Whether the text input is on screen: neither loading nor an error. */
    function InputShown(): bool
      reads this
    {
      !loading && error == ""
    }

    /** The `fetchTags` effect: it always ends loading. */
    method LoadTags(reply: TagsReply)
      modifies this`availableTags, this`error, this`loading
      ensures !loading
      ensures reply.TagsReplied? && reply.isSuccess && reply.items.Some? ==>
                availableTags == reply.items.value && error == old(error)
      ensures reply.TagsReplied? && !(reply.isSuccess && reply.items.Some?) ==>
                availableTags == old(availableTags) && error == "Failed to load tags"
      ensures reply.TagsNetworkError? ==> availableTags == old(availableTags) && error == "Network error"
    {
      match reply {
        case TagsNetworkError =>
          error := "Network error";
        case TagsReplied(isSuccess, items) =>
          if isSuccess && items.Some? {
            availableTags := items.value;
          } else {
            error := "Failed to load tags";
          }
      }
      loading := false;
    }

    /** `addTag` */
    method AddTag(tag: Tag)
      modifies this`coursesTags, this`error
      ensures coursesTags == Added(old(coursesTags), tag.id)
      ensures error == AddError(old(coursesTags), tag.id, old(error))
    {
      if |coursesTags| >= MaxTags {
        error := CapMessage;
        return;
      }
      if tag.id !in coursesTags {
        coursesTags := coursesTags + [tag.id];
        error := "";
      }
    }

    /** A tag's remove button, which calls `removeTag` unless disabled; the
        error is left as it is, so after the cap message the input stays
        hidden however many tags are removed. */
    method RemoveTag(id: string)
      modifies this`coursesTags
      ensures disabled ==> coursesTags == old(coursesTags)
      ensures !disabled ==> coursesTags == Removed(old(coursesTags), id)
      ensures InputShown() == old(InputShown())
    {
      if disabled {
        return;
      }
      coursesTags := Removed(coursesTags, id);
    }

    /** The input's `onChange`: a named tag is added and the input cleared.
        Returns the tag matched, if any; the input is cleared exactly then.
        A disabled input takes no typing, and neither does one that is not
        rendered (while loading or while an error shows), so nothing matches. */
    method OnInputChange(typed: string) returns (matched: Option<Tag>)
      modifies this`coursesTags, this`error
      ensures disabled ==> matched.None?
      ensures !old(InputShown()) ==> matched.None? && coursesTags == old(coursesTags) && error == old(error)
      ensures !disabled && old(InputShown()) ==> matched == MatchTag(old(availableTags), typed)
      ensures matched.Some? ==> coursesTags == Added(old(coursesTags), matched.value.id)
      ensures matched.None? ==> coursesTags == old(coursesTags) && error == old(error)
      ensures matched.Some? ==> error == AddError(old(coursesTags), matched.value.id, old(error))
      ensures matched.Some? && |old(coursesTags)| >= MaxTags ==> !InputShown()
    {
      if disabled || !InputShown() {
        return None;
      }
      matched := MatchTag(availableTags, typed);
      if matched.Some? {
        AddTag(matched.value);
      }
    }
  }
}
