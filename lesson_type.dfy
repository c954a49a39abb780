/** The two kinds of lesson the curriculum knows. */
module LessonKinds {
  datatype LessonType = Video | Attachment {
    /** The string the backend and the forms use for the kind. */
    function Name(): string {
      if Video? then "Video" else "Attachment"
    }
  }
}
