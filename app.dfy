/** app.py: the input check run before a training package is generated. */
module App {

  /** `_validate_inputs(course_title, files)`: the flag and the message to show. */
  function ValidateInputs<File>(courseTitle: string, files: seq<File>): (r: (bool, string))
    ensures courseTitle == [] ==> r == (false, "Please enter a course title.")
    ensures courseTitle != [] && files == [] ==> r == (false, "Please upload at least one file.")
    ensures courseTitle != [] && files != [] ==> r == (true, "")
  {
    if courseTitle == [] then (false, "Please enter a course title.")
    else if files == [] then (false, "Please upload at least one file.")
    else (true, "")
  }

  /** The inputs are accepted exactly when the message is empty, and exactly when both are given. */
  lemma FlagIffNoMessage<File>(courseTitle: string, files: seq<File>)
    ensures ValidateInputs(courseTitle, files).0 <==> ValidateInputs(courseTitle, files).1 == []
    ensures ValidateInputs(courseTitle, files).0 <==> courseTitle != [] && files != []
  {
  }
}
