/**
 * The lesson page: the effect that checks enrollment, fetches the course's
 * lessons and the current lesson, and locates the current lesson in the
 * list; and the previous/next buttons derived from that position.
 */
module LessonNavigation {
  import opened Wrappers
  import opened Http

  datatype Lesson = Lesson(id: int, title: string, content: string)

  /** What `/courses/:courseId/enrollment_status/` answers with. */
  datatype EnrollmentStatus = EnrollmentStatus(is_enrolled: bool)

  const NotEnrolledMessage := "You must be enrolled in this course to access its lessons"
  const AccessFallback := "Error accessing lesson"

  // ---------------------------------------------------------------------
  // Locating the current lesson and the neighbouring buttons
  // ---------------------------------------------------------------------

  /**
   * `lessons.findIndex(lesson => lesson.id === parseInt(lessonId))`, with the
   * parsed route parameter given as `lessonId` (None stands for NaN, which
   * equals no id): the first position holding that id, or -1.
   */
  function LessonIndex(lessons: seq<Lesson>, lessonId: Option<int>): (index: int)
    ensures -1 <= index < |lessons|
    ensures 0 <= index ==> Some(lessons[index].id) == lessonId
    ensures 0 <= index ==> forall j :: 0 <= j < index ==> Some(lessons[j].id) != lessonId
    ensures index == -1 <==> forall j :: 0 <= j < |lessons| ==> Some(lessons[j].id) != lessonId
  {
    if lessons == [] then -1
    else if Some(lessons[0].id) == lessonId then 0
    else
      var rest := LessonIndex(lessons[1..], lessonId);
      if rest == -1 then -1 else rest + 1
  }

  /** "Previous" is shown for `currentLessonIndex > 0` and leads to the lesson before. */
  function PreviousLesson(lessons: seq<Lesson>, index: int): (target: Option<int>)
    requires index <= |lessons|
    ensures target.Some? <==> index > 0
    ensures target.Some? ==> target.value == lessons[index - 1].id
  {
    if index > 0 then Some(lessons[index - 1].id) else None
  }

  /** "Next" is shown for `currentLessonIndex < lessons.length - 1` and leads to the lesson after. */
  function NextLesson(lessons: seq<Lesson>, index: int): (target: Option<int>)
    requires -1 <= index
    ensures target.Some? <==> index < |lessons| - 1
    ensures target.Some? ==> target.value == lessons[index + 1].id
  {
    if index < |lessons| - 1 then Some(lessons[index + 1].id) else None
  }

  /** Lesson ids are unique within the list. */
  predicate DistinctIds(lessons: seq<Lesson>) {
    forall i, j :: 0 <= i < j < |lessons| ==> lessons[i].id != lessons[j].id
  }

  /** With unique ids, looking up the id at a position finds that position. */
  lemma IndexOfOwnId(lessons: seq<Lesson>, i: nat)
    requires DistinctIds(lessons) && i < |lessons|
    ensures LessonIndex(lessons, Some(lessons[i].id)) == i
  {
    var k := LessonIndex(lessons, Some(lessons[i].id));
    assert k != -1;
  }

  /**
   * With unique ids, following "Next" and then "Previous" comes back to the
   * lesson one started from, and every button leads to a lesson of the list.
   */
  lemma NextThenPreviousReturns(lessons: seq<Lesson>, i: nat)
    requires DistinctIds(lessons) && i + 1 < |lessons|
    ensures NextLesson(lessons, LessonIndex(lessons, Some(lessons[i].id))) == Some(lessons[i + 1].id)
    ensures PreviousLesson(lessons, LessonIndex(lessons, Some(lessons[i + 1].id))) == Some(lessons[i].id)
  {
    IndexOfOwnId(lessons, i);
    IndexOfOwnId(lessons, i + 1);
  }

  /**
   * When the current lesson is not in the list, "Previous" is hidden and a
   * non-empty list offers "Next" to its first lesson.
   */
  lemma MissingLessonOffersFirst(lessons: seq<Lesson>, lessonId: Option<int>)
    requires LessonIndex(lessons, lessonId) == -1
    ensures PreviousLesson(lessons, LessonIndex(lessons, lessonId)).None?
    ensures |lessons| > 0 ==> NextLesson(lessons, LessonIndex(lessons, lessonId)) == Some(lessons[0].id)
  {
  }

  /** A lesson id that does not parse finds nothing. */
  lemma UnparsedIdFindsNothing(lessons: seq<Lesson>)
    ensures LessonIndex(lessons, None) == -1
  {
  }

  // ---------------------------------------------------------------------
  // The component's state and its effect
  // ---------------------------------------------------------------------

  /** What the page shows: the spinner, the error banner, or the lesson. */
  datatype Display = Spinner | ErrorBanner(message: string) | Content

  class LessonPage {
    var lesson: Option<Lesson>
    var error: Option<string>
    var isLoading: bool
    var isEnrolled: bool
    var lessons: seq<Lesson>
    var currentLessonIndex: int

    /** The index is -1 or a position of `lessons`: both buttons' targets are then in bounds. */
    ghost predicate Valid()
      reads this
    {
      -1 <= currentLessonIndex < |lessons|
    }

    /** The state `useState` starts the component with. */
    constructor ()
      ensures Valid()
      ensures lesson == None && error == None && isLoading && !isEnrolled
      ensures lessons == [] && currentLessonIndex == -1
    {
      lesson := None;
      error := None;
      isLoading := true;
      isEnrolled := false;
      lessons := [];
      currentLessonIndex := -1;
    }

    /** The first render condition that holds: loading, then an error, then the lesson. */
    function Shown(): Display
      reads this
    {
      if isLoading then Spinner
      else if TruthyText(error) then ErrorBanner(error.value)
      else Content
    }

    /** The "Previous" button: rendered only with the lesson content, and only after the first lesson. */
    function Previous(): (target: Option<int>)
      reads this
      requires Valid()
      ensures target.Some? <==> Shown() == Content && currentLessonIndex > 0
      ensures target.Some? ==> target.value == lessons[currentLessonIndex - 1].id
    {
      if Shown() == Content then PreviousLesson(lessons, currentLessonIndex) else None
    }

    /** The "Next" button: rendered only with the lesson content, and only before the last lesson. */
    function Next(): (target: Option<int>)
      reads this
      requires Valid()
      ensures target.Some? <==> Shown() == Content && currentLessonIndex < |lessons| - 1
      ensures target.Some? ==> target.value == lessons[currentLessonIndex + 1].id
    {
      if Shown() == Content then NextLesson(lessons, currentLessonIndex) else None
    }

    /**
     * `fetchLessonAndEnrollment`, with the three requests' outcomes as input
     * (a request the effect does not reach is ignored). Lessons are fetched
     * only for an enrolled user or an instructor; any failure is caught into
     * `error`; `isLoading` ends false on every path.
     */
    method FetchLessonAndEnrollment(
      isInstructor: bool,
      lessonId: Option<int>,
      enrollmentResponse: Response<EnrollmentStatus>,
      lessonsResponse: Response<seq<Lesson>>,
      lessonResponse: Response<Lesson>)
      requires Valid()
      modifies this
      ensures Valid()
      ensures !isLoading && Shown() != Spinner
      // the enrollment check fails: only the error is set
      ensures enrollmentResponse.Failed? ==>
        && error == Some(MessageOr(enrollmentResponse.error.body, AccessFallback))
        && isEnrolled == old(isEnrolled) && lessons == old(lessons)
        && currentLessonIndex == old(currentLessonIndex) && lesson == old(lesson)
      // access denied: the fixed message, nothing fetched
      ensures enrollmentResponse.Ok? && !enrollmentResponse.data.is_enrolled && !isInstructor ==>
        && !isEnrolled && error == Some(NotEnrolledMessage)
        && lessons == old(lessons) && currentLessonIndex == old(currentLessonIndex) && lesson == old(lesson)
      // access granted: the lesson list and the position in it
      ensures enrollmentResponse.Ok? ==> isEnrolled == enrollmentResponse.data.is_enrolled
      ensures enrollmentResponse.Ok? && (enrollmentResponse.data.is_enrolled || isInstructor) ==>
        if lessonsResponse.Failed? then
          && error == Some(MessageOr(lessonsResponse.error.body, AccessFallback))
          && lessons == old(lessons) && currentLessonIndex == old(currentLessonIndex) && lesson == old(lesson)
        else
          && lessons == lessonsResponse.data
          && currentLessonIndex == LessonIndex(lessonsResponse.data, lessonId)
          && (lessonResponse.Ok? ==> lesson == Some(lessonResponse.data) && error == old(error))
          && (lessonResponse.Failed? ==>
                lesson == old(lesson) && error == Some(MessageOr(lessonResponse.error.body, AccessFallback)))
    {
      var caught: Option<HttpError> := None;
      match enrollmentResponse {
        case Failed(e) =>
          caught := Some(e);
        case Ok(status) =>
          var isUserEnrolled := status.is_enrolled;
          isEnrolled := isUserEnrolled;
          if isUserEnrolled || isInstructor {
            match lessonsResponse {
              case Failed(e) =>
                caught := Some(e);
              case Ok(data) =>
                lessons := data;
                var index := LessonIndex(data, lessonId);
                currentLessonIndex := index;
                match lessonResponse {
                  case Failed(e) =>
                    caught := Some(e);
                  case Ok(detail) =>
                    lesson := Some(detail);
                }
            }
          } else {
            error := Some(NotEnrolledMessage);
          }
      }
      if caught.Some? {
        error := Some(MessageOr(caught.value.body, AccessFallback));
      }
      isLoading := false;
    }
  }

  /**
   * Opening the page: the initial state, then the effect. A user who is
   * neither enrolled nor an instructor sees the fixed message, an empty list
   * and no buttons at all.
   */
  method OpenLessonPage(
    isInstructor: bool,
    lessonId: Option<int>,
    enrollmentResponse: Response<EnrollmentStatus>,
    lessonsResponse: Response<seq<Lesson>>,
    lessonResponse: Response<Lesson>)
    returns (page: LessonPage)
    ensures fresh(page) && page.Valid() && !page.isLoading
    ensures enrollmentResponse.Ok? && !enrollmentResponse.data.is_enrolled && !isInstructor ==>
      && page.Shown() == ErrorBanner(NotEnrolledMessage)
      && page.lessons == [] && page.currentLessonIndex == -1
      && page.Previous().None? && page.Next().None?
  {
    page := new LessonPage();
    page.FetchLessonAndEnrollment(isInstructor, lessonId, enrollmentResponse, lessonsResponse, lessonResponse);
  }
}
