/**
 * The course slice of the store: the course list fetched from the server,
 * a loading flag, the fetch error and the enrollment error, and the reducer
 * cases for `clearErrors` and for the pending/fulfilled/rejected phases of
 * the `fetchCourses` and `enrollCourse` thunks.
 */
module CourseSlice {
  import opened Wrappers
  import opened Http

  /**
   * A course as held in `items`. `is_enrolled` is the flag the server sends;
   * `isEnrolled` is the distinct, camel-case field the reducer writes (None
   * while it has never been written). The remaining fields are carried along
   * untouched.
   */
  datatype Course = Course(
    id: int,
    is_enrolled: Option<bool>,
    isEnrolled: Option<bool>,
    other: map<string, string>)

  datatype CourseState = CourseState(
    items: seq<Course>,
    isLoading: bool,
    error: Option<string>,
    enrollmentError: Option<string>)

  /** The slice's initial state: no courses, not loading, no errors. */
  const InitialState := CourseState([], false, None, None)

  const EnrollFallback := "Failed to enroll in course"

  /** The actions this slice handles. */
  datatype CourseAction =
    | ClearErrors
    | FetchCoursesPending
    | FetchCoursesFulfilled(courses: seq<Course>)
    | FetchCoursesRejected(message: string)
    | EnrollCoursePending
    | EnrollCourseFulfilled(courseId: int)
    | EnrollCourseRejected(reason: string)

  predicate IsEnrollAction(a: CourseAction) {
    a.EnrollCoursePending? || a.EnrollCourseFulfilled? || a.EnrollCourseRejected?
  }

  // ---------------------------------------------------------------------
  // Thunks: how each request's outcome becomes the action that settles it
  // ---------------------------------------------------------------------

  /**
   * `fetchCourses` returns `response.data`; a failure is not caught, so the
   * rejected action carries only the thrown error's own message.
   */
  function FetchCoursesSettle(response: Response<seq<Course>>): (s: Settled<seq<Course>, string>)
    ensures response.Ok? <==> s.Fulfilled?
    ensures s.Fulfilled? ==> s.payload == response.data
    ensures s.Rejected? ==> s.reason == response.error.message
  {
    match response
    case Ok(data) => Fulfilled(data)
    case Failed(e) => Rejected(e.message)
  }

  /**
   * `enrollCourse(courseId)` fulfils with the `courseId` it was given; on
   * failure it rejects with the server's message or the fixed fallback.
   */
  function EnrollSettle(courseId: int, response: Response<()>): (s: Settled<int, string>)
    ensures response.Ok? <==> s.Fulfilled?
    ensures s.Fulfilled? ==> s.payload == courseId
    ensures s.Rejected? ==> s.reason != ""
    ensures s.Rejected? ==> s.reason == EnrollFallback || MessageField(response.error.body) == Some(s.reason)
    ensures s.Rejected? ==> s.reason == MessageOr(response.error.body, EnrollFallback)
  {
    match response
    case Ok(_) => Fulfilled(courseId)
    case Failed(e) => Rejected(MessageOr(e.body, EnrollFallback))
  }

  function FetchCoursesSettleAction(s: Settled<seq<Course>, string>): CourseAction {
    match s
    case Fulfilled(courses) => FetchCoursesFulfilled(courses)
    case Rejected(message) => FetchCoursesRejected(message)
  }

  function EnrollSettleAction(s: Settled<int, string>): CourseAction {
    match s
    case Fulfilled(id) => EnrollCourseFulfilled(id)
    case Rejected(reason) => EnrollCourseRejected(reason)
  }

  /** The rejection of `fetchCourses` never depends on what the server sent back. */
  lemma FetchCoursesRejectionIgnoresBody(e1: HttpError, e2: HttpError)
    requires e1.message == e2.message
    ensures FetchCoursesSettle(Failed(e1)) == FetchCoursesSettle(Failed(e2))
  {
  }

  // ---------------------------------------------------------------------
  // The enroll update: find the first course with the id, mark it
  // ---------------------------------------------------------------------

  /** `items.find(course => course.id === courseId)`, as the index it stops at. */
  function FindCourse(items: seq<Course>, courseId: int): (k: Option<nat>)
    ensures k.Some? ==> k.value < |items| && items[k.value].id == courseId
    ensures k.Some? ==> forall j :: 0 <= j < k.value ==> items[j].id != courseId
    ensures k.None? <==> forall j :: 0 <= j < |items| ==> items[j].id != courseId
  {
    if items == [] then None
    else if items[0].id == courseId then Some(0)
    else match FindCourse(items[1..], courseId)
      case None => None
      case Some(k) => Some(k + 1)
  }

  /** The items after `enrollCourse.fulfilled` for `courseId`. */
  function Enrolled(items: seq<Course>, courseId: int): seq<Course> {
    match FindCourse(items, courseId)
    case None => items
    case Some(k) => items[k := items[k].(isEnrolled := Some(true))]
  }

  /** The first course with the id is the one found. */
  lemma FirstMatchIsFound(items: seq<Course>, courseId: int, k: nat)
    requires k < |items| && items[k].id == courseId
    requires forall j :: 0 <= j < k ==> items[j].id != courseId
    ensures FindCourse(items, courseId) == Some(k)
  {
  }

  /**
   * Only the first course with the id gets `isEnrolled` set to true, with its
   * other fields kept; every other course, the length and the order of the
   * list are unchanged.
   */
  lemma EnrolledMarksFirstMatchOnly(items: seq<Course>, courseId: int, k: nat)
    requires k < |items| && items[k].id == courseId
    requires forall j :: 0 <= j < k ==> items[j].id != courseId
    ensures |Enrolled(items, courseId)| == |items|
    ensures Enrolled(items, courseId)[k] == items[k].(isEnrolled := Some(true))
    ensures forall j :: 0 <= j < |items| && j != k ==> Enrolled(items, courseId)[j] == items[j]
  {
    FirstMatchIsFound(items, courseId, k);
  }

  /** For an id no course has, the update is a no-op. */
  lemma EnrolledAbsentIsNoOp(items: seq<Course>, courseId: int)
    requires forall j :: 0 <= j < |items| ==> items[j].id != courseId
    ensures Enrolled(items, courseId) == items
  {
  }

  /** Marking keeps every course's id at its position. */
  lemma EnrolledKeepsIds(items: seq<Course>, courseId: int)
    ensures |Enrolled(items, courseId)| == |items|
    ensures forall j :: 0 <= j < |items| ==> Enrolled(items, courseId)[j].id == items[j].id
  {
  }

  /** `find` looks only at the ids, so two lists with the same ids find the same index. */
  lemma {:induction false} FindCourseDependsOnIds(a: seq<Course>, b: seq<Course>, courseId: int)
    requires |a| == |b|
    requires forall j :: 0 <= j < |a| ==> a[j].id == b[j].id
    ensures FindCourse(a, courseId) == FindCourse(b, courseId)
  {
    if a != [] && a[0].id != courseId {
      FindCourseDependsOnIds(a[1..], b[1..], courseId);
    }
  }

  /** Enrolling twice in the same course is the same as enrolling once. */
  lemma EnrolledIdempotent(items: seq<Course>, courseId: int)
    ensures Enrolled(Enrolled(items, courseId), courseId) == Enrolled(items, courseId)
  {
    var once := Enrolled(items, courseId);
    EnrolledKeepsIds(items, courseId);
    FindCourseDependsOnIds(once, items, courseId);
  }

  // ---------------------------------------------------------------------
  // The reducer, as a function on the slice's state
  // ---------------------------------------------------------------------

  /**
   * The slice's reducer. Each field is written only by the cases that own it:
   * the list by the two fulfilled cases, the loading flag by the three fetch
   * phases, the fetch error by the fetch phases and `clearErrors`, the
   * enrollment error by the enroll phases and `clearErrors`.
   */
  function Reduce(s: CourseState, a: CourseAction): (r: CourseState)
    ensures r.items != s.items ==> a.FetchCoursesFulfilled? || a.EnrollCourseFulfilled?
    ensures r.isLoading != s.isLoading ==>
              a.FetchCoursesPending? || a.FetchCoursesFulfilled? || a.FetchCoursesRejected?
    ensures r.error != s.error ==> a.ClearErrors? || a.FetchCoursesPending? || a.FetchCoursesRejected?
    ensures r.enrollmentError != s.enrollmentError ==>
              a.ClearErrors? || a.EnrollCoursePending? || a.EnrollCourseRejected?
  {
    match a
    case ClearErrors => s.(error := None, enrollmentError := None)
    case FetchCoursesPending => s.(isLoading := true, error := None)
    case FetchCoursesFulfilled(courses) => s.(isLoading := false, items := courses)
    case FetchCoursesRejected(message) => s.(isLoading := false, error := Some(message))
    case EnrollCoursePending => s.(enrollmentError := None)
    case EnrollCourseFulfilled(id) => s.(items := Enrolled(s.items, id))
    case EnrollCourseRejected(reason) => s.(enrollmentError := Some(reason))
  }

  /** No phase of `enrollCourse` touches the fetch error or the loading flag. */
  lemma EnrollPhasesKeepFetchFields(s: CourseState, a: CourseAction)
    requires IsEnrollAction(a)
    ensures Reduce(s, a).error == s.error && Reduce(s, a).isLoading == s.isLoading
  {
  }

  /** Enrolling in an absent course, or in one already handled, changes nothing further. */
  lemma EnrollFulfilledIdempotent(s: CourseState, courseId: int)
    ensures Reduce(Reduce(s, EnrollCourseFulfilled(courseId)), EnrollCourseFulfilled(courseId))
         == Reduce(s, EnrollCourseFulfilled(courseId))
  {
    EnrolledIdempotent(s.items, courseId);
  }

  /** A failed fetch, after its pending phase, keeps the course list and records the thrown message. */
  lemma FailedFetchKeepsItems(s: CourseState, e: HttpError)
    ensures Reduce(Reduce(s, FetchCoursesPending), FetchCoursesSettleAction(FetchCoursesSettle(Failed(e))))
         == s.(isLoading := false, error := Some(e.message))
  {
  }

  /** A successful fetch, after its pending phase, holds exactly the fetched courses. */
  lemma SuccessfulFetchReplacesItems(s: CourseState, courses: seq<Course>)
    ensures Reduce(Reduce(s, FetchCoursesPending), FetchCoursesSettleAction(FetchCoursesSettle(Ok(courses))))
         == s.(items := courses, isLoading := false, error := None)
  {
  }

  // ---------------------------------------------------------------------
  // The slice as the store holds it: state updated in place
  // ---------------------------------------------------------------------

  class CourseStore {
    var items: seq<Course>
    var isLoading: bool
    var error: Option<string>
    var enrollmentError: Option<string>

    function State(): CourseState
      reads this
    {
      CourseState(items, isLoading, error, enrollmentError)
    }

    constructor ()
      ensures State() == InitialState
      ensures items == [] && !isLoading && error == None && enrollmentError == None
    {
      items := [];
      isLoading := false;
      error := None;
      enrollmentError := None;
    }

    /** `clearErrors`: both errors become null; nothing else changes. */
    method ClearErrors()
      modifies this
      ensures error == None && enrollmentError == None
      ensures items == old(items) && isLoading == old(isLoading)
    {
      error := None;
      enrollmentError := None;
    }

    /** `fetchCourses.pending`: loading, fetch error cleared. */
    method FetchCoursesPending()
      modifies this
      ensures isLoading && error == None
      ensures items == old(items) && enrollmentError == old(enrollmentError)
    {
      isLoading := true;
      error := None;
    }

    /** `fetchCourses.fulfilled`: the payload replaces the list; the errors are left as they are. */
    method FetchCoursesFulfilled(payload: seq<Course>)
      modifies this
      ensures !isLoading && items == payload
      ensures error == old(error) && enrollmentError == old(enrollmentError)
    {
      isLoading := false;
      items := payload;
    }

    /** `fetchCourses.rejected`: the thrown message is recorded; the list is kept. */
    method FetchCoursesRejected(message: string)
      modifies this
      ensures !isLoading && error == Some(message)
      ensures items == old(items) && enrollmentError == old(enrollmentError)
    {
      isLoading := false;
      error := Some(message);
    }

    /** `enrollCourse.pending`: only the enrollment error is cleared. */
    method EnrollCoursePending()
      modifies this
      ensures enrollmentError == None
      ensures items == old(items) && isLoading == old(isLoading) && error == old(error)
    {
      enrollmentError := None;
    }

    /**
     * `enrollCourse.fulfilled`: the first course whose id is the payload is
     * found and its `isEnrolled` set to true in place. Nothing else changes.
     */
    method EnrollCourseFulfilled(courseId: int)
      modifies this
      ensures items == Enrolled(old(items), courseId)
      ensures isLoading == old(isLoading) && error == old(error) && enrollmentError == old(enrollmentError)
    {
      var i := 0;
      while i < |items| && items[i].id != courseId
        invariant 0 <= i <= |items|
        invariant forall j :: 0 <= j < i ==> items[j].id != courseId
      {
        i := i + 1;
      }
      if i < |items| {
        FirstMatchIsFound(items, courseId, i);
        items := items[i := items[i].(isEnrolled := Some(true))];
      }
    }

    /** `enrollCourse.rejected`: only the enrollment error is set. */
    method EnrollCourseRejected(reason: string)
      modifies this
      ensures enrollmentError == Some(reason)
      ensures items == old(items) && isLoading == old(isLoading) && error == old(error)
    {
      enrollmentError := Some(reason);
    }

    /** The slice reducer: routes an action to its case; agrees with `Reduce`. */
    method Dispatch(a: CourseAction)
      modifies this
      ensures State() == Reduce(old(State()), a)
    {
      match a
      case ClearErrors => ClearErrors();
      case FetchCoursesPending => FetchCoursesPending();
      case FetchCoursesFulfilled(courses) => FetchCoursesFulfilled(courses);
      case FetchCoursesRejected(message) => FetchCoursesRejected(message);
      case EnrollCoursePending => EnrollCoursePending();
      case EnrollCourseFulfilled(id) => EnrollCourseFulfilled(id);
      case EnrollCourseRejected(reason) => EnrollCourseRejected(reason);
    }

    /** One `fetchCourses` dispatch: pending, then the action its response settles to. */
    method FetchCourses(response: Response<seq<Course>>)
      modifies this
      ensures !isLoading
      ensures response.Ok? ==> items == response.data && error == None
      ensures response.Failed? ==> items == old(items) && error == Some(response.error.message)
      ensures enrollmentError == old(enrollmentError)
    {
      FetchCoursesPending();
      Dispatch(FetchCoursesSettleAction(FetchCoursesSettle(response)));
    }

    /** One `enrollCourse(courseId)` dispatch: pending, then fulfilled or rejected. */
    method EnrollCourse(courseId: int, response: Response<()>)
      modifies this
      ensures response.Ok? ==> items == Enrolled(old(items), courseId) && enrollmentError == None
      ensures response.Failed? ==> items == old(items)
      ensures response.Failed? ==> enrollmentError == Some(MessageOr(response.error.body, EnrollFallback))
      ensures isLoading == old(isLoading) && error == old(error)
    {
      EnrollCoursePending();
      Dispatch(EnrollSettleAction(EnrollSettle(courseId, response)));
    }
  }
}
