/**
 * The application store: the course slice under `courses` and the auth
 * slice under `auth`. An action belongs to exactly one slice, and the other
 * slice's reducer ignores it.
 */
module RootStore {
  import CourseSlice
  import AuthSlice

  datatype Action = CourseAction(course: CourseSlice.CourseAction) | AuthAction(auth: AuthSlice.AuthAction)

  datatype RootState = RootState(courses: CourseSlice.CourseState, auth: AuthSlice.AuthState)

  /** The combined reducer: each slice reduces the actions that are its own, and the other slice stays as it was. */
  function Reduce(s: RootState, a: Action): (r: RootState)
    ensures a.CourseAction? ==> r.auth == s.auth
    ensures a.AuthAction? ==> r.courses == s.courses
  {
    match a
    case CourseAction(ca) => s.(courses := CourseSlice.Reduce(s.courses, ca))
    case AuthAction(aa) => s.(auth := AuthSlice.Reduce(s.auth, aa))
  }

  /** Any sequence of actions, applied in order. */
  function ReduceAll(s: RootState, actions: seq<Action>): RootState
    decreases |actions|
  {
    if actions == [] then s else ReduceAll(Reduce(s, actions[0]), actions[1..])
  }

  /**
   * However course and auth actions interleave, the course slice ends as the
   * course actions alone leave it, and the auth slice as the auth actions
   * alone leave it: each slice's frame carries over to the whole store.
   */
  lemma {:induction false} SlicesEvolveIndependently(s: RootState, actions: seq<Action>)
    ensures ReduceAll(s, actions).courses
         == ReduceAll(s, CourseActionsOf(actions)).courses
    ensures ReduceAll(s, actions).auth
         == ReduceAll(s, AuthActionsOf(actions)).auth
    decreases |actions|
  {
    if actions != [] {
      var t := Reduce(s, actions[0]);
      SlicesEvolveIndependently(t, actions[1..]);
      var rest := actions[1..];
      if actions[0].CourseAction? {
        assert CourseActionsOf(actions) == [actions[0]] + CourseActionsOf(rest);
        assert ([actions[0]] + CourseActionsOf(rest))[1..] == CourseActionsOf(rest);
        AuthUnchangedByCourse(s, t, AuthActionsOf(rest));
      } else {
        assert AuthActionsOf(actions) == [actions[0]] + AuthActionsOf(rest);
        assert ([actions[0]] + AuthActionsOf(rest))[1..] == AuthActionsOf(rest);
        CourseUnchangedByAuth(s, t, CourseActionsOf(rest));
      }
    }
  }

  /** The course actions of a sequence, in order. */
  function CourseActionsOf(actions: seq<Action>): (r: seq<Action>)
    ensures forall i :: 0 <= i < |r| ==> r[i].CourseAction?
    decreases |actions|
  {
    if actions == [] then []
    else if actions[0].CourseAction? then [actions[0]] + CourseActionsOf(actions[1..])
    else CourseActionsOf(actions[1..])
  }

  /** The auth actions of a sequence, in order. */
  function AuthActionsOf(actions: seq<Action>): (r: seq<Action>)
    ensures forall i :: 0 <= i < |r| ==> r[i].AuthAction?
    decreases |actions|
  {
    if actions == [] then []
    else if actions[0].AuthAction? then [actions[0]] + AuthActionsOf(actions[1..])
    else AuthActionsOf(actions[1..])
  }

  /** Auth actions alone never change the course slice. */
  lemma {:induction false} AuthOnlyKeepsCourses(s: RootState, actions: seq<Action>)
    requires forall i :: 0 <= i < |actions| ==> actions[i].AuthAction?
    ensures ReduceAll(s, actions).courses == s.courses
    decreases |actions|
  {
    if actions != [] {
      AuthOnlyKeepsCourses(Reduce(s, actions[0]), actions[1..]);
    }
  }

  /** Course actions alone never change the auth slice. */
  lemma {:induction false} CourseOnlyKeepsAuth(s: RootState, actions: seq<Action>)
    requires forall i :: 0 <= i < |actions| ==> actions[i].CourseAction?
    ensures ReduceAll(s, actions).auth == s.auth
    decreases |actions|
  {
    if actions != [] {
      CourseOnlyKeepsAuth(Reduce(s, actions[0]), actions[1..]);
    }
  }

  /** The auth slice's evolution under auth actions depends only on the auth slice. */
  lemma {:induction false} AuthUnchangedByCourse(s: RootState, t: RootState, actions: seq<Action>)
    requires s.auth == t.auth
    requires forall i :: 0 <= i < |actions| ==> actions[i].AuthAction?
    ensures ReduceAll(s, actions).auth == ReduceAll(t, actions).auth
    decreases |actions|
  {
    if actions != [] {
      AuthUnchangedByCourse(Reduce(s, actions[0]), Reduce(t, actions[0]), actions[1..]);
    }
  }

  /** The course slice's evolution under course actions depends only on the course slice. */
  lemma {:induction false} CourseUnchangedByAuth(s: RootState, t: RootState, actions: seq<Action>)
    requires s.courses == t.courses
    requires forall i :: 0 <= i < |actions| ==> actions[i].CourseAction?
    ensures ReduceAll(s, actions).courses == ReduceAll(t, actions).courses
    decreases |actions|
  {
    if actions != [] {
      CourseUnchangedByAuth(Reduce(s, actions[0]), Reduce(t, actions[0]), actions[1..]);
    }
  }

  /** The store object: the two slices side by side. */
  class Store {
    const courses: CourseSlice.CourseStore
    const auth: AuthSlice.AuthStore

    function State(): RootState
      reads this, courses, auth
    {
      RootState(courses.State(), auth.State())
    }

    constructor (storage: AuthSlice.TokenStorage)
      ensures auth.storage == storage
      ensures State() == RootState(CourseSlice.InitialState, AuthSlice.InitialState(storage.token))
    {
      courses := new CourseSlice.CourseStore();
      auth := new AuthSlice.AuthStore(storage);
    }

    /** `dispatch`: the action goes to its own slice; the other slice is untouched. */
    method Dispatch(a: Action)
      modifies courses, auth, auth.storage
      ensures State() == Reduce(old(State()), a)
      ensures a.CourseAction? ==> unchanged(auth, auth.storage)
      ensures a.AuthAction? ==> unchanged(courses)
      ensures auth.storage.token == (if a.AuthAction? then AuthSlice.PersistedAfter(old(auth.storage.token), a.auth)
                                     else old(auth.storage.token))
    {
      match a
      case CourseAction(ca) => courses.Dispatch(ca);
      case AuthAction(aa) => auth.Dispatch(aa);
    }
  }
}
