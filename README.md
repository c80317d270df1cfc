# Course-management front end: store, route gate and lesson navigation

This project models the client-side core of a single-page course-management front end for students and instructors. The model has four parts:

- **Course slice** (`CourseSlice`). It holds the fetched course list, a loading flag, the fetch error and a separate enrollment error. The reducer handles `clearErrors` and the pending/fulfilled/rejected phases of `fetchCourses` and `enrollCourse`. A successful enrollment finds the first course with the given id and sets its `isEnrolled` flag in place.
- **Auth slice** (`AuthSlice`). It holds the user, the bearer token, the user type, a loading flag and the last error. The reducer handles `logout` and the phases of `login` and `register`. The browser's local storage is reduced to its one `"token"` entry (`TokenStorage`). The thunks write that entry, `logout` removes it, and the store's initial token is read from it.
- **Root store** (`RootStore`). It puts the two slices side by side. Each action belongs to one slice, so each slice's frame conditions carry over to the whole store, for any interleaving of actions.
- **Route gate** (`Router`). The route table is data: literal and `:param` segments. `Resolve` maps a path and the token to a view to render or a path to redirect to. Private routes render only with a truthy token. Unmatched paths redirect to `/courses`. Following redirects settles within two steps.
- **Lesson page** (`LessonNavigation`). The page's effect checks enrollment, fetches the lessons and the current lesson, and locates the lesson with `findIndex`. The Previous/Next buttons are derived from that position.

Every HTTP request is an input (`Http.Response`): either the response data or an axios error, with its message and the response body if one came back. The slices are modelled twice. A pure `Reduce` function over a state datatype is the reference. A class holds the same fields as mutable state, with one method per reducer case, and its `Dispatch` is proved to agree with `Reduce`.

Four behaviours of the code worth knowing:
- A rejected `fetchCourses` stores the thrown error's own `message`. The thunk does not catch, so neither a server-supplied message nor a fallback string reaches the reducer (`CourseSlice.FetchCoursesSettle`, `CourseSlice.FetchCoursesRejectionIgnoresBody`).
- A successful `register` does not behave like a successful `login`. It stores `payload.user` as the user, and the server's answer carries none. So a newly registered instructor is not seen as an instructor (`AuthSlice.RegisterSucceeds`).
- A rejected `login`/`register` stores the whole response body as the error, not a message taken from it (`AuthSlice.AuthSettle`).
- Neither slice has a `finally` step. The loading flag is cleared by the fulfilled and rejected cases.

## Model

| member | source | states |
|---|---|---|
| Http.MessageField | src/store/courseSlice.js:34 | `error.response?.data?.message` is present exactly when the body is an object with a `message` field, and it is that field |
| Http.MessageOr | src/store/courseSlice.js:33-35 | `message \|\| fallback`: the server message when it is a non-empty string, otherwise the fallback; never empty when the fallback is not |
| Http.TruthyText | src/App.js:18 | definition of JavaScript truthiness for a string that may be null (present and non-empty), used for the token test `token ?` of the route gate and the `if (error)` test of the lesson page; no contract of its own, `Router.PrivateRouteGate` and `LessonPage.Shown` are stated in terms of it |
| Http.BodyOr | src/store/authSlice.js:16-18 | `data \|\| fallback`: the whole body when it is truthy, otherwise the fallback text; truthy whenever the fallback is non-empty |
| CourseSlice.FetchCoursesSettle | src/store/courseSlice.js:4-15 | `fetchCourses` fulfils exactly when the request succeeds, with its data as payload; a failure rejects with the thrown error's message |
| CourseSlice.EnrollSettle | src/store/courseSlice.js:17-38 | `enrollCourse` fulfils exactly on success, with the `courseId` argument as payload; a failure rejects with the server's message when it is a non-empty string and with "Failed to enroll in course" otherwise (`MessageOr`), so the reason is never empty |
| CourseSlice.FetchCoursesRejectionIgnoresBody | src/store/courseSlice.js:64-67 | two failures with the same error message reject identically, whatever the server sent back |
| CourseSlice.Enrolled | src/store/courseSlice.js:71-78 | reference definition of the list after `enrollCourse.fulfilled`, no contract of its own; `EnrolledMarksFirstMatchOnly`, `EnrolledAbsentIsNoOp`, `EnrolledKeepsIds` and `EnrolledIdempotent` state what it does |
| CourseSlice.FindCourse | src/store/courseSlice.js:72-74 | `items.find` by id: the first index whose course has the id, or None exactly when no course has it |
| CourseSlice.FirstMatchIsFound | src/store/courseSlice.js:72-74 | the first position holding the id is the one `find` stops at |
| CourseSlice.EnrolledMarksFirstMatchOnly | src/store/courseSlice.js:71-78 | after enrollment the first course with the id has `isEnrolled` true and its other fields kept; every other course is unchanged, and so are the length and the order |
| CourseSlice.EnrolledAbsentIsNoOp | src/store/courseSlice.js:72-77 | enrolling in an id no course has leaves the list unchanged |
| CourseSlice.EnrolledKeepsIds | src/store/courseSlice.js:71-78 | enrollment keeps the length and every position's id |
| CourseSlice.FindCourseDependsOnIds | src/store/courseSlice.js:72-74 | two lists with the same ids at the same positions find the same index |
| CourseSlice.EnrolledIdempotent | src/store/courseSlice.js:71-78 | enrolling twice in the same course gives the same list as enrolling once |
| CourseSlice.Reduce | src/store/courseSlice.js:54-82 | the reducer as a function on the slice state; each field is changed only by the cases that own it: `items` by the two fulfilled cases, `isLoading` by the fetch phases, `error` by the fetch pending/rejected cases and `clearErrors`, `enrollmentError` by the enroll pending/rejected cases and `clearErrors`; `CourseStore.Dispatch` is proved equal to it |
| CourseSlice.EnrollPhasesKeepFetchFields | src/store/courseSlice.js:68-81 | no phase of `enrollCourse` changes `error` or `isLoading` |
| CourseSlice.EnrollFulfilledIdempotent | src/store/courseSlice.js:71-78 | applying `enrollCourse.fulfilled` twice to the slice state equals applying it once |
| CourseSlice.FailedFetchKeepsItems | src/store/courseSlice.js:56-67 | a failed fetch, after its pending phase, keeps `items` and `enrollmentError`, clears loading and stores the thrown message |
| CourseSlice.SuccessfulFetchReplacesItems | src/store/courseSlice.js:56-63 | a successful fetch, after its pending phase, holds exactly the payload's courses, not loading, no fetch error, enrollment error kept |
| CourseSlice.InitialState | src/store/courseSlice.js:42-47 | the slice's `initialState` as a constant: no items, not loading, both errors null; `CourseStore.constructor` and `RootStore.Store.constructor` start from it |
| CourseSlice.CourseStore.constructor | src/store/courseSlice.js:42-47 | the initial slice: no items, not loading, both errors null |
| CourseSlice.CourseStore.ClearErrors | src/store/courseSlice.js:49-52 | both errors become null; items and loading flag unchanged |
| CourseSlice.CourseStore.FetchCoursesPending | src/store/courseSlice.js:56-59 | loading set, fetch error cleared; items and enrollment error unchanged |
| CourseSlice.CourseStore.FetchCoursesFulfilled | src/store/courseSlice.js:60-63 | items replaced by the payload exactly, loading cleared; both errors untouched |
| CourseSlice.CourseStore.FetchCoursesRejected | src/store/courseSlice.js:64-67 | loading cleared, fetch error set to the message; items and enrollment error unchanged |
| CourseSlice.CourseStore.EnrollCoursePending | src/store/courseSlice.js:68-70 | only the enrollment error is cleared |
| CourseSlice.CourseStore.EnrollCourseFulfilled | src/store/courseSlice.js:71-78 | the in-place find-and-mark leaves `items` equal to `Enrolled` of the old items; the other fields are unchanged |
| CourseSlice.CourseStore.EnrollCourseRejected | src/store/courseSlice.js:79-81 | only the enrollment error is set, to the rejection reason |
| CourseSlice.CourseStore.Dispatch | src/store/courseSlice.js:54-82 | routing an action to its case gives the state `Reduce` gives |
| CourseSlice.CourseStore.FetchCourses | src/store/courseSlice.js:56-67 | pending then settle: loading ends false; success stores the data and no error; failure keeps items and stores the thrown message |
| CourseSlice.CourseStore.EnrollCourse | src/store/courseSlice.js:68-81 | pending then settle: success marks the course and leaves no enrollment error; failure keeps items and stores the server message or fallback; fetch error and loading untouched |
| AuthSlice.InitialState | src/store/authSlice.js:42-48 | user and user type null, not loading, no error, token equal to the persisted one |
| AuthSlice.AuthSettle | src/store/authSlice.js:6-38 | a thunk fulfils exactly on success with the response data; a failure rejects with the response body when truthy, else with the fixed "Login failed"/"Registration failed" text |
| AuthSlice.StoredAfter | src/store/authSlice.js:12-18 | storage after a thunk holds the new access token on success and is untouched on failure |
| AuthSlice.IsInstructor | src/components/LessonPage.js:13-15 | definition of `user?.user_type === "instructor"`, no contract of its own; `LoginSucceeds` and `RegisterSucceeds` state when it holds |
| AuthSlice.Reduce | src/store/authSlice.js:57-88 | the reducer as a function on the slice state; the session (user, token, user type) changes only on `logout` and a fulfilled login or registration, the error only on a pending or rejected phase; `AuthStore.Dispatch` is proved equal to it |
| AuthSlice.LoginLifecycle | src/store/authSlice.js:6-20 | reference definition of a whole `login` dispatch (pending, then the settled action), no contract of its own; `LoginSucceeds` and `FailedAuthKeepsSession` give its result, and `AuthStore.Login` is proved equal to it |
| AuthSlice.RegisterLifecycle | src/store/authSlice.js:22-38 | reference definition of a whole `register` dispatch, no contract of its own; `RegisterSucceeds` and `FailedAuthKeepsSession` give its result, and `AuthStore.Register` is proved equal to it |
| AuthSlice.PersistedAfter | src/store/authSlice.js:50-55 | of the reducer cases only `logout` touches storage, and it empties it |
| AuthSlice.LogoutIdempotent | src/store/authSlice.js:50-55 | logout clears token and user whatever the state was; logging out twice equals once |
| AuthSlice.LoginSucceeds | src/store/authSlice.js:63-67 | a successful login yields token = access, userType = user_type, user = {user_type}, not loading, no error; the user is an instructor exactly when the server said so |
| AuthSlice.RegisterSucceeds | src/store/authSlice.js:78-83 | a successful registration yields token = access and userType = user_type but user = `payload.user`; without one, the user is not an instructor |
| AuthSlice.FailedAuthKeepsSession | src/store/authSlice.js:70-87 | a failed login or registration keeps user, token and user type, clears loading and stores the rejection payload |
| AuthSlice.OperationsKeepTokenInSync | src/store/authSlice.js:14-55 | if the in-memory token agrees with storage before a login, a registration or a logout, it still agrees afterwards |
| AuthSlice.InitialStateInSync | src/store/authSlice.js:44 | the initial token agrees with storage |
| AuthSlice.TokenStorage.SetItem | src/store/authSlice.js:14 | the storage entry holds the written value |
| AuthSlice.TokenStorage.RemoveItem | src/store/authSlice.js:51 | the storage entry is gone |
| AuthSlice.AuthThunk | src/store/authSlice.js:8-20 | the thunk's result is `AuthSettle` of the response; storage is written with the access token before returning on success and untouched on failure |
| AuthSlice.AuthStore.constructor | src/store/authSlice.js:42-48 | the store starts in `InitialState` of the persisted token |
| AuthSlice.AuthStore.Logout | src/store/authSlice.js:50-55 | storage emptied; user, token and user type null; loading and error unchanged |
| AuthSlice.AuthStore.AuthPending | src/store/authSlice.js:59-62 | loading set and error cleared; user, token and user type unchanged |
| AuthSlice.AuthStore.LoginFulfilled | src/store/authSlice.js:63-67 | loading cleared, token and user type from the payload, user built from the user type |
| AuthSlice.AuthStore.RegisterFulfilled | src/store/authSlice.js:78-83 | loading cleared, token and user type from the payload, user taken from the payload |
| AuthSlice.AuthStore.AuthRejected | src/store/authSlice.js:70-73 | loading cleared, error set to the payload; user, token and user type unchanged |
| AuthSlice.AuthStore.Dispatch | src/store/authSlice.js:57-88 | routing an action to its case gives `Reduce`'s state and `PersistedAfter`'s storage |
| AuthSlice.AuthStore.Login | src/store/authSlice.js:6-20 | pending, thunk, settle: the state is `LoginLifecycle`, storage is `StoredAfter`, and a token in sync with storage stays in sync |
| AuthSlice.AuthStore.Register | src/store/authSlice.js:22-38 | the same lifecycle for registration |
| RootStore.Reduce | src/store/index.js:5-9 | the combined reducer: a course action leaves the auth slice as it was and an auth action leaves the course slice as it was |
| RootStore.ReduceAll | src/store/index.js:5-9 | reference definition of a sequence of dispatches applied in order, no contract of its own; `SlicesEvolveIndependently` and the lemmas below it state its properties |
| RootStore.SlicesEvolveIndependently | src/store/index.js:5-9 | under any interleaving, the course slice ends as the course actions alone leave it and the auth slice as the auth actions alone leave it |
| RootStore.AuthOnlyKeepsCourses | src/store/index.js:5-9 | auth actions never change the course slice |
| RootStore.CourseOnlyKeepsAuth | src/store/index.js:5-9 | course actions never change the auth slice |
| RootStore.AuthUnchangedByCourse | src/store/index.js:5-9 | the auth slice's evolution under auth actions depends only on the auth slice |
| RootStore.CourseUnchangedByAuth | src/store/index.js:5-9 | the course slice's evolution under course actions depends only on the course slice |
| RootStore.Store.constructor | src/store/index.js:5-9 | the store starts with both slices' initial states |
| RootStore.Store.Dispatch | src/store/index.js:5-9 | an action reaches its own slice only; the other slice (and storage, for course actions) is unchanged |
| Router.Routes | src/App.js:27-41 | the route table as a constant, in declaration order: /login and /register open, /courses, /courses/:courseId and /courses/:courseId/lessons/:lessonId private; the catch-all `*` is `Resolve`'s unmatched case. `MatchIsCandidate` and `AtMostOneRouteMatches` state that no path matches two of its routes |
| Router.Match | src/App.js:26-40 | a pattern matches exactly when it has the path's number of segments and each segment matches; every parameter is bound, to the path segment at its own position (the first parameter of a name, if two share it) |
| Router.FirstMatch | src/App.js:26-41 | the first route of the table that matches: it matches and no earlier route does; None exactly when none does |
| Router.Resolve | src/App.js:16-42 | a rendered page belongs to a route that matches the path, and a private one only with a truthy token; a redirect goes to /login or /courses; a rendered view carries exactly the parameters its route's pattern binds from the path (each one its own segment, by `Match`) |
| Router.MatchIsCandidate | src/App.js:27-40 | a route that matches a path is determined by the path's number of segments and, for one segment, by its length |
| Router.AtMostOneRouteMatches | src/App.js:27-40 | no path matches two routes of the table |
| Router.MatchingRouteIsFirst | src/App.js:26-41 | a route that matches is the one resolution picks |
| Router.PrivateRouteGate | src/App.js:16-19 | a private route renders its page if and only if the token is truthy, and otherwise redirects to /login |
| Router.OpenRoutesAlwaysRender | src/App.js:27-28 | /login and /register render whatever the token |
| Router.LessonRouteBindsParams | src/App.js:37-40 | with a token, /courses/:courseId/lessons/:lessonId renders the lesson page with both parameters bound |
| Router.UnmatchedRedirectsToCourses | src/App.js:41 | a path no route matches redirects to /courses |
| Router.DashboardIsNotRouted | src/App.js:41 | /instructor/dashboard, linked from the navigation bar, matches no route and redirects to /courses |
| Router.Navigate | src/App.js:16-41 | reference definition of following up to `fuel` redirects, no contract of its own; `RedirectsSettleWithinTwoSteps` states where it lands |
| Router.RedirectsSettleWithinTwoSteps | src/App.js:16-41 | following at most two redirects always lands on a rendered page: the page itself, the course list with a token, the login page without one |
| Router.CourseListGate | src/App.js:29-32 | /courses shows the course list with a truthy token and redirects to /login otherwise |
| LessonNavigation.LessonIndex | src/components/LessonPage.js:50-53 | `findIndex`: the first position whose lesson id equals the parsed id, or -1 exactly when there is none; always at least -1 |
| LessonNavigation.PreviousLesson | src/components/LessonPage.js:126-133 | "Previous" is shown if and only if the index is positive, and leads to the lesson before |
| LessonNavigation.NextLesson | src/components/LessonPage.js:154-161 | "Next" is shown if and only if the index is below the last position, and leads to the lesson after |
| LessonNavigation.IndexOfOwnId | src/components/LessonPage.js:50-53 | with unique ids, looking up the id at a position finds that position |
| LessonNavigation.NextThenPreviousReturns | src/components/LessonPage.js:126-161 | with unique ids, "Next" leads to the following lesson and "Previous" from there leads back |
| LessonNavigation.MissingLessonOffersFirst | src/components/LessonPage.js:126-161 | when the lesson is not in the list, "Previous" is hidden and a non-empty list offers "Next" to its first lesson |
| LessonNavigation.UnparsedIdFindsNothing | src/components/LessonPage.js:50-52 | a lesson id that does not parse (NaN) finds no lesson |
| LessonNavigation.LessonPage.constructor | src/components/LessonPage.js:8-18 | the page starts loading, with no lesson, no error, not enrolled, no lessons and index -1 |
| LessonNavigation.LessonPage.Shown | src/components/LessonPage.js:78-100 | definition of which branch renders (spinner while loading, then the error banner for a truthy error, then the lesson), no contract of its own; `FetchLessonAndEnrollment` and `OpenLessonPage` state what is shown after the effect |
| LessonNavigation.LessonPage.Previous | src/components/LessonPage.js:78-133 | the page's "Previous" button: it exists exactly when the lesson content is shown (neither spinner nor error banner) and the index is positive, and leads to the lesson before |
| LessonNavigation.LessonPage.Next | src/components/LessonPage.js:78-161 | the page's "Next" button: it exists exactly when the lesson content is shown and the index is below the last position, and leads to the lesson after |
| LessonNavigation.LessonPage.FetchLessonAndEnrollment | src/components/LessonPage.js:21-73 | loading ends false on every path; lessons are fetched only if enrolled or instructor, otherwise the fixed message is set and nothing else; each failure sets the error and keeps what was set before it; success stores the list, the index lookup and the lesson; the index stays within bounds |
| LessonNavigation.OpenLessonPage | src/components/LessonPage.js:20-76 | opening the page as a user neither enrolled nor an instructor shows the fixed message, an empty list, index -1 and no buttons |

## Left out

- HTTP requests: every request (login, register, course list, enrollment, enrollment status, lessons, lesson detail) is an input, success with its data or an axios error. Request URLs, headers and bearer tokens are not modelled.
- Redux Toolkit itself (`createAsyncThunk`, `createSlice`, Immer drafts, `configureStore`): each dispatch of a thunk is taken to be its pending action followed by exactly one fulfilled or rejected action.
- Concurrency: overlapping requests and responses that arrive after the page has gone are not modelled. The model runs each operation to completion.
- Rendering: JSX, styling, charts, and the dashboard, list, detail and form components. That covers InstructorDashboard.js, the dashboard/ components, CourseList.js, CourseDetails.js, LessonDetail.js, LessonForm.js and Navigation.js. Their own logic is fetch-then-set over I/O or visibility flags.
- `transformEnrollmentTrends`: its output order depends on JavaScript object key order.
- courses/views.py is not part of this model. It is backend code over the Django ORM, which is not shown.
- `console.log`, date formatting, and the prefix-parsing rules of `parseInt`. The lesson id reaches the model already parsed, with None standing for NaN.
- `CourseDetails.js` reads the server's `is_enrolled`, not the `isEnrolled` the reducer writes. The model keeps the two as distinct fields of `Course` and models no reader of either.
- AuthSlice.AuthPayload: the access token is taken to be present in a successful response. A response without `access` would store the string "undefined" in local storage; that case is not modelled.
- Router.Resolve: paths arrive already split into non-empty segments. URL decoding of parameters, trailing and doubled slashes, and query strings are not modelled.
- Router.Fold: case-insensitive matching of route literals folds ASCII letters only. Other characters are compared as they are.
- Http.Body: response bodies are a string or an object with string fields. Other JSON values (numbers, arrays, `null`, a non-string `message`) are not modelled.
- LessonNavigation.LessonPage.FetchLessonAndEnrollment: `isInstructor` is a parameter. In the source it is `AuthSlice.IsInstructor` of the auth slice's user. Re-running the effect when its dependencies change is modelled only as a further call on the current state.
- LessonNavigation.LessonPage.Shown: only the choice between spinner, error banner and lesson content is modelled, not what each shows.
