/**
 * The application's route table and its private-route gate, as a pure
 * function from a path (already split into its non-empty segments) and the
 * current token to either a view to render or a path to redirect to.
 */
module Router {
  import opened Wrappers
  import opened Http

  /** One segment of a route pattern: a literal, or a `:name` parameter. */
  datatype Segment = Literal(text: string) | Param(name: string)

  datatype Page = LoginPage | RegisterPage | CourseListPage | CourseDetailsPage | LessonPage

  /** `Open` routes render for everyone; `Private` ones are wrapped in `PrivateRoute`. */
  datatype Guard = Open | Private

  datatype Route = Route(pattern: seq<Segment>, page: Page, guard: Guard)

  /** A page with the parameters its pattern bound. */
  datatype View = View(page: Page, params: map<string, string>)

  datatype Resolution = Render(view: View) | Redirect(target: seq<string>)

  const LoginPath: seq<string> := ["login"]
  const CoursesPath: seq<string> := ["courses"]

  /** The table, in the order it is declared; anything else falls to the catch-all `*`. */
  const Routes: seq<Route> := [
    Route([Literal("login")], LoginPage, Open),
    Route([Literal("register")], RegisterPage, Open),
    Route([Literal("courses")], CourseListPage, Private),
    Route([Literal("courses"), Param("courseId")], CourseDetailsPage, Private),
    Route([Literal("courses"), Param("courseId"), Literal("lessons"), Param("lessonId")], LessonPage, Private)
  ]

  /** ASCII case folding, as route literals are matched case-insensitively. */
  function Fold(c: char): char {
    if 'A' <= c <= 'Z' then (c as int - 'A' as int + 'a' as int) as char else c
  }

  predicate SameIgnoringCase(a: string, b: string) {
    |a| == |b| && forall i :: 0 <= i < |a| ==> Fold(a[i]) == Fold(b[i])
  }

  /** A literal matches its text up to case; a parameter matches any non-empty segment. */
  predicate SegmentMatches(seg: Segment, part: string) {
    match seg
    case Literal(text) => SameIgnoringCase(text, part)
    case Param(_) => part != ""
  }

  /** The path matches the pattern segment by segment, with the same number of segments. */
  ghost predicate PatternMatches(pattern: seq<Segment>, path: seq<string>) {
    |pattern| == |path| && forall i :: 0 <= i < |path| ==> SegmentMatches(pattern[i], path[i])
  }

  /** Matching a pattern against a path: the bound parameters, or None if it does not match. */
  function Match(pattern: seq<Segment>, path: seq<string>): (r: Option<map<string, string>>)
    ensures r.Some? <==> PatternMatches(pattern, path)
    ensures r.Some? ==> forall i :: 0 <= i < |pattern| && pattern[i].Param? ==> pattern[i].name in r.value
    // each parameter is bound to its own segment of the path (the first parameter of a name wins)
    ensures r.Some? ==> forall i :: 0 <= i < |pattern| && pattern[i].Param?
                          && (forall j :: 0 <= j < i && pattern[j].Param? ==> pattern[j].name != pattern[i].name)
                          ==> r.value[pattern[i].name] == path[i]
  {
    if pattern == [] || path == [] then
      if pattern == [] && path == [] then Some(map[]) else None
    else if !SegmentMatches(pattern[0], path[0]) then None
    else match Match(pattern[1..], path[1..])
      case None => None
      case Some(rest) =>
        Some(if pattern[0].Param? then rest[pattern[0].name := path[0]] else rest)
  }

  /** The index of the first route of `routes` that matches the path. */
  function FirstMatch(routes: seq<Route>, path: seq<string>): (k: Option<nat>)
    ensures k.Some? ==> k.value < |routes| && PatternMatches(routes[k.value].pattern, path)
    ensures k.None? <==> forall j :: 0 <= j < |routes| ==> !PatternMatches(routes[j].pattern, path)
    ensures k.Some? ==> forall j :: 0 <= j < k.value ==> !PatternMatches(routes[j].pattern, path)
  {
    if routes == [] then None
    else if Match(routes[0].pattern, path).Some? then Some(0)
    else match FirstMatch(routes[1..], path)
      case None => None
      case Some(k) => Some(k + 1)
  }

  /**
   * The element the router shows for the path: the matched route's page, or
   * for a private route without a truthy token a redirect to /login; a path
   * that no route matches redirects to /courses.
   */
  function Resolve(path: seq<string>, token: Option<string>): (r: Resolution)
    ensures r.Render? ==> exists k :: 0 <= k < |Routes| && PatternMatches(Routes[k].pattern, path)
                                      && Routes[k].page == r.view.page
                                      && (Routes[k].guard == Private ==> TruthyText(token))
    ensures r.Redirect? ==> r.target == LoginPath || r.target == CoursesPath
    // the view carries the parameters its route's pattern binds from the path
    ensures r.Render? ==> FirstMatch(Routes, path).Some?
                          && r.view.params == Match(Routes[FirstMatch(Routes, path).value].pattern, path).value
  {
    match FirstMatch(Routes, path)
    case None => Redirect(CoursesPath)
    case Some(k) =>
      var route := Routes[k];
      if route.guard == Private && !TruthyText(token) then Redirect(LoginPath)
      else Render(View(route.page, Match(route.pattern, path).value))
  }

  /**
   * The only route a path can match, told apart by the number of segments
   * and, for one segment, by the length of the literal.
   */
  function CandidateRoute(path: seq<string>): nat {
    if |path| == 1 then (if |path[0]| == 5 then 0 else if |path[0]| == 8 then 1 else 2)
    else if |path| == 2 then 3
    else 4
  }

  /** A route that matches the path is its candidate route. */
  lemma MatchIsCandidate(path: seq<string>, k: nat)
    requires k < |Routes| && PatternMatches(Routes[k].pattern, path)
    ensures k == CandidateRoute(path)
  {
    if k < 3 {
      assert SegmentMatches(Routes[k].pattern[0], path[0]);
    }
  }

  /** No path matches two routes of the table, so their order does not matter. */
  lemma AtMostOneRouteMatches(path: seq<string>, j: nat, k: nat)
    requires j < |Routes| && k < |Routes|
    requires PatternMatches(Routes[j].pattern, path) && PatternMatches(Routes[k].pattern, path)
    ensures j == k
  {
    MatchIsCandidate(path, j);
    MatchIsCandidate(path, k);
  }

  /** The route the path matches, when there is one, is the one `Resolve` uses. */
  lemma MatchingRouteIsFirst(path: seq<string>, k: nat)
    requires k < |Routes| && PatternMatches(Routes[k].pattern, path)
    ensures FirstMatch(Routes, path) == Some(k)
  {
    var f := FirstMatch(Routes, path);
    AtMostOneRouteMatches(path, f.value, k);
  }

  /** A private route renders its page exactly when the token is truthy, and otherwise redirects to /login. */
  lemma PrivateRouteGate(path: seq<string>, token: Option<string>, k: nat)
    requires k < |Routes| && Routes[k].guard == Private && PatternMatches(Routes[k].pattern, path)
    ensures Resolve(path, token).Render? <==> TruthyText(token)
    ensures TruthyText(token) ==> Resolve(path, token).view.page == Routes[k].page
    ensures !TruthyText(token) ==> Resolve(path, token) == Redirect(LoginPath)
  {
    MatchingRouteIsFirst(path, k);
  }

  /** /login and /register render whatever the token. */
  lemma OpenRoutesAlwaysRender(token: Option<string>)
    ensures Resolve(LoginPath, token) == Render(View(LoginPage, map[]))
    ensures Resolve(["register"], token) == Render(View(RegisterPage, map[]))
  {
    assert PatternMatches(Routes[0].pattern, LoginPath);
    MatchingRouteIsFirst(LoginPath, 0);
    assert PatternMatches(Routes[1].pattern, ["register"]);
    MatchingRouteIsFirst(["register"], 1);
  }

  /** With a truthy token, a course's lesson page renders with both parameters bound. */
  lemma LessonRouteBindsParams(courseId: string, lessonId: string, token: Option<string>)
    requires courseId != "" && lessonId != "" && TruthyText(token)
    ensures Resolve(["courses", courseId, "lessons", lessonId], token)
         == Render(View(LessonPage, map["courseId" := courseId, "lessonId" := lessonId]))
  {
    var path := ["courses", courseId, "lessons", lessonId];
    assert PatternMatches(Routes[4].pattern, path);
    MatchingRouteIsFirst(path, 4);
    var p := Routes[4].pattern;
    assert Match(p[4..], path[4..]) == Some(map[]);
    assert Match(p[3..], path[3..]) == Some(map["lessonId" := lessonId]);
    assert Match(p[2..], path[2..]) == Some(map["lessonId" := lessonId]);
    assert Match(p[1..], path[1..]) == Some(map["lessonId" := lessonId]["courseId" := courseId]);
  }

  /** Every path that no route matches redirects to /courses. */
  lemma UnmatchedRedirectsToCourses(path: seq<string>, token: Option<string>)
    requires forall j :: 0 <= j < |Routes| ==> !PatternMatches(Routes[j].pattern, path)
    ensures Resolve(path, token) == Redirect(CoursesPath)
  {
  }

  /** The instructor dashboard link has no route of its own: it lands on /courses. */
  lemma DashboardIsNotRouted(token: Option<string>)
    ensures Resolve(["instructor", "dashboard"], token) == Redirect(CoursesPath)
  {
    var path := ["instructor", "dashboard"];
    assert !SegmentMatches(Literal("courses"), "instructor") by {
      assert |"courses"| != |"instructor"|;
    }
    assert Routes[3].pattern[0] == Literal("courses");
    assert !PatternMatches(Routes[3].pattern, path);
    UnmatchedRedirectsToCourses(path, token);
  }

  /** Follows at most `fuel` redirects; None if a redirect remains. */
  function Navigate(path: seq<string>, token: Option<string>, fuel: nat): Option<View>
    decreases fuel
  {
    match Resolve(path, token)
    case Render(v) => Some(v)
    case Redirect(target) => if fuel == 0 then None else Navigate(target, token, fuel - 1)
  }

  /**
   * Redirects settle within two steps: on the page itself when it renders,
   * otherwise on the course list with a truthy token and on the login page
   * without one.
   */
  lemma RedirectsSettleWithinTwoSteps(path: seq<string>, token: Option<string>)
    ensures Navigate(path, token, 2).Some?
    ensures Resolve(path, token).Render? ==> Navigate(path, token, 2) == Some(Resolve(path, token).view)
    ensures Resolve(path, token).Redirect? && TruthyText(token) ==> Navigate(path, token, 2) == Some(View(CourseListPage, map[]))
    ensures Resolve(path, token).Redirect? && !TruthyText(token) ==> Navigate(path, token, 2) == Some(View(LoginPage, map[]))
  {
    OpenRoutesAlwaysRender(token);
    CourseListGate(token);
    var r := Resolve(path, token);
    if r.Redirect? {
      assert Navigate(path, token, 2) == Navigate(r.target, token, 1);
      if !TruthyText(token) {
        assert Navigate(CoursesPath, token, 1) == Navigate(LoginPath, token, 0);
      }
    }
  }

  /** /courses itself: the course list with a truthy token, /login without one. */
  lemma CourseListGate(token: Option<string>)
    ensures Resolve(CoursesPath, token)
         == if TruthyText(token) then Render(View(CourseListPage, map[])) else Redirect(LoginPath)
  {
    assert PatternMatches(Routes[2].pattern, CoursesPath);
    MatchingRouteIsFirst(CoursesPath, 2);
  }
}
