/** The login/dashboard state machine of the `App` object, as pure
    functions over one value `AppState` that collects everything the
    handlers read or write: the `loggedInUser` entry of local storage, the
    `hidden` class of the two containers, the header text, the global
    chart reference and the charts still live on the canvas. Each function
    below follows the statements of the `App` method of the same name. */
module ViewMachine {

  import opened Wrappers
  import opened Charts

  datatype AppState = AppState(
    session: Option<string>,      // localStorage 'loggedInUser'; None when the key is absent
    loginVisible: bool,           // login container lacks the 'hidden' class
    dashboardVisible: bool,       // dashboard container lacks the 'hidden' class
    greeting: string,             // text content of the user e-mail span
    chartRef: Option<Chart>,      // window.myChart; None while it is undefined
    liveCharts: set<ChartId>,     // chart objects created and not yet destroyed
    nextChartId: ChartId)         // identity the next `new Chart` receives

  /** What the page shows before `init` runs: the container visibility and
      header text of the markup. */
  datatype Markup = Markup(loginVisible: bool, dashboardVisible: bool, greeting: string)

  /** A freshly loaded page: storage survives from earlier visits, no chart
      object exists yet. */
  function Loaded(stored: Option<string>, page: Markup): AppState
  {
    AppState(stored, page.loginVisible, page.dashboardVisible, page.greeting, None, {}, 0)
  }

  /** JavaScript truthiness of a string: only the empty string is falsy. */
  predicate Truthy(s: string)
  {
    s != ""
  }

  /** Truthiness of `localStorage.getItem('loggedInUser')`: both `null` (no
      entry) and a stored empty string are falsy. */
  predicate SessionActive(stored: Option<string>)
  {
    stored.Some? && Truthy(stored.value)
  }

  /** The guard of the login handler: both fields filled in. */
  predicate LoginFieldsFilled(email: string, password: string)
  {
    Truthy(email) && Truthy(password)
  }

  const GREETING_PREFIX: string := "Olá, "

  /** The header text for a signed-in user; the e-mail can be read back
      from it. */
  function Greeting(email: string): (g: string)
    ensures GREETING_PREFIX <= g
    ensures g[|GREETING_PREFIX|..] == email
  {
    GREETING_PREFIX + email
  }

  // ---------------------------------------------------------------------
  // The transitions, one per method of `App`.

  /** Destroy the previous chart, if any, then create a new one bound to
      the fixed dataset. */
  function RenderPerformanceChart(s: AppState): AppState
  {
    var t := if s.chartRef.Some? then s.(liveCharts := Destroy(s.liveCharts, s.chartRef.value)) else s;
    t.(chartRef := Some(Chart(t.nextChartId, PerformanceData())),
       liveCharts := t.liveCharts + {t.nextChartId},
       nextChartId := t.nextChartId + 1)
  }

  /** Hide the login container, show the dashboard, greet `email`, draw the chart. */
  function ShowDashboard(s: AppState, email: string): AppState
  {
    RenderPerformanceChart(s.(loginVisible := false, dashboardVisible := true, greeting := Greeting(email)))
  }

  /** Hide the dashboard, show the login container, destroy the referenced
      chart if there is one. The reference itself is kept. */
  function ShowLogin(s: AppState): AppState
  {
    var t := s.(dashboardVisible := false, loginVisible := true);
    if t.chartRef.Some? then t.(liveCharts := Destroy(t.liveCharts, t.chartRef.value)) else t
  }

  /** Show the dashboard when a truthy identity is stored, the login view otherwise. */
  function CheckSession(s: AppState): AppState
  {
    if SessionActive(s.session) then ShowDashboard(s, s.session.value) else ShowLogin(s)
  }

  /** Accept any filled-in pair, store the e-mail as the identity and show
      the dashboard; otherwise leave everything as it is (the user is
      alerted, see `App.HandleLogin`). */
  function HandleLogin(s: AppState, email: string, password: string): AppState
  {
    if LoginFieldsFilled(email, password) then ShowDashboard(s.(session := Some(email)), email) else s
  }

  /** Remove the identity and show the login view. */
  function HandleLogout(s: AppState): AppState
  {
    ShowLogin(s.(session := None))
  }

  // ---------------------------------------------------------------------
  // Invariants.

  /** What holds of every state the page can be in, before or after `init`:
      the only chart that can be live is the referenced one, the reference
      was created by this page and holds the fixed dataset. */
  predicate ChartOwned(s: AppState)
  {
    && s.liveCharts <= Referenced(s.chartRef)
    && (s.chartRef.Some? ==> s.chartRef.value.id < s.nextChartId && s.chartRef.value.data == PerformanceData())
  }

  /** What holds once `init` has run: exactly one container is visible, the
      dashboard is visible exactly when a truthy identity is stored, it then
      greets that identity, and exactly the dashboard has a live chart. */
  predicate Consistent(s: AppState)
  {
    && ChartOwned(s)
    && s.loginVisible != s.dashboardVisible
    && (s.dashboardVisible <==> SessionActive(s.session))
    && (s.dashboardVisible ==> s.greeting == Greeting(s.session.value))
    && |s.liveCharts| == (if s.dashboardVisible then 1 else 0)
  }

  lemma AtMostOneLiveChart(s: AppState)
    requires ChartOwned(s)
    ensures |s.liveCharts| <= 1
    ensures s.liveCharts == {} || s.liveCharts == {s.chartRef.value.id}
  {
  }

  /** Rendering destroys the old chart and leaves exactly one live chart, a
      new object bound to the fixed dataset; nothing outside the chart changes. */
  lemma RenderReplacesChart(s: AppState)
    requires ChartOwned(s)
    ensures var t := RenderPerformanceChart(s);
      && ChartOwned(t)
      && t.chartRef.Some? && t.liveCharts == {t.chartRef.value.id}
      && t.chartRef.value.data == PerformanceData()
      && (s.chartRef.Some? ==> t.chartRef.value.id != s.chartRef.value.id && s.chartRef.value.id !in t.liveCharts)
      && t.session == s.session && t.greeting == s.greeting
      && t.loginVisible == s.loginVisible && t.dashboardVisible == s.dashboardVisible
  {
  }

  lemma RenderTwiceStillOneChart(s: AppState)
    requires ChartOwned(s)
    ensures |RenderPerformanceChart(RenderPerformanceChart(s)).liveCharts| == 1
  {
  }

  lemma ShowDashboardShowsOnlyDashboard(s: AppState, email: string)
    requires ChartOwned(s)
    ensures var t := ShowDashboard(s, email);
      && ChartOwned(t)
      && t.dashboardVisible && !t.loginVisible
      && t.greeting == Greeting(email)
      && |t.liveCharts| == 1
      && t.session == s.session
  {
  }

  lemma ShowLoginShowsOnlyLogin(s: AppState)
    requires ChartOwned(s)
    ensures var t := ShowLogin(s);
      && ChartOwned(t)
      && t.loginVisible && !t.dashboardVisible
      && t.liveCharts == {}
      && t.chartRef == s.chartRef
      && t.session == s.session && t.greeting == s.greeting
  {
  }

  /** Destroying the already destroyed chart a second time changes nothing. */
  lemma ShowLoginIdempotent(s: AppState)
    ensures ShowLogin(ShowLogin(s)) == ShowLogin(s)
  {
  }

  lemma CheckSessionFollowsStorage(s: AppState)
    requires ChartOwned(s)
    ensures var t := CheckSession(s);
      && Consistent(t)
      && t.session == s.session
      && (t.dashboardVisible <==> SessionActive(s.session))
      && (t.loginVisible <==> !SessionActive(s.session))
  {
  }

  lemma LoginAccepted(s: AppState, email: string, password: string)
    requires ChartOwned(s)
    requires LoginFieldsFilled(email, password)
    ensures var t := HandleLogin(s, email, password);
      && Consistent(t)
      && t.session == Some(email)
      && t.dashboardVisible && !t.loginVisible
      && t.greeting == Greeting(email)
      && |t.liveCharts| == 1
  {
  }

  lemma LoginRejectedChangesNothing(s: AppState, email: string, password: string)
    requires !LoginFieldsFilled(email, password)
    ensures HandleLogin(s, email, password) == s
  {
  }

  lemma LogoutSignsOut(s: AppState)
    requires ChartOwned(s)
    ensures var t := HandleLogout(s);
      && Consistent(t)
      && t.session == None
      && t.loginVisible && !t.dashboardVisible
      && t.liveCharts == {}
  {
  }

  lemma LogoutIdempotent(s: AppState)
    ensures HandleLogout(HandleLogout(s)) == HandleLogout(s)
  {
  }

  /** Reloading the page shows the view that was showing before: the stored
      identity is all that decides it. */
  lemma ReloadRestoresView(s: AppState, page: Markup)
    requires Consistent(s)
    ensures var t := CheckSession(Loaded(s.session, page));
      && t.session == s.session
      && t.loginVisible == s.loginVisible && t.dashboardVisible == s.dashboardVisible
      && (t.dashboardVisible ==> t.greeting == s.greeting)
  {
  }

  // ---------------------------------------------------------------------
  // Sequences of user actions.

  /** What the two listeners wired up by `init` can trigger. */
  datatype Event = SubmitLogin(email: string, password: string) | ClickLogout

  function Step(s: AppState, e: Event): AppState
  {
    match e
    case SubmitLogin(email, password) => HandleLogin(s, email, password)
    case ClickLogout => HandleLogout(s)
  }

  function Run(s: AppState, evs: seq<Event>): AppState
    decreases |evs|
  {
    if evs == [] then s else Run(Step(s, evs[0]), evs[1..])
  }

  /** An independent account of the stored identity: the last event that
      touches it decides (a rejected login does not touch it). */
  function SessionAfter(stored: Option<string>, evs: seq<Event>): Option<string>
    decreases |evs|
  {
    if evs == [] then stored
    else
      match evs[|evs| - 1]
      case ClickLogout => None
      case SubmitLogin(email, password) =>
        if LoginFieldsFilled(email, password) then Some(email)
        else SessionAfter(stored, evs[..|evs| - 1])
  }

  lemma StepPreservesConsistent(s: AppState, e: Event)
    requires Consistent(s)
    ensures Consistent(Step(s, e))
  {
  }

  lemma {:induction false} RunPreservesConsistent(s: AppState, evs: seq<Event>)
    requires Consistent(s)
    ensures Consistent(Run(s, evs))
    decreases |evs|
  {
    if evs != [] {
      StepPreservesConsistent(s, evs[0]);
      RunPreservesConsistent(Step(s, evs[0]), evs[1..]);
    }
  }

  /** After `init` and any sequence of logins and logouts: exactly one
      container is visible, the dashboard is visible exactly when a truthy
      identity is stored, and one chart is live on the dashboard, none on
      the login view. */
  lemma SessionViewConsistency(stored: Option<string>, page: Markup, evs: seq<Event>)
    ensures var t := Run(CheckSession(Loaded(stored, page)), evs);
      && Consistent(t)
      && (t.dashboardVisible <==> SessionActive(t.session))
      && t.loginVisible != t.dashboardVisible
      && |t.liveCharts| == (if t.dashboardVisible then 1 else 0)
  {
    CheckSessionFollowsStorage(Loaded(stored, page));
    RunPreservesConsistent(CheckSession(Loaded(stored, page)), evs);
  }

  lemma {:induction false} RunAppend(s: AppState, a: seq<Event>, b: seq<Event>)
    ensures Run(s, a + b) == Run(Run(s, a), b)
    decreases |a|
  {
    if a == [] {
      assert a + b == b;
    } else {
      assert (a + b)[0] == a[0];
      assert (a + b)[1..] == a[1..] + b;
      RunAppend(Step(s, a[0]), a[1..], b);
    }
  }

  /** The identity stored after any sequence of events is the one
      `SessionAfter` predicts. */
  lemma {:induction false} RunStoresLastIdentity(s: AppState, evs: seq<Event>)
    ensures Run(s, evs).session == SessionAfter(s.session, evs)
    decreases |evs|
  {
    if evs != [] {
      var init, last := evs[..|evs| - 1], evs[|evs| - 1];
      assert evs == init + [last];
      RunAppend(s, init, [last]);
      RunStoresLastIdentity(s, init);
      assert Run(Run(s, init), [last]) == Step(Run(s, init), last);
    }
  }
}
