/** The `App` object of the dashboard script: its state is held in fields
    (local storage, the two containers, the header span, the global chart
    reference and the canvas's live charts) and every method assigns them
    in the order the script does. Each method's new state is the
    `ViewMachine` transition of the same name applied to the old state. */
module Script {

  import opened Wrappers
  import opened Charts
  import V = ViewMachine

  class App {
    var session: Option<string>
    var loginVisible: bool
    var dashboardVisible: bool
    var greeting: string
    var chartRef: Option<Chart>
    var liveCharts: set<ChartId>
    var nextChartId: ChartId

    function State(): V.AppState
      reads this
    {
      V.AppState(session, loginVisible, dashboardVisible, greeting, chartRef, liveCharts, nextChartId)
    }

    /** The object invariant: the canvas holds no chart but the referenced one. */
    ghost predicate Valid()
      reads this
    {
      V.ChartOwned(State())
    }

    /** The page as loaded, before `init`: `stored` is what local storage
        kept from earlier visits. */
    constructor (stored: Option<string>, page: V.Markup)
      ensures Valid() && State() == V.Loaded(stored, page)
    {
      session := stored;
      loginVisible, dashboardVisible := page.loginVisible, page.dashboardVisible;
      greeting := page.greeting;
      chartRef := None;
      liveCharts := {};
      nextChartId := 0;
    }

    /** Entry point: after it, the view agrees with local storage. */
    method Init()
      requires Valid()
      modifies this
      ensures Valid() && State() == V.CheckSession(old(State()))
      ensures V.Consistent(State())
    {
      CheckSession();
    }

    method CheckSession()
      requires Valid()
      modifies this
      ensures Valid() && State() == V.CheckSession(old(State()))
      ensures V.Consistent(State()) && session == old(session)
      ensures dashboardVisible <==> V.SessionActive(session)
    {
      var loggedInUser := session;
      if V.SessionActive(loggedInUser) {
        ShowDashboard(loggedInUser.value);
      } else {
        ShowLogin();
      }
    }

    /** `email` and `password` are the values of the two form inputs;
        `alerted` tells whether the validation alert was raised. */
    method HandleLogin(email: string, password: string) returns (alerted: bool)
      requires Valid()
      modifies this
      ensures Valid() && State() == V.HandleLogin(old(State()), email, password)
      ensures alerted <==> !V.LoginFieldsFilled(email, password)
      ensures !alerted ==> V.Consistent(State()) && session == Some(email)
      ensures alerted ==> State() == old(State())
    {
      if V.LoginFieldsFilled(email, password) {
        session := Some(email);
        ShowDashboard(email);
        alerted := false;
      } else {
        alerted := true;
      }
    }

    method HandleLogout()
      requires Valid()
      modifies this
      ensures Valid() && State() == V.HandleLogout(old(State()))
      ensures V.Consistent(State()) && session == None
      ensures loginVisible && !dashboardVisible && liveCharts == {}
    {
      session := None;
      ShowLogin();
    }

    method ShowDashboard(email: string)
      requires Valid()
      modifies this
      ensures Valid() && State() == V.ShowDashboard(old(State()), email)
      ensures dashboardVisible && !loginVisible && greeting == V.Greeting(email)
      ensures |liveCharts| == 1 && session == old(session)
    {
      loginVisible := false;
      dashboardVisible := true;
      greeting := V.Greeting(email);
      RenderPerformanceChart();
    }

    method ShowLogin()
      requires Valid()
      modifies this
      ensures Valid() && State() == V.ShowLogin(old(State()))
      ensures loginVisible && !dashboardVisible && liveCharts == {}
      ensures chartRef == old(chartRef) && session == old(session) && greeting == old(greeting)
    {
      dashboardVisible := false;
      loginVisible := true;
      if chartRef.Some? {
        liveCharts := Destroy(liveCharts, chartRef.value);
      }
    }

    method RenderPerformanceChart()
      requires Valid()
      modifies this
      ensures Valid() && State() == V.RenderPerformanceChart(old(State()))
      ensures chartRef.Some? && liveCharts == {chartRef.value.id} && chartRef.value.data == PerformanceData()
      ensures old(chartRef).Some? ==> old(chartRef).value.id !in liveCharts
    {
      if chartRef.Some? {
        liveCharts := Destroy(liveCharts, chartRef.value);
      }
      chartRef := Some(Chart(nextChartId, PerformanceData()));
      liveCharts := liveCharts + {nextChartId};
      nextChartId := nextChartId + 1;
    }
  }
}
