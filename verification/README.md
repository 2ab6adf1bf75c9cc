# Dashboard session and view state machine

A model of the `App` object in `script.js` of the Shopee Ads marketing
dashboard. The page gates a dashboard behind a "session" kept in the
`loggedInUser` entry of local storage. A login form accepts any filled-in
e-mail and password and stores the e-mail. A logout button removes it. The
dashboard greets the user and draws one fixed line chart with Chart.js.

The browser is reduced to plain state:

- local storage becomes `session: Option<string>`; JavaScript truthiness
  makes a stored empty string count as no session (`SessionActive`);
- the `hidden` class of the two containers becomes `loginVisible` and
  `dashboardVisible`;
- the header span's text becomes `greeting` (`"Olá, "` followed by the e-mail);
- `window.myChart` becomes `chartRef: Option<Chart>`. A `Chart` value has an
  identity and its dataset. The canvas's live chart objects become
  `liveCharts`, and `nextChartId` gives each `new Chart` a fresh identity.
  `chart.destroy()` removes the chart from `liveCharts`. On a chart that is
  already destroyed it is a no-op. `showLogin` keeps the reference to the
  destroyed chart, as the script does.

Layout:

- `wrappers.dfy`: `Option`.
- `charts.dfy` (module `Charts`): the chart abstraction, the fixed
  performance dataset and `Destroy`.
- `view_machine.dfy` (module `ViewMachine`): the state as one value
  `AppState`. It has one pure transition per `App` method, the invariants
  `ChartOwned` and `Consistent`, and the lemmas. `Run` drives a sequence of
  user events (login submit, logout click). `SessionAfter` is an independent
  account of which identity ends up stored.
- `script.dfy` (module `Script`): class `App`. Its fields are the state above.
  Each method assigns them in the script's order. Each method's `ensures`
  equates the new `State()` with the `ViewMachine` transition applied to the
  old state. It also states the resulting view directly.

`ChartOwned` holds on every page state. It says the only chart that can be
live is the referenced one. `Consistent` holds from `init` on, after every
handler. It says:

- exactly one container is visible;
- the dashboard is visible exactly when a truthy identity is stored;
- the dashboard then greets that identity;
- exactly one chart is live on the dashboard, and none on the login view.

Three facts about the code that the model keeps:

- `renderPerformanceChart` destroys the old chart and builds a new one. It
  never updates a chart in place.
- `handleLogout` switches the view before it destroys the chart.
- only the login guard keeps an empty identity out of storage. A value
  stored by other means may be empty, and `checkSession` then treats it as
  no session.

## Model

| member | source | states |
|---|---|---|
| `Charts.PerformanceData` | script.js:103-119 | the chart's dataset has six labels and two series, investment and conversions, with one point per label each |
| `Charts.Destroy` | script.js:87-89 | destroying a chart makes it not live and leaves every other live chart live |
| `Charts.DestroyTwiceIsDestroyOnce` | script.js:87-89 | destroying an already destroyed chart is a no-op |
| `ViewMachine.Greeting` | script.js:75 | the header text starts with "Olá, " and the rest of it is exactly the e-mail |
| `ViewMachine.Truthy` | script.js:50 | JavaScript truthiness of a string; no contract of its own, used by `LoginAccepted` and `LoginRejectedChangesNothing` |
| `ViewMachine.SessionActive` | script.js:35-36 | truthiness of the stored value: absent and empty both count as no session; no contract of its own, see `CheckSessionFollowsStorage` |
| `ViewMachine.LoginFieldsFilled` | script.js:50 | the login guard, both fields non-empty; no contract of its own, see `LoginAccepted` and `LoginRejectedChangesNothing` |
| `ViewMachine.RenderPerformanceChart` | script.js:93-101 | destroy the referenced chart if any, then create and reference a new one; properties in `RenderReplacesChart` and `RenderTwiceStillOneChart` |
| `ViewMachine.ShowDashboard` | script.js:70-79 | hide login, show the dashboard, set the greeting, render; properties in `ShowDashboardShowsOnlyDashboard` |
| `ViewMachine.ShowLogin` | script.js:82-90 | hide the dashboard, show login, destroy the referenced chart if any; properties in `ShowLoginShowsOnlyLogin` and `ShowLoginIdempotent` |
| `ViewMachine.CheckSession` | script.js:34-41 | dashboard for a truthy stored identity, login otherwise; properties in `CheckSessionFollowsStorage` and `ReloadRestoresView` |
| `ViewMachine.HandleLogin` | script.js:44-60 | store the e-mail and show the dashboard when both fields are filled, otherwise no change; properties in `LoginAccepted` and `LoginRejectedChangesNothing` |
| `ViewMachine.HandleLogout` | script.js:63-67 | remove the identity, then show login; properties in `LogoutSignsOut` and `LogoutIdempotent` |
| `ViewMachine.Step` | script.js:22-31 | a form submit runs the login handler, a logout click the logout handler; properties in `StepPreservesConsistent` |
| `ViewMachine.Run` | script.js:22-31 | a sequence of those events in order; properties in `RunPreservesConsistent`, `SessionViewConsistency` and `RunStoresLastIdentity` |
| `ViewMachine.AtMostOneLiveChart` | script.js:96-101 | while only the referenced chart can be live, at most one chart is live, and it is the referenced one |
| `ViewMachine.RenderReplacesChart` | script.js:93-101 | rendering destroys the previous chart and leaves exactly one live chart: a new object, distinct from the old one, bound to the fixed dataset; session, views and header are untouched |
| `ViewMachine.RenderTwiceStillOneChart` | script.js:96-101 | two renders in a row still leave exactly one live chart |
| `ViewMachine.ShowDashboardShowsOnlyDashboard` | script.js:70-79 | showing the dashboard hides login, shows the dashboard, greets the given e-mail, leaves one live chart and does not touch storage |
| `ViewMachine.ShowLoginShowsOnlyLogin` | script.js:82-90 | showing login hides the dashboard and leaves no live chart; the chart reference, storage and header are kept |
| `ViewMachine.ShowLoginIdempotent` | script.js:86-89 | showing login twice is the same as showing it once, even though the second call destroys the same chart again |
| `ViewMachine.CheckSessionFollowsStorage` | script.js:34-41 | after the session check the state is consistent and the dashboard is shown exactly when a truthy identity is stored, login exactly when it is absent or empty |
| `ViewMachine.LoginAccepted` | script.js:50-55 | a login with both fields filled stores exactly the e-mail, shows only the dashboard, greets the e-mail and leaves one live chart |
| `ViewMachine.LoginRejectedChangesNothing` | script.js:50-59 | a login with an empty e-mail or password leaves session, views, header and chart as they were |
| `ViewMachine.LogoutSignsOut` | script.js:63-67 | logout removes the identity, shows only the login view and leaves no live chart, in a consistent state |
| `ViewMachine.LogoutIdempotent` | script.js:63-67 | a second logout yields the same state as the first |
| `ViewMachine.ReloadRestoresView` | script.js:34-41 | reloading the page with the stored identity shows the same view, and the same greeting on the dashboard |
| `ViewMachine.StepPreservesConsistent` | script.js:44-67 | every login submit or logout click keeps the state consistent |
| `ViewMachine.RunPreservesConsistent` | script.js:22-31 | any sequence of login submits and logout clicks keeps the state consistent |
| `ViewMachine.SessionViewConsistency` | script.js:16-19 | after init and any sequence of events, exactly one container is visible, the dashboard is visible exactly when a truthy identity is stored, and one chart is live on the dashboard, none on the login view |
| `ViewMachine.RunStoresLastIdentity` | script.js:44-67 | the identity stored after any sequence of events is the e-mail of the last accepted login, or none if a logout came later; when neither an accepted login nor a logout happens, the identity stored at the start stays |
| `Script.App.constructor` | script.js:2-13 | a loaded page keeps the stored identity and has no chart object yet |
| `Script.App.Init` | script.js:16-19 | init runs the session check and leaves the state consistent |
| `Script.App.CheckSession` | script.js:34-41 | the new state is the session-check transition; the dashboard is visible exactly when a truthy identity is stored |
| `Script.App.HandleLogin` | script.js:44-60 | the new state is the login transition; the alert is raised exactly when a field is empty, and then nothing changes; otherwise the e-mail is stored and the state is consistent |
| `Script.App.HandleLogout` | script.js:63-67 | the new state is the logout transition: no identity, only login visible, no live chart |
| `Script.App.ShowDashboard` | script.js:70-79 | the new state is the show-dashboard transition: only the dashboard visible, greeting for the e-mail, one live chart |
| `Script.App.ShowLogin` | script.js:82-90 | the new state is the show-login transition: only login visible, no live chart, chart reference kept |
| `Script.App.RenderPerformanceChart` | script.js:93-133 | the new state is the render transition: one live chart, the referenced one, with the fixed dataset; the previous chart is no longer live |

## Left out

- DOM element lookup and the listener wiring (script.js:4-13, 22-31, 137-139): the handlers are called directly. The form's input values are parameters of `Script.App.HandleLogin`.
- The markup the page starts with is not part of this model. The constructor takes its initial container visibility and header text as a `Markup` parameter.
- `console.log` messages and the alert's text (script.js:51, 58, 64): output only. `Script.App.HandleLogin` returns whether the alert was raised.
- Chart.js internals: `getContext('2d')`, colours, tension, fill, scales, legend and tooltip options (script.js:94, 108-131). Only create, destroy, the dataset and the set of live charts are kept.
- Local storage beyond the one `loggedInUser` slot: other keys and storage errors such as quota or disabled storage.
- Page reload is modelled only as a fresh `Loaded` state followed by the session check (`ViewMachine.ReloadRestoresView`). It is not an `Event` of `Run`.
