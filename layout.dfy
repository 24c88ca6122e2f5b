/**
 * The sidebar of the page layout: its alert list, which a mount effect
 * tries to fill from `getAlerts()`, and the unresolved-alerts badge on the
 * "Alerts & Incidents" entry. Every protected route renders its page
 * inside this layout.
 */
module Layout {
  import opened Wrappers
  import opened Alerts
  import opened ApiService

  /** What a call hands back: a plain value, or a promise that resolves to one. */
  datatype Returned = Plain(items: seq<Alert>) | Resolved(items: seq<Alert>)

  /** The layout after its mount effect: it shows an alert list, or the
      effect threw and, with no error boundary above it, React unmounted
      the whole tree. */
  datatype Mounted = Shows(items: seq<Alert>) | Crashed

  /** What the screen holds: nothing, or a protected page whose sidebar
      entry carries the badge pill `pill` (`None` when no pill is drawn). */
  datatype Screen = Blank | Page(pill: Option<nat>)

  /** `getAlerts().then(setAlerts)`: a promise delivers its list to
      `setAlerts`; a plain array has no `then`, so the call throws a
      TypeError inside the effect. */
  function AfterMountEffect(returned: Returned): Mounted {
    match returned
    case Resolved(items) => Shows(items)
    case Plain(_) => Crashed
  }

  /** `alerts.filter(a => !a?.acknowledged).length`. */
  function Badge(alerts: seq<Alert>): (n: nat)
    ensures n == |IndicesWhere(alerts, Unresolved)|
  {
    UnresolvedCount(alerts)
  }

  /** `item.badge > 0 && <span className="nav-badge">{item.badge}</span>`:
      a zero count draws no pill. */
  function Pill(count: nat): Option<nat> {
    if count > 0 then Some(count) else None
  }

  /** The first paint, before any effect runs: `useState([])`. */
  function FirstPaint(): Screen {
    Page(Pill(Badge([])))
  }

  /** The screen once the mount effect has run. */
  function ScreenAfterMount(m: Mounted): Screen {
    match m
    case Shows(items) => Page(Pill(Badge(items)))
    case Crashed => Blank
  }

  /** The layout as written: `getAlerts()` returns the fixture array itself. */
  function SidebarAsWritten(data: MockData): Mounted {
    AfterMountEffect(Plain(data.alerts))
  }

  /** The layout as intended: the effect delivers the fixture alerts. */
  function Sidebar(data: MockData): Mounted {
    AfterMountEffect(Resolved(data.alerts))
  }

  /** As written, the first paint counts 0 unresolved alerts whatever the
      alerts are, so it draws no pill even when the Unresolved card is
      positive; once the effect has run the screen is blank for every alert
      list: no pill and no page, the Alerts page included. */
  lemma AsWrittenLayoutBlanks(data: MockData)
    ensures Badge([]) == 0 && FirstPaint() == Page(None)
    ensures UnresolvedCount(data.alerts) > 0 ==> FirstPaint() != ScreenAfterMount(Sidebar(data))
    ensures SidebarAsWritten(data) == Crashed
    ensures ScreenAfterMount(SidebarAsWritten(data)) == Blank
  {
  }

  /** As intended, once the effect has run the page is shown; its pill is
      drawn exactly when some alert is unacknowledged, and then shows the
      Alerts page's Unresolved card, at most the number of alerts and at
      least the length of the dashboard's recent panel. */
  lemma BadgeMatchesAlertsPage(data: MockData)
    ensures ScreenAfterMount(Sidebar(data)).Page?
    ensures ScreenAfterMount(Sidebar(data)).pill.Some? <==> exists a :: a in data.alerts && Unresolved(a)
    ensures ScreenAfterMount(Sidebar(data)).pill.Some? ==>
              && ScreenAfterMount(Sidebar(data)).pill.value == UnresolvedCount(data.alerts)
              && ScreenAfterMount(Sidebar(data)).pill.value <= |data.alerts|
              && |RecentAlerts(data.alerts)| <= ScreenAfterMount(Sidebar(data)).pill.value
  {
    var open := Filter(data.alerts, Unresolved);
    if |open| > 0 {
      assert open[0] in open;
    }
  }
}
