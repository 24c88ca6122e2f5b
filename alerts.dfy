/**
 * The selection and counting logic of the Alerts page: the severity filter
 * with its 'all' tab, the Unresolved / Critical / Warnings / Active Rules
 * summary cards, and the Acknowledge / Dismiss actions. The same
 * unresolved rule feeds the sidebar badge and the dashboard's
 * "recent alerts" panel.
 */
module Alerts {

  /** One alert as the alert list holds it. */
  datatype Alert = Alert(
    id: int,
    severity: string,   // 'critical', 'warning' or 'info'
    title: string,
    description: string,
    provider: string,
    timestamp: string,
    acknowledged: bool)

  /** One alert rule of the Rules tab. */
  datatype AlertRule = AlertRule(
    id: int,
    name: string,
    kind: string,
    condition: string,
    providers: seq<string>,
    enabled: bool,
    channel: string)

  /** The tab that shows every alert. */
  const AllTab: string := "all"

  // ----- Array.prototype.filter and its properties -----

  /** `xs.filter(keep)`: the elements that satisfy `keep`, in their order. */
  function Filter<T(==)>(xs: seq<T>, keep: T -> bool): (r: seq<T>)
    ensures |r| <= |xs|
    ensures forall x :: x in r ==> x in xs && keep(x)
    ensures forall x :: x in xs && keep(x) ==> x in r
  {
    if xs == [] then []
    else (if keep(xs[0]) then [xs[0]] else []) + Filter(xs[1..], keep)
  }

  /** The positions of `xs` whose element satisfies `keep`: a reference
      definition of "the number of elements that satisfy keep". */
  ghost function IndicesWhere<T>(xs: seq<T>, keep: T -> bool): set<int> {
    set i | 0 <= i < |xs| && keep(xs[i])
  }

  /** Filtering a concatenation filters each part: the kept elements stay
      in their original order. */
  lemma {:induction false} FilterAppend<T>(xs: seq<T>, ys: seq<T>, keep: T -> bool)
    ensures Filter(xs + ys, keep) == Filter(xs, keep) + Filter(ys, keep)
  {
    if xs == [] {
      assert xs + ys == ys;
    } else {
      assert (xs + ys)[1..] == xs[1..] + ys;
      FilterAppend(xs[1..], ys, keep);
    }
  }

  /** Every element occurs in the result exactly as often as in the input
      when it is kept, and not at all otherwise. */
  lemma {:induction false} FilterMultiplicity<T>(xs: seq<T>, keep: T -> bool, x: T)
    ensures multiset(Filter(xs, keep))[x] == if keep(x) then multiset(xs)[x] else 0
  {
    if xs != [] {
      assert xs == [xs[0]] + xs[1..];
      FilterMultiplicity(xs[1..], keep, x);
    }
  }

  /** Appending one element adds its position to the kept positions
      exactly when it is kept. */
  lemma IndicesSnoc<T>(init: seq<T>, last: T, keep: T -> bool)
    ensures IndicesWhere(init + [last], keep)
         == IndicesWhere(init, keep) + (if keep(last) then {|init|} else {})
  {
    var xs := init + [last];
    forall i | 0 <= i < |init|
      ensures xs[i] == init[i]
    {
    }
  }

  /** The length of `xs.filter(keep)` is the number of positions whose
      element satisfies `keep`. */
  lemma {:induction false} FilterLengthCountsIndices<T>(xs: seq<T>, keep: T -> bool)
    ensures |Filter(xs, keep)| == |IndicesWhere(xs, keep)|
  {
    if xs == [] {
      assert IndicesWhere(xs, keep) == {};
    } else {
      var n := |xs| - 1;
      var init, last := xs[..n], xs[n];
      assert xs == init + [last];
      FilterLengthCountsIndices(init, keep);
      FilterAppend(init, [last], keep);
      assert Filter([last], keep) == if keep(last) then [last] else [];
      IndicesSnoc(init, last, keep);
      assert n !in IndicesWhere(init, keep);
    }
  }

  /** Two predicates that agree everywhere select the same elements. */
  lemma {:induction false} FilterAgreeing<T>(xs: seq<T>, p: T -> bool, q: T -> bool)
    requires forall x :: p(x) == q(x)
    ensures Filter(xs, p) == Filter(xs, q)
  {
    if xs != [] {
      FilterAgreeing(xs[1..], p, q);
    }
  }

  /** Elements satisfying `p` and elements satisfying `q`, when no element
      satisfies both, together number at most the whole sequence. */
  lemma {:induction false} DisjointFiltersFit<T>(xs: seq<T>, p: T -> bool, q: T -> bool)
    requires forall x :: x in xs ==> !(p(x) && q(x))
    ensures |Filter(xs, p)| + |Filter(xs, q)| <= |xs|
  {
    if xs != [] {
      assert forall x :: x in xs[1..] ==> x in xs;
      DisjointFiltersFit(xs[1..], p, q);
    }
  }

  /** Filtering a sub-selection never finds more than filtering the whole. */
  lemma {:induction false} FilterOfFilterFits<T>(xs: seq<T>, sel: T -> bool, keep: T -> bool)
    ensures |Filter(Filter(xs, sel), keep)| <= |Filter(xs, keep)|
  {
    if xs != [] {
      var x, rest := xs[0], xs[1..];
      FilterOfFilterFits(rest, sel, keep);
      assert Filter(xs, keep) == Filter([x], keep) + Filter(rest, keep);
      if sel(x) {
        assert Filter(xs, sel) == [x] + Filter(rest, sel);
        FilterAppend([x], Filter(rest, sel), keep);
      } else {
        assert Filter(xs, sel) == Filter(rest, sel);
      }
    }
  }

  // ----- The Alerts page -----

  /** The predicate of one severity tab: `a => a.severity === f`. */
  function SeverityIs(f: string): Alert -> bool {
    (a: Alert) => a.severity == f
  }

  /** An alert that nobody has acknowledged yet. */
  predicate Unresolved(a: Alert) {
    !a.acknowledged
  }

  /** A rule whose toggle is on. */
  predicate Enabled(r: AlertRule) {
    r.enabled
  }

  /** The list shown under the current filter tab. */
  function FilteredAlerts(alerts: seq<Alert>, filter: string): (r: seq<Alert>)
    ensures filter == AllTab ==> r == alerts
    ensures filter != AllTab ==> forall a :: a in r <==> a in alerts && a.severity == filter
    ensures |r| <= |alerts|
  {
    if filter == AllTab then alerts else Filter(alerts, SeverityIs(filter))
  }

  /** A severity tab keeps exactly the alerts of that severity, each as many
      times as it occurs in the full list, and in the list's order. */
  lemma {:induction false} SeverityTabExact(alerts: seq<Alert>, more: seq<Alert>, f: string, a: Alert)
    requires f != AllTab
    ensures multiset(FilteredAlerts(alerts, f))[a] == if a.severity == f then multiset(alerts)[a] else 0
    ensures FilteredAlerts(alerts + more, f) == FilteredAlerts(alerts, f) + FilteredAlerts(more, f)
  {
    FilterMultiplicity(alerts, SeverityIs(f), a);
    FilterAppend(alerts, more, SeverityIs(f));
  }

  /** Two different severity tabs never show the same alert, and together
      they show at most every alert once. */
  lemma SeverityTabsDisjoint(alerts: seq<Alert>, f: string, g: string)
    requires f != AllTab && g != AllTab && f != g
    ensures forall a :: a in FilteredAlerts(alerts, f) ==> a !in FilteredAlerts(alerts, g)
    ensures |FilteredAlerts(alerts, f)| + |FilteredAlerts(alerts, g)| <= |alerts|
  {
    DisjointFiltersFit(alerts, SeverityIs(f), SeverityIs(g));
  }

  /** The Unresolved card: `alerts.filter(a => !a.acknowledged).length`. */
  function UnresolvedCount(alerts: seq<Alert>): (n: nat)
    ensures n == |IndicesWhere(alerts, Unresolved)|
    ensures n <= |alerts|
  {
    FilterLengthCountsIndices(alerts, Unresolved);
    |Filter(alerts, Unresolved)|
  }

  /** The number of alerts of one severity (the Critical Alerts and
      Warnings cards). */
  function SeverityCount(alerts: seq<Alert>, f: string): (n: nat)
    ensures n == |IndicesWhere(alerts, SeverityIs(f))|
  {
    FilterLengthCountsIndices(alerts, SeverityIs(f));
    |Filter(alerts, SeverityIs(f))|
  }

  /** The Critical Alerts card. */
  function CriticalCount(alerts: seq<Alert>): (n: nat)
    ensures n == |IndicesWhere(alerts, SeverityIs("critical"))|
  {
    SeverityCount(alerts, "critical")
  }

  /** The Warnings card. */
  function WarningCount(alerts: seq<Alert>): (n: nat)
    ensures n == |IndicesWhere(alerts, SeverityIs("warning"))|
  {
    SeverityCount(alerts, "warning")
  }

  /** The Critical Alerts and Warnings cards never add up to more than the
      number of alerts. */
  lemma CriticalAndWarningsFit(alerts: seq<Alert>)
    ensures CriticalCount(alerts) + WarningCount(alerts) <= |alerts|
  {
    DisjointFiltersFit(alerts, SeverityIs("critical"), SeverityIs("warning"));
  }

  /** The Active Rules card: `alertRules.filter(r => r.enabled).length`. */
  function ActiveRulesCount(rules: seq<AlertRule>): (n: nat)
    ensures n == |IndicesWhere(rules, Enabled)|
    ensures n <= |rules|
  {
    FilterLengthCountsIndices(rules, Enabled);
    |Filter(rules, Enabled)|
  }

  /** An alert row carries the Acknowledge and Dismiss buttons: the row
      tests `!alert.acknowledged`, which is the unresolved rule itself, so
      the two coincide by construction. */
  predicate OffersActions(a: Alert) {
    Unresolved(a)
  }

  /** The rows offering actions are unresolved alerts; under any tab there
      are at most as many as the Unresolved card shows, and under the 'all'
      tab exactly as many. */
  lemma ActionsMatchUnresolved(alerts: seq<Alert>, filter: string)
    ensures forall a :: a in FilteredAlerts(alerts, filter) && OffersActions(a) ==> a in alerts && Unresolved(a)
    ensures |Filter(FilteredAlerts(alerts, filter), OffersActions)| <= UnresolvedCount(alerts)
    ensures filter == AllTab ==> |Filter(FilteredAlerts(alerts, filter), OffersActions)| == UnresolvedCount(alerts)
  {
    FilterAgreeing(FilteredAlerts(alerts, filter), OffersActions, Unresolved);
    if filter != AllTab {
      FilterOfFilterFits(alerts, SeverityIs(filter), Unresolved);
    }
  }

  /** The dashboard's recent-alerts panel: the first four unresolved alerts,
      `alerts.filter(a => !a.acknowledged).slice(0, 4)`. */
  function RecentAlerts(alerts: seq<Alert>): (r: seq<Alert>)
    ensures |r| == if UnresolvedCount(alerts) < 4 then UnresolvedCount(alerts) else 4
    ensures r <= Filter(alerts, Unresolved)
    ensures forall a :: a in r ==> a in alerts && Unresolved(a)
  {
    var open := Filter(alerts, Unresolved);
    if |open| < 4 then open else open[..4]
  }
}
