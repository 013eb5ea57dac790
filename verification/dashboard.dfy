/**
 * The staff dashboard's state: the cases loaded from the listing endpoint, the two filters
 * (urgency level and status), the counters shown on the cards, and the filtered list the
 * page displays. Rendering is left out; what is modelled is which cases are shown and what
 * the counters say.
 */
module Dashboard {
  import opened Wrappers
  import opened Json
  import Triage
  import V = Validators
  import Seqs
  import Store

  /** The urgency selector: every level, or one level. */
  datatype UrgencyFilter = AllLevels | OnlyLevel(level: Triage.UrgencyLevel)

  /** The status selector: every status, or one status. */
  datatype StatusFilter = AllStatus | OnlyStatus(status: V.CaseStatus)

  /** The five counters on the cards. */
  datatype Stats = Stats(total: nat, emergency: nat, urgent: nat, open: nat, distressed: nat)

  /** The page's state. */
  datatype View = View(allCases: seq<Store.TriageCase>, urgency: UrgencyFilter, status: StatusFilter, stats: Stats)

  /** The result of loading the page: a redirect to the login page, or the page with its state. */
  datatype Loaded = Redirect(url: string) | Shown(view: View)

  const LoginRedirect: string := "/auth/login?redirect=/staff/dashboard"

  predicate HasLevel(c: Store.TriageCase, u: Triage.UrgencyLevel) {
    c.urgencyLevel == Some(u)
  }

  predicate HasStatus(c: Store.TriageCase, s: V.CaseStatus) {
    c.status == s
  }

  /** `structuredData?.emotionalState` is "distressed" or "panicked". */
  predicate Distressed(c: Store.TriageCase) {
    var state := OptionalMember(Some(c.structuredData), "emotionalState");
    state == Some(JString("distressed")) || state == Some(JString("panicked"))
  }

  /** A case passes the urgency selector. */
  predicate PassesUrgency(f: UrgencyFilter, c: Store.TriageCase) {
    f.AllLevels? || HasLevel(c, f.level)
  }

  /** A case passes the status selector. */
  predicate PassesStatus(f: StatusFilter, c: Store.TriageCase) {
    f.AllStatus? || HasStatus(c, f.status)
  }

  /** `applyFilters`: the urgency selector first, then the status selector, each skipped when set to all. */
  function ApplyFilters(cases: seq<Store.TriageCase>, u: UrgencyFilter, s: StatusFilter): (r: seq<Store.TriageCase>)
    ensures |r| <= |cases|
    ensures forall i :: 0 <= i < |r| ==> PassesUrgency(u, r[i]) && PassesStatus(s, r[i])
    ensures forall i :: 0 <= i < |cases| && PassesUrgency(u, cases[i]) && PassesStatus(s, cases[i]) ==> cases[i] in r
  {
    var byLevel := if u.AllLevels? then cases else Seqs.Filter(c => HasLevel(c, u.level), cases);
    var r := if s.AllStatus? then byLevel else Seqs.Filter(c => HasStatus(c, s.status), byLevel);
    assert forall i :: 0 <= i < |byLevel| ==> PassesUrgency(u, byLevel[i]);
    forall i | 0 <= i < |cases| && PassesUrgency(u, cases[i]) && PassesStatus(s, cases[i]) ensures cases[i] in r {
      var j :| 0 <= j < |byLevel| && byLevel[j] == cases[i];
    }
    r
  }

  predicate IsEmergency(c: Store.TriageCase) {
    HasLevel(c, Triage.Emergency)
  }

  predicate IsUrgent(c: Store.TriageCase) {
    HasLevel(c, Triage.UrgentVisit)
  }

  predicate IsOpen(c: Store.TriageCase) {
    HasStatus(c, V.Open)
  }

  /** The counters computed from the loaded cases: each card counts the cases of its kind. */
  function StatsOf(cases: seq<Store.TriageCase>): (st: Stats)
    ensures st.total == |cases|
    ensures st.emergency == Seqs.Count(IsEmergency, cases)
    ensures st.urgent == Seqs.Count(IsUrgent, cases)
    ensures st.open == Seqs.Count(IsOpen, cases)
    ensures st.distressed == Seqs.Count(Distressed, cases)
    ensures st.emergency + st.urgent <= st.total
  {
    Seqs.CountIsFilterLength(IsEmergency, cases);
    Seqs.CountIsFilterLength(IsUrgent, cases);
    Seqs.CountIsFilterLength(IsOpen, cases);
    Seqs.CountIsFilterLength(Distressed, cases);
    LevelCountsDisjoint(cases);
    Stats(|cases|, |Seqs.Filter(IsEmergency, cases)|, |Seqs.Filter(IsUrgent, cases)|,
          |Seqs.Filter(IsOpen, cases)|, |Seqs.Filter(Distressed, cases)|)
  }

  /** No case counts as both an emergency and an urgent visit. */
  lemma {:induction false} LevelCountsDisjoint(cases: seq<Store.TriageCase>)
    ensures Seqs.Count(IsEmergency, cases) + Seqs.Count(IsUrgent, cases) <= |cases|
    decreases |cases|
  {
    if |cases| > 0 {
      LevelCountsDisjoint(cases[1..]);
    }
  }

  /** `fetchDashboardData`: without a token, redirect; on a failed fetch, keep the state; otherwise load the cases and their counters. */
  function Load(v: View, token: Option<string>, fetched: Option<seq<Store.TriageCase>>): (r: Loaded)
    ensures (token.None? || token == Some("")) <==> r.Redirect?
    ensures r.Redirect? ==> r.url == LoginRedirect
    ensures r.Shown? && fetched.None? ==> r.view == v
    ensures r.Shown? && fetched.Some? ==>
              r.view.allCases == fetched.value && r.view.stats == StatsOf(fetched.value)
              && r.view.urgency == v.urgency && r.view.status == v.status
  {
    if token.None? || token == Some("") then Redirect(LoginRedirect)
    else if fetched.None? then Shown(v)
    else Shown(v.(allCases := fetched.value, stats := StatsOf(fetched.value)))
  }

  /** The cases the page lists. */
  function Displayed(v: View): seq<Store.TriageCase> {
    ApplyFilters(v.allCases, v.urgency, v.status)
  }

  /** A click on the emergency or urgent card: select that level, or back to all when it was selected. */
  function ToggleLevel(v: View, u: Triage.UrgencyLevel): (r: View)
    ensures r.allCases == v.allCases && r.status == v.status && r.stats == v.stats
    ensures v.urgency == OnlyLevel(u) ==> r.urgency == AllLevels
    ensures v.urgency != OnlyLevel(u) ==> r.urgency == OnlyLevel(u)
  {
    v.(urgency := if v.urgency == OnlyLevel(u) then AllLevels else OnlyLevel(u))
  }

  /** A click on the open-cases card. */
  function ToggleOpen(v: View): (r: View)
    ensures r.allCases == v.allCases && r.urgency == v.urgency && r.stats == v.stats
    ensures v.status == OnlyStatus(V.Open) ==> r.status == AllStatus
    ensures v.status != OnlyStatus(V.Open) ==> r.status == OnlyStatus(V.Open)
  {
    v.(status := if v.status == OnlyStatus(V.Open) then AllStatus else OnlyStatus(V.Open))
  }

  /** `clearFilters`. */
  function ClearFilters(v: View): (r: View)
    ensures r.allCases == v.allCases && r.stats == v.stats
    ensures ActiveFilters(r) == 0
  {
    v.(urgency := AllLevels, status := AllStatus)
  }

  /** `activeFiltersCount`: the number of selectors not set to all. */
  function ActiveFilters(v: View): (n: nat)
    ensures n <= 2
    ensures n == 0 <==> v.urgency.AllLevels? && v.status.AllStatus?
    ensures n == 2 <==> v.urgency.OnlyLevel? && v.status.OnlyStatus?
  {
    (if v.urgency.AllLevels? then 0 else 1) + (if v.status.AllStatus? then 0 else 1)
  }

  // ---- properties of the dashboard ----

  /** The listed cases are a subsequence of the loaded ones, and a case is listed exactly when it passes both selectors. */
  lemma DisplayedIsSelection(v: View, c: Store.TriageCase)
    ensures Seqs.IsSubsequence(Displayed(v), v.allCases)
    ensures c in Displayed(v) <==> c in v.allCases && PassesUrgency(v.urgency, c) && PassesStatus(v.status, c)
  {
    var cases := v.allCases;
    var byLevel := if v.urgency.AllLevels? then cases else Seqs.Filter(c => HasLevel(c, v.urgency.level), cases);
    if v.urgency.OnlyLevel? {
      Seqs.FilterIsSubsequence(c => HasLevel(c, v.urgency.level), cases);
      Seqs.FilterMembers(c => HasLevel(c, v.urgency.level), cases);
    } else {
      Seqs.SubsequenceReflexive(cases);
    }
    if v.status.OnlyStatus? {
      Seqs.FilterIsSubsequence(c => HasStatus(c, v.status.status), byLevel);
      Seqs.FilterMembers(c => HasStatus(c, v.status.status), byLevel);
      Seqs.SubsequenceTransitive(Displayed(v), byLevel, cases);
    }
  }

  /** With no selector set, every loaded case is listed, in order. */
  lemma NoFiltersShowsAll(v: View)
    requires ActiveFilters(v) == 0
    ensures Displayed(v) == v.allCases
  {
  }

  /** The two selectors commute: filtering by status first lists the same cases in the same order. */
  lemma FiltersCommute(cases: seq<Store.TriageCase>, u: Triage.UrgencyLevel, s: V.CaseStatus)
    ensures ApplyFilters(cases, OnlyLevel(u), OnlyStatus(s))
            == Seqs.Filter(c => HasLevel(c, u), Seqs.Filter(c => HasStatus(c, s), cases))
  {
    var both := c => HasLevel(c, u) && HasStatus(c, s);
    Seqs.FilterFilter(c => HasLevel(c, u), c => HasStatus(c, s), both, cases);
    Seqs.FilterFilter(c => HasStatus(c, s), c => HasLevel(c, u), both, cases);
  }

  /** Each clickable card's counter is the number of cases the page lists once that card is selected. */
  lemma CardsCountTheirSelection(cases: seq<Store.TriageCase>)
    ensures |ApplyFilters(cases, OnlyLevel(Triage.Emergency), AllStatus)| == StatsOf(cases).emergency
    ensures |ApplyFilters(cases, OnlyLevel(Triage.UrgentVisit), AllStatus)| == StatsOf(cases).urgent
    ensures |ApplyFilters(cases, AllLevels, OnlyStatus(V.Open))| == StatsOf(cases).open
  {
    Seqs.FilterExtensional(c => HasLevel(c, Triage.Emergency), IsEmergency, cases);
    Seqs.FilterExtensional(c => HasLevel(c, Triage.UrgentVisit), IsUrgent, cases);
    Seqs.FilterExtensional(c => HasStatus(c, V.Open), IsOpen, cases);
  }

  /**
   * Right after a load with no selector set, a click on the emergency card lists as many
   * cases as its counter shows; a second click lists every case again.
   */
  lemma EmergencyCardMatchesCounter(v: View, token: Option<string>, cases: seq<Store.TriageCase>)
    requires token.Some? && token.value != ""
    requires v.urgency == AllLevels && v.status == AllStatus
    ensures |Displayed(ToggleLevel(Load(v, token, Some(cases)).view, Triage.Emergency))|
            == Load(v, token, Some(cases)).view.stats.emergency
    ensures Displayed(ToggleLevel(ToggleLevel(Load(v, token, Some(cases)).view, Triage.Emergency), Triage.Emergency)) == cases
  {
    CardsCountTheirSelection(cases);
  }

  /** Two clicks on the same card restore the selector. */
  lemma ToggleTwice(v: View, u: Triage.UrgencyLevel)
    requires v.urgency.AllLevels? || v.urgency == OnlyLevel(u)
    ensures ToggleLevel(ToggleLevel(v, u), u) == v
  {
  }

  /** The "Showing n of total" line never shows more cases than the total once loaded. */
  lemma ShowingAtMostTotal(v: View, token: Option<string>, cases: seq<Store.TriageCase>)
    requires Load(v, token, Some(cases)).Shown?
    ensures |Displayed(Load(v, token, Some(cases)).view)| <= Load(v, token, Some(cases)).view.stats.total
  {
  }
}
