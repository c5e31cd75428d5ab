/**
 * The decision helpers inside the dashboard page component (app/page.tsx):
 * the risk badge, the status icon and label, the algorithm toggle and the
 * settings switch with its rollback, the category-risk classification, the
 * enabled-only performance chart and the tab dispatcher. The page replaces
 * whole lists through `setAlgorithms`, so every helper is a function from the
 * old list to the new one.
 */
module Page {
  import opened Wrappers
  import opened Sequences
  import opened DataService

  // ---------------------------------------------------------------------------
  // Risk badge of the contracts table
  // ---------------------------------------------------------------------------

  /** `getRiskBadge(score)`: which of the three badges a score gets. */
  function GetRiskBadge(score: real): (level: RiskLevel)
    ensures InBand(level, score)
  {
    if score >= 80.0 then High else if score >= 40.0 then Medium else Low
  }

  /** The text on each badge. */
  function BadgeText(level: RiskLevel): string {
    match level
    case High => "Высокий"
    case Medium => "Средний"
    case Low => "Низкий"
  }

  /** A score shows a badge exactly when it lies in that band of the contract filter. */
  lemma RiskBadgeIsFilterBand(score: real, level: RiskLevel)
    ensures GetRiskBadge(score) == level <==> InBand(level, score)
  {
    BandsAreExclusive(score);
  }

  /**
   * Filtering the contracts by a risk level keeps exactly the contracts whose
   * badge shows that level.
   */
  lemma FilteredContractsShowTheirBadge(contracts: seq<Contract>, level: RiskLevel)
    ensures forall c :: c in GetContracts(contracts, Some(RiskLevelFilter(level))) <==>
      c in contracts && GetRiskBadge(c.riskScore) == level
  {
    forall c: Contract {
      RiskBadgeIsFilterBand(c.riskScore, level);
    }
  }

  // ---------------------------------------------------------------------------
  // Status icon and label
  // ---------------------------------------------------------------------------

  datatype StatusIcon = CheckCircle | Clock | AlertCircle

  /** `getStatusIcon(status)`: anything but the two known states falls to the alert icon. */
  function GetStatusIcon(status: Status): (icon: StatusIcon)
    ensures icon == CheckCircle <==> status == Completed
    ensures icon == Clock <==> status == InProgress
  {
    match status
    case Completed => CheckCircle
    case InProgress => Clock
    case Cancelled => AlertCircle
  }

  const CompletedLabel: string := "Завершен"
  const InProgressLabel: string := "В процессе"

  /** The status text next to the icon: only a completed contract is labelled completed. */
  function StatusLabel(status: Status): (shown: string)
    ensures shown == CompletedLabel <==> status == Completed
    ensures shown == InProgressLabel <==> status != Completed
  {
    if status == Completed then CompletedLabel
    else assert InProgressLabel[0] != CompletedLabel[0]; InProgressLabel
  }

  /**
   * The label says "Завершен" exactly when the icon is the check mark; a
   * cancelled contract shows the alert icon next to the "В процессе" text.
   */
  lemma StatusLabelFollowsIcon(status: Status)
    ensures StatusLabel(status) == CompletedLabel <==> GetStatusIcon(status) == CheckCircle
    ensures status == Cancelled ==> GetStatusIcon(status) == AlertCircle && StatusLabel(status) == InProgressLabel
  {
  }

  // ---------------------------------------------------------------------------
  // Algorithm toggle and settings switch
  // ---------------------------------------------------------------------------

  /** No two entries share a name, as in the shipped algorithm list. */
  predicate NamesDistinct(algorithms: seq<AlgorithmMetrics>) {
    forall i, j :: 0 <= i < j < |algorithms| ==> algorithms[i].name != algorithms[j].name
  }

  /** `toggleAlgorithm`'s map: every entry called `name` has `enabled` flipped. */
  function ToggleAlgorithm(algorithms: seq<AlgorithmMetrics>, name: string): (r: seq<AlgorithmMetrics>)
    ensures |r| == |algorithms|
    ensures forall i :: 0 <= i < |r| ==> r[i].(enabled := algorithms[i].enabled) == algorithms[i]
    ensures forall i :: 0 <= i < |r| ==> (r[i].enabled != algorithms[i].enabled <==> algorithms[i].name == name)
  {
    seq(|algorithms|, i requires 0 <= i < |algorithms| =>
      if algorithms[i].name == name then algorithms[i].(enabled := !algorithms[i].enabled) else algorithms[i])
  }

  /** Toggling the same algorithm twice gives back the list it started from. */
  lemma ToggleTwiceRestores(algorithms: seq<AlgorithmMetrics>, name: string)
    ensures ToggleAlgorithm(ToggleAlgorithm(algorithms, name), name) == algorithms
  {
    var twice := ToggleAlgorithm(ToggleAlgorithm(algorithms, name), name);
    forall i | 0 <= i < |algorithms| ensures twice[i] == algorithms[i] {
    }
  }

  /**
   * The `enabled` value `toggleAlgorithm` sends to the server:
   * `!algorithms.find(a => a.name === name)?.enabled`, read from the list as it
   * was before the toggle; `!undefined` is `true` when no entry has the name.
   */
  function ServerEnabledValue(algorithms: seq<AlgorithmMetrics>, name: string): (b: bool)
    ensures IndexOfName(algorithms, name) == -1 ==> b
    ensures forall k ::
      (0 <= k < |algorithms| && algorithms[k].name == name && forall i :: 0 <= i < k ==> algorithms[i].name != name)
      ==> b == !algorithms[k].enabled
  {
    var k := IndexOfName(algorithms, name);
    if k == -1 then true else !algorithms[k].enabled
  }

  /**
   * With distinct names, the server-side update `toggleAlgorithm` sends leaves
   * the store's list equal to the page's toggled list.
   */
  lemma ToggleAgreesWithStore(algorithms: seq<AlgorithmMetrics>, name: string)
    requires NamesDistinct(algorithms)
    ensures UpdatedAlgorithms(algorithms, name, EnabledSetting(ServerEnabledValue(algorithms, name)))
         == ToggleAlgorithm(algorithms, name)
  {
    var k := IndexOfName(algorithms, name);
    var stored := UpdatedAlgorithms(algorithms, name, EnabledSetting(ServerEnabledValue(algorithms, name)));
    var toggled := ToggleAlgorithm(algorithms, name);
    if k != -1 {
      MergeEnabledOnly(algorithms[k], !algorithms[k].enabled);
      forall i | 0 <= i < |algorithms| ensures stored[i] == toggled[i] {
        if i != k {
          assert algorithms[i].name != name;
        }
      }
    }
  }

  /** The switch handler's map: every entry called `name` gets `enabled := checked`. */
  function SetEnabled(algorithms: seq<AlgorithmMetrics>, name: string, checked: bool): (r: seq<AlgorithmMetrics>)
    ensures |r| == |algorithms|
    ensures forall i :: 0 <= i < |r| ==> r[i].(enabled := algorithms[i].enabled) == algorithms[i]
    ensures forall i :: 0 <= i < |r| && algorithms[i].name == name ==> r[i].enabled == checked
    ensures forall i :: 0 <= i < |r| && algorithms[i].name != name ==> r[i] == algorithms[i]
  {
    seq(|algorithms|, i requires 0 <= i < |algorithms| =>
      if algorithms[i].name == name then algorithms[i].(enabled := checked) else algorithms[i])
  }

  /** Flipping the switch to the same position twice is the same as doing it once. */
  lemma SetEnabledIdempotent(algorithms: seq<AlgorithmMetrics>, name: string, checked: bool)
    ensures SetEnabled(SetEnabled(algorithms, name, checked), name, checked) == SetEnabled(algorithms, name, checked)
  {
    var once := SetEnabled(algorithms, name, checked);
    var twice := SetEnabled(once, name, checked);
    forall i | 0 <= i < |algorithms| ensures twice[i] == once[i] {
    }
  }

  /**
   * With distinct names, the `{ enabled: checked }` update the switch sends
   * leaves the store's list equal to the page's list.
   */
  lemma SwitchAgreesWithStore(algorithms: seq<AlgorithmMetrics>, name: string, checked: bool)
    requires NamesDistinct(algorithms)
    ensures UpdatedAlgorithms(algorithms, name, EnabledSetting(checked)) == SetEnabled(algorithms, name, checked)
  {
    var k := IndexOfName(algorithms, name);
    var stored := UpdatedAlgorithms(algorithms, name, EnabledSetting(checked));
    var shown := SetEnabled(algorithms, name, checked);
    if k != -1 {
      MergeEnabledOnly(algorithms[k], checked);
      forall i | 0 <= i < |algorithms| ensures stored[i] == shown[i] {
        if i != k {
          assert algorithms[i].name != name;
        }
      }
    }
  }

  /** How the awaited `updateAlgorithmSettings` call ended. */
  datatype UpdateOutcome = Resolved | Rejected

  /**
   * The list the page holds once the switch handler has finished: the
   * optimistic update, rolled back to the list the handler started from when
   * the server call is rejected.
   */
  function SwitchHandler(prior: seq<AlgorithmMetrics>, name: string, checked: bool, outcome: UpdateOutcome): (r: seq<AlgorithmMetrics>)
    ensures outcome == Rejected ==> r == prior
    ensures outcome == Resolved ==> r == SetEnabled(prior, name, checked)
  {
    var optimistic := SetEnabled(prior, name, checked);
    match outcome
    case Resolved => optimistic
    case Rejected => prior
  }

  /**
   * The list the page holds once `toggleAlgorithm` has finished: a rejected
   * call is only logged, so the toggled list stays either way.
   */
  function ToggleHandler(prior: seq<AlgorithmMetrics>, name: string, outcome: UpdateOutcome): (r: seq<AlgorithmMetrics>)
    ensures r == ToggleAlgorithm(prior, name)
  {
    ToggleAlgorithm(prior, name)
  }

  /**
   * After either handler, whatever the outcome, the page list has the same
   * length and the same names as before, and entries with other names are untouched.
   */
  lemma HandlersKeepShape(prior: seq<AlgorithmMetrics>, name: string, checked: bool, outcome: UpdateOutcome)
    ensures |SwitchHandler(prior, name, checked, outcome)| == |prior|
    ensures |ToggleHandler(prior, name, outcome)| == |prior|
    ensures forall i :: 0 <= i < |prior| ==> SwitchHandler(prior, name, checked, outcome)[i].name == prior[i].name
    ensures forall i :: 0 <= i < |prior| ==> ToggleHandler(prior, name, outcome)[i].name == prior[i].name
    ensures forall i :: 0 <= i < |prior| && prior[i].name != name ==>
      SwitchHandler(prior, name, checked, outcome)[i] == prior[i] && ToggleHandler(prior, name, outcome)[i] == prior[i]
  {
    var switched := SwitchHandler(prior, name, checked, outcome);
    var toggled := ToggleHandler(prior, name, outcome);
    forall i | 0 <= i < |prior| ensures switched[i].name == prior[i].name {
      assert switched[i].(enabled := prior[i].enabled) == prior[i];
    }
    forall i | 0 <= i < |prior| ensures toggled[i].name == prior[i].name {
      assert toggled[i].(enabled := prior[i].enabled) == prior[i];
    }
  }

  // ---------------------------------------------------------------------------
  // Category risk table of the analytics view
  // ---------------------------------------------------------------------------

  datatype BadgeColour = Red | Yellow | Green

  /** The colour of the percentage badge: strictly above 20 red, strictly above 10 yellow. */
  function CategoryBadgeColour(risk: real): (colour: BadgeColour)
    ensures colour == Red <==> risk > 20.0
    ensures colour == Green <==> risk <= 10.0
  {
    if risk > 20.0 then Red else if risk > 10.0 then Yellow else Green
  }

  const AttentionText: string := "Требует внимания"
  const ModerateText: string := "Умеренный риск"
  const LowRiskText: string := "Низкий риск"

  /** The assessment text next to the badge, decided by its own comparisons. */
  function CategoryRiskText(risk: real): (text: string)
    ensures text == AttentionText <==> risk > 20.0
    ensures text == LowRiskText <==> risk <= 10.0
  {
    assert AttentionText[0] != ModerateText[0] && AttentionText[0] != LowRiskText[0] && ModerateText[0] != LowRiskText[0];
    if risk > 20.0 then AttentionText else if risk > 10.0 then ModerateText else LowRiskText
  }

  /**
   * The badge colour and the text always tell the same story, and the bounds
   * are strict: 20 itself is moderate and 10 itself is low.
   */
  lemma CategoryColourMatchesText(risk: real)
    ensures CategoryBadgeColour(risk) == Red <==> CategoryRiskText(risk) == AttentionText
    ensures CategoryBadgeColour(risk) == Yellow <==> CategoryRiskText(risk) == ModerateText
    ensures CategoryBadgeColour(risk) == Green <==> CategoryRiskText(risk) == LowRiskText
    ensures CategoryBadgeColour(20.0) == Yellow && CategoryBadgeColour(10.0) == Green
  {
    assert AttentionText[0] != ModerateText[0] && AttentionText[0] != LowRiskText[0] && ModerateText[0] != LowRiskText[0];
  }

  /** A higher risk never gets a milder colour. */
  lemma CategoryColourMonotone(a: real, b: real)
    requires a <= b
    ensures CategoryBadgeColour(a) == Red ==> CategoryBadgeColour(b) == Red
    ensures CategoryBadgeColour(a) == Yellow ==> CategoryBadgeColour(b) != Green
  {
  }

  // ---------------------------------------------------------------------------
  // Performance chart
  // ---------------------------------------------------------------------------

  /** `algorithms.filter((alg) => alg.enabled)`: the bars of the performance chart. */
  function EnabledForChart(algorithms: seq<AlgorithmMetrics>): (r: seq<AlgorithmMetrics>)
    ensures forall a :: a in r <==> a in algorithms && a.enabled
  {
    Filter(algorithms, (a: AlgorithmMetrics) => a.enabled)
  }

  /**
   * The chart shows the enabled algorithms in list order, each as often as it
   * occurs, and nothing else.
   */
  lemma ChartShowsEnabledInOrder(algorithms: seq<AlgorithmMetrics>)
    ensures IsSubsequence(EnabledForChart(algorithms), algorithms)
    ensures |EnabledForChart(algorithms)| == Count(algorithms, (a: AlgorithmMetrics) => a.enabled)
    ensures forall i :: 0 <= i < |EnabledForChart(algorithms)| ==> EnabledForChart(algorithms)[i].enabled
  {
    FilterIsSubsequence(algorithms, (a: AlgorithmMetrics) => a.enabled);
    FilterLength(algorithms, (a: AlgorithmMetrics) => a.enabled);
  }

  /** Switching an algorithm off removes it from the chart; switching it on puts it there. */
  lemma SwitchControlsChart(algorithms: seq<AlgorithmMetrics>, name: string, checked: bool, i: int)
    requires 0 <= i < |algorithms| && algorithms[i].name == name
    ensures SetEnabled(algorithms, name, checked)[i] in EnabledForChart(SetEnabled(algorithms, name, checked)) <==> checked
  {
  }

  // ---------------------------------------------------------------------------
  // Tab dispatcher
  // ---------------------------------------------------------------------------

  datatype View = Dashboard | DetectionSystem | ContractsView | Analytics | ApiSettings

  /** The tab id that selects each view. */
  function TabId(view: View): string {
    match view
    case Dashboard => "dashboard"
    case DetectionSystem => "detection"
    case ContractsView => "contracts"
    case Analytics => "analytics"
    case ApiSettings => "api"
  }

  /** `renderContent()` for the active tab id; unknown ids show the dashboard. */
  function RenderContent(activeTab: string): (view: View)
    ensures view != Dashboard ==> TabId(view) == activeTab
  {
    if activeTab == "dashboard" then Dashboard
    else if activeTab == "detection" then DetectionSystem
    else if activeTab == "contracts" then ContractsView
    else if activeTab == "analytics" then Analytics
    else if activeTab == "api" then ApiSettings
    else Dashboard
  }

  /** Every view is reached from its own tab id, and an id that is none of the five shows the dashboard. */
  lemma RenderContentRoundTrip(view: View, activeTab: string)
    ensures RenderContent(TabId(view)) == view
    ensures (forall v: View :: TabId(v) != activeTab) ==> RenderContent(activeTab) == Dashboard
  {
  }
}
