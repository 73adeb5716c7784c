/**
 * The dashboard shell's own rules (App.tsx): the simulated live data and the
 * bounds its random walk keeps, the alert and asset-status colour classes,
 * the striping of the asset table, and which content pane a tab shows.
 *
 * Each `Math.random()` draw is a `real` parameter in [0, 1); the timer that
 * fires the simulation every three seconds is the caller of `Tick`.
 */
module Dashboard {
  import opened Types

  // ---------------------------------------------------------------------
  // Colour classes
  // ---------------------------------------------------------------------

  const CriticalClass := "text-red-500 border-red-500/50 bg-red-500/10"
  const HighClass := "text-orange-500 border-orange-500/50 bg-orange-500/10"
  const MediumClass := "text-yellow-500 border-yellow-500/50 bg-yellow-500/10"
  const DefaultAlertClass := "text-blue-500 border-blue-500/50 bg-blue-500/10"

  /** The card colours of an alert: red, orange and yellow for the three upper levels, blue for the rest. */
  function AlertColour(level: AlertLevel): (c: string)
    ensures c == CriticalClass <==> level == Critical
    ensures c == HighClass <==> level == High
    ensures c == MediumClass <==> level == Medium
    ensures c == DefaultAlertClass <==> level == Low || level == Safe
  {
    match level
    case Critical => CriticalClass
    case High => HighClass
    case Medium => MediumClass
    case _ => DefaultAlertClass
  }

  const ActiveBadge := "bg-emerald-500/10 text-emerald-500"
  const MaintenanceBadge := "bg-red-500/10 text-red-500"
  const TransitBadge := "bg-yellow-500/10 text-yellow-500"
  const OtherBadge := "bg-slate-700 text-slate-400"

  /** The status badge of an asset row: emerald, red, yellow, and slate for anything else. */
  function StatusBadge(status: AssetStatus): (c: string)
    ensures c == ActiveBadge <==> status == Active
    ensures c == MaintenanceBadge <==> status == Maintenance
    ensures c == TransitBadge <==> status == Transit
    ensures c == OtherBadge <==> status == Offline
  {
    if status == Active then ActiveBadge
    else if status == Maintenance then MaintenanceBadge
    else if status == Transit then TransitBadge
    else assert status == Offline; OtherBadge
  }

  /** The background of asset-table row `index`. */
  function RowBackground(index: nat): (c: string)
    ensures c == "bg-slate-900" <==> index % 2 == 0
    ensures c == "bg-slate-850" <==> index % 2 == 1
  {
    if index % 2 == 0 then "bg-slate-900" else "bg-slate-850"
  }

  /** Neighbouring rows differ and every other row matches: the table is striped. */
  lemma RowsAlternate(index: nat)
    ensures RowBackground(index) != RowBackground(index + 1)
    ensures RowBackground(index) == RowBackground(index + 2)
  {
  }

  // ---------------------------------------------------------------------
  // Tabs and panes
  // ---------------------------------------------------------------------

  datatype Pane = OverviewPane | LogisticsPane | CommsPane | MapPane | RestrictedPane

  /** The pane a tab id is meant to show: the four named views, and the restricted notice for every other id. */
  function PaneFor(tab: string): Pane
  {
    match tab
    case "overview" => OverviewPane
    case "logistics" => LogisticsPane
    case "comms" => CommsPane
    case "map" => MapPane
    case _ => RestrictedPane
  }

  /**
   * The panes rendered for `tab`: five independent conditions, one per pane,
   * evaluated in the order the page lists them. Exactly one holds.
   */
  function PanesShown(tab: string): (shown: set<Pane>)
    ensures shown == {PaneFor(tab)}
  {
    (if tab == "overview" then {OverviewPane} else {})
    + (if tab == "logistics" then {LogisticsPane} else {})
    + (if tab == "comms" then {CommsPane} else {})
    + (if tab != "overview" && tab != "logistics" && tab != "comms" && tab != "map" then {RestrictedPane} else {})
    + (if tab == "map" then {MapPane} else {})
  }

  /** The four department tabs of the side bar all land on the restricted notice. */
  lemma DepartmentTabsRestricted()
    ensures PanesShown("disaster") == PanesShown("navy") == PanesShown("air") == PanesShown("cyber") == {RestrictedPane}
  {
  }

  // ---------------------------------------------------------------------
  // The simulated live data
  // ---------------------------------------------------------------------

  /** A value `Math.random()` can return. */
  predicate IsDraw(u: real)
  {
    0.0 <= u < 1.0
  }

  /** `Math.floor((u - 0.5) * 10)`: the change applied to a region's score. */
  function RiskDelta(u: real): (d: int)
    ensures d as real <= (u - 0.5) * 10.0 < d as real + 1.0
  {
    ((u - 0.5) * 10.0).Floor
  }

  /** Every draw gives a change between -5 and 4, and every change in that range can occur. */
  lemma RiskDeltaRange(u: real, d: int)
    requires IsDraw(u)
    ensures -5 <= RiskDelta(u) <= 4
    ensures -5 <= d <= 4 ==> IsDraw((d as real + 5.0) / 10.0) && RiskDelta((d as real + 5.0) / 10.0) == d
  {
  }

  /** `Math.min(100, Math.max(0, x))`. */
  function ClampScore(x: int): (y: int)
    ensures 0 <= y <= 100
    ensures 0 <= x <= 100 ==> y == x
    ensures x < 0 ==> y == 0
    ensures x > 100 ==> y == 100
  {
    if x < 0 then 0 else if x > 100 then 100 else x
  }

  /** The two draws one region uses on a tick: whether it updates, and by how much. */
  datatype RegionDraw = RegionDraw(gate: real, amount: real)

  /** One region on one tick: with probability 0.1 its score moves by the drawn change and is clamped to [0, 100]. */
  function StepRegion(r: RegionData, d: RegionDraw): (r': RegionData)
    ensures r'.(riskScore := r.riskScore) == r
    ensures d.gate <= 0.9 ==> r' == r
    ensures d.gate > 0.9 ==> 0 <= r'.riskScore <= 100
  {
    if d.gate > 0.9 then r.(riskScore := ClampScore(r.riskScore + RiskDelta(d.amount))) else r
  }

  /** A score in range moves by at most five down and four up in one tick. */
  lemma StepRegionMovesLittle(r: RegionData, d: RegionDraw)
    requires IsDraw(d.amount) && 0 <= r.riskScore <= 100
    ensures r.riskScore - 5 <= StepRegion(r, d).riskScore <= r.riskScore + 4
  {
  }

  /** The regional update of one tick: each region stepped with its own draws. */
  function StepRegions(regions: seq<RegionData>, draws: seq<RegionDraw>): (next: seq<RegionData>)
    requires |draws| == |regions|
    ensures |next| == |regions|
    ensures forall i :: 0 <= i < |next| ==> next[i].(riskScore := regions[i].riskScore) == regions[i]
    ensures forall i :: 0 <= i < |next| && draws[i].gate <= 0.9 ==> next[i] == regions[i]
    ensures forall i :: 0 <= i < |next| && draws[i].gate > 0.9 ==> 0 <= next[i].riskScore <= 100
  {
    seq(|regions|, i requires 0 <= i < |regions| => StepRegion(regions[i], draws[i]))
  }

  /**
   * The incident counter on one tick: with probability 0.2 it moves one up or
   * one down, but never below 5.
   */
  function StepIncidents(prev: int, gate: real, direction: real): (next: int)
    ensures gate <= 0.8 ==> next == prev
    ensures gate > 0.8 ==> next >= 5
    ensures gate > 0.8 && prev >= 5 && direction > 0.5 ==> next == prev + 1
    ensures gate > 0.8 && prev >= 6 && direction <= 0.5 ==> next == prev - 1
    ensures gate > 0.8 && prev == 5 && direction <= 0.5 ==> next == 5
  {
    if gate > 0.8 then
      var moved := prev + (if direction > 0.5 then 1 else -1);
      if moved > 5 then moved else 5
    else prev
  }

  /** The draws one tick of the simulation timer consumes (the network-load draw is not modelled). */
  datatype TickDraws = TickDraws(incidentGate: real, incidentDirection: real, regionDraws: seq<RegionDraw>)

  /** Every field of `r` but the score agrees with `base`. */
  predicate SameRegion(r: RegionData, base: RegionData)
  {
    r.(riskScore := base.riskScore) == base
  }

  /** The dashboard's state fields that the modelled rules read or write. */
  class DashboardState {
    var activeTab: string
    var activeIncidents: int
    var regionalData: seq<RegionData>

    /**
     * What every reachable state keeps: at least five incidents, and the
     * sample regions in their order with only their scores changed, each
     * within [0, 100].
     */
    ghost predicate Valid()
      reads this
    {
      && activeIncidents >= 5
      && |regionalData| == |RegionalData|
      && (forall i :: 0 <= i < |regionalData| ==> SameRegion(regionalData[i], RegionalData[i]))
      && (forall i :: 0 <= i < |regionalData| ==> 0 <= regionalData[i].riskScore <= 100)
    }

    constructor ()
      ensures Valid()
      ensures activeTab == "overview" && activeIncidents == 12 && regionalData == RegionalData
    {
      activeTab := "overview";
      activeIncidents := 12;
      regionalData := RegionalData;
    }

    /** A side-bar click or the "Return to Overview" button. */
    method SelectTab(tab: string)
      requires Valid()
      modifies this
      ensures Valid()
      ensures activeTab == tab
      ensures activeIncidents == old(activeIncidents) && regionalData == old(regionalData)
    {
      activeTab := tab;
    }

    /** The panes on screen now. */
    function VisiblePanes(): (shown: set<Pane>)
      reads this
      ensures |shown| == 1
    {
      PanesShown(activeTab)
    }

    /** One firing of the simulation timer. */
    method Tick(draws: TickDraws)
      requires Valid()
      requires |draws.regionDraws| == |regionalData|
      modifies this
      ensures Valid()
      ensures activeIncidents == StepIncidents(old(activeIncidents), draws.incidentGate, draws.incidentDirection)
      ensures regionalData == StepRegions(old(regionalData), draws.regionDraws)
      ensures activeTab == old(activeTab)
    {
      activeIncidents := StepIncidents(activeIncidents, draws.incidentGate, draws.incidentDirection);
      regionalData := StepRegions(regionalData, draws.regionDraws);
    }
  }
}
