# AION-CORE Unified Command: a Dafny model of the dashboard's logic

AION-CORE is a single-screen command dashboard written in React. It shows
mock alerts, a logistics fleet, regional risk scores and a secure chat. This
project models the parts of it that are logic rather than markup, and proves
what they promise:

- **Risk map** (`risk_map.dfy`, module `RiskMap`). The node list is built
  from the regions. The link list joins every node to the next node and the
  one after, wrapping round. A region's risk score picks one of three tiers,
  and the tier gives the hexagon's fill and stroke. Under each node sits the
  label `Risk: <score>`. One render pass is a method with no side effects, `Render`, from the
  regions to an optional `Frame`. The result is `None` when there are no
  regions.
- **Logistics charts** (`charts.dfy`, module `Charts`). The per-status tally
  of the fleet is a loop over the assets. From it come the pie slices, one per
  distinct status in first-occurrence order. The slice colours cycle through a
  four-colour palette by position. The capacity bars carry shortened asset
  names, built the way JavaScript's `split(' ')` works.
- **Dashboard rules** (`app.dfy`, module `Dashboard`). These are the
  simulated live data (incident counter and regional risk scores), the alert
  and status-badge colour classes, the striping of the asset table, and which
  content pane a tab id shows. The state the timer updates is the class
  `DashboardState`. Its invariant `Valid` holds from the constructor on and
  survives every `Tick`: at least five incidents, the seven regions kept in
  their order with only their scores changed, and every score in [0, 100].
- **Secure chat** (`chat_module.dfy`, module `Chat`). The class `ChatModule`
  has two fields, `messages` and `input`. `HandleSend` appends one message
  and clears the input, or does nothing when the input is blank under
  JavaScript's `trim`.
- **Entities and sample data** (`types.dfy`, module `Types`). These are the
  records of `types.ts` and the sample data of `constants.ts`: seven regions,
  five assets, three messages, four alerts and the current user.

Every `Math.random()` draw becomes a `real` parameter in [0, 1). Message ids
and time stamps come from the clock in the source; here they are parameters.

Two edge behaviours of the code:

- The link list has exactly 2N entries for every N, not only for N ≥ 3. For
  N < 3 some links repeat or are self-loops, and every node still has out- and
  in-degree 2.
- With no regions the effect returns before it clears the surface. The
  previous drawing therefore stays on screen; it is not replaced by an empty
  one. `Render` returns `None` in this case.

## Model

| member | source | states |
|---|---|---|
| `RiskMap.TierOf` | components/RiskMap.tsx:74-78 | A score above 50 is high risk, one in (30, 50] is moderate, and everything else is low. Each tier holds exactly when its condition holds. |
| `RiskMap.FillOf` | components/RiskMap.tsx:74-78 | The fill that the threshold chain picks is always the fixed fill colour of the score's tier. |
| `RiskMap.StrokeOf` | components/RiskMap.tsx:79-83 | The stroke chain uses the same thresholds, so it always picks the stroke colour of the score's tier. |
| `RiskMap.TierBoundaries` | components/RiskMap.tsx:75-77 | 30 is low, 31 and 50 are moderate, 51 is high. The fills agree. |
| `RiskMap.TierMonotone` | components/RiskMap.tsx:74-78 | A higher score never falls in a less severe tier. |
| `RiskMap.FillAndStrokeAgree` | components/RiskMap.tsx:74-83 | Two scores share a fill iff they share a tier iff they share a stroke. |
| `RiskMap.NatToDecimal` | components/RiskMap.tsx:100 | A rendered number is a non-empty string of decimal digits with no leading zero. |
| `RiskMap.IntToDecimal` | components/RiskMap.tsx:100 | The template literal's rendering of an integral score has a leading minus sign iff the score is negative. The rest is a non-empty run of digits with no leading zero unless the score is 0. |
| `RiskMap.NatToDecimalRoundTrip` | components/RiskMap.tsx:100 | Reading the digits of a natural number back gives the number. |
| `RiskMap.IntToDecimalRoundTrip` | components/RiskMap.tsx:100 | Reading a rendered integer back (minus sign included) gives the integer. |
| `RiskMap.RiskLabel` | components/RiskMap.tsx:100 | The label starts with `Risk: `, and reading the rest back as a signed decimal gives the score. |
| `RiskMap.RiskLabelShowsScore` | components/RiskMap.tsx:100 | Two labels are equal iff the scores are equal. |
| `RiskMap.MarkerOf` | components/RiskMap.tsx:72-105 | A region's hexagon gets the fill and stroke of its tier. Its first label is the region's name, and its second label reads back as the region's score. |
| `RiskMap.Nodes` | components/RiskMap.tsx:25-29 | There is one node per region, in the same order, and each node keeps all of its region's fields. The start slots are fractions of a turn in [0, 1) and strictly increase. |
| `RiskMap.BuildLinks` | components/RiskMap.tsx:41-45 | For N nodes the loop produces exactly 2N links. Link 2i is (i, (i+1) mod N) and link 2i+1 is (i, (i+2) mod N). |
| `RiskMap.RingLinksShape` | components/RiskMap.tsx:42-44 | Each prefix of the loop has the stated length and index form, and every source and target index is in [0, N). |
| `RiskMap.StepLandsOn` | components/RiskMap.tsx:43-44 | Stepping by 1 or 2 round a ring of N nodes is a bijection: node i lands on v exactly when i is v's predecessor. |
| `RiskMap.DegreesUpTo` | components/RiskMap.tsx:42-45 | After m iterations, each node below m has out-degree 2. Each node's in-degree counts its two predecessors that are below m. |
| `RiskMap.RingDegrees` | components/RiskMap.tsx:42-45 | For any N ≥ 1, every node is the source of exactly two links and the target of exactly two. |
| `RiskMap.Render` | components/RiskMap.tsx:13-105 | With no regions nothing is built or drawn. Otherwise the frame holds the node list, the ring links and one marker per region. Each marker has the tier's fill and stroke, the region name and the risk label. |
| `RiskMap.SampleTiers` | components/RiskMap.tsx:74-78 | Of the seven sample regions (constants.ts), exactly one is high (55), two are moderate (45, 35) and four are low (12, 25, 30, 15). |
| `Charts.OccurrencesPositive` | components/Charts.tsx:11-14 | A status has a positive count iff some asset has that status. |
| `Charts.FirstOccurrencesDistinct` | components/Charts.tsx:11-19 | Each status that occurs is listed once. Nothing that does not occur is listed, so no entry has count 0. |
| `Charts.FirstOccurrencesGrow` | components/Charts.tsx:11-19 | Keys are only ever appended: the keys of a prefix of the fleet lead the key list of the whole fleet, in the same order. |
| `Charts.CountsSumToFleetSize` | components/Charts.tsx:11-14 | The counts over the listed statuses add up to the number of assets. |
| `Charts.TallyStatuses` | components/Charts.tsx:11-14 | The reduce loop produces a key for exactly the listed statuses. The keys are in first-occurrence order, and each count is the number of assets with that status. |
| `Charts.LogisticsOverview` | components/Charts.tsx:11-38 | There is one pie slice per distinct status in first-occurrence order. Slice names are distinct, every value is positive, and the values add up to the fleet size. Slice i is coloured with palette entry i mod 4. |
| `Charts.SliceColour` | components/Charts.tsx:38 | Every slice colour is one of the four palette colours. |
| `Charts.SliceColoursCycle` | components/Charts.tsx:21-38 | Two slices get the same colour iff their positions differ by a multiple of 4. The colour depends on the position and never on the status. |
| `Charts.SampleSlices` | components/Charts.tsx:11-21 | The sample fleet gives TRANSIT 1, ACTIVE 3, MAINTENANCE 1, in that order. The ACTIVE slice gets the second colour (#f59e0b), although the palette comment lists Transit second. |
| `Charts.Split` | components/Charts.tsx:54 | `split(' ')` always gives at least one piece, and no piece contains a space. |
| `Charts.JoinSplit` | components/Charts.tsx:54 | Joining the pieces with single spaces gives the name back. |
| `Charts.SplitJoin` | components/Charts.tsx:54 | Splitting space-free words joined by single spaces gives the words back. |
| `Charts.ShortNameOfWords` | components/Charts.tsx:54 | A name of two or more words shortens to its first two words joined by one space. |
| `Charts.ShortName` | components/Charts.tsx:54 | A name without a space becomes the name followed by ` undefined`, as JavaScript concatenates a missing piece. Any other name is cut to a prefix of itself. |
| `Charts.CapacityBars` | components/Charts.tsx:53-56 | There is one bar per asset, in order. Each bar has the asset's capacity unchanged and its shortened name. |
| `Charts.ThreeWordName` | components/Charts.tsx:54 | A name of three space-free words shortens to its first two, whatever the third is. So "Heavy Hauler A-1" and "Heavy Hauler A-2" (constants.ts) both get the bar label "Heavy Hauler". |
| `Dashboard.AlertColour` | App.tsx:114-120 | CRITICAL maps to red, HIGH to orange and MEDIUM to yellow. LOW and SAFE, and only those, map to blue. |
| `Dashboard.StatusBadge` | App.tsx:305-309 | ACTIVE maps to emerald, MAINTENANCE to red, TRANSIT to yellow and OFFLINE to slate, each iff. |
| `Dashboard.RowBackground` | App.tsx:300 | Even rows get `bg-slate-900` and odd rows `bg-slate-850`, each iff. |
| `Dashboard.RowsAlternate` | App.tsx:300 | Neighbouring rows differ, and rows two apart match. |
| `Dashboard.PanesShown` | App.tsx:205-352 | For every tab id the five independent pane conditions select exactly one pane. It is the named view for overview, logistics, comms and map, and the restricted notice for any other id. |
| `Dashboard.DepartmentTabsRestricted` | App.tsx:144-147 | The disaster, navy, air and cyber tabs all show only the "Access Restricted" pane. |
| `Dashboard.RiskDeltaRange` | App.tsx:105 | A draw in [0, 1) gives a score change in [-5, 4], and every change in that range can be drawn. |
| `Dashboard.RiskDelta` | App.tsx:105 | The change is the floor of `(u - 0.5) * 10`: the largest integer not above it. |
| `Dashboard.ClampScore` | App.tsx:105 | The clamped score is in [0, 100]. It equals the input when the input is in range, and 0 or 100 otherwise. |
| `Dashboard.StepRegion` | App.tsx:103-108 | Only the score can change. A region not selected for update is returned unchanged, and a selected one ends in [0, 100]. |
| `Dashboard.StepRegionMovesLittle` | App.tsx:105 | A score in range moves at most 5 down and 4 up in one tick. |
| `Dashboard.StepRegions` | App.tsx:103-108 | The regional update keeps the list length and order and every field except `riskScore`. Unselected regions are unchanged, and selected ones end in [0, 100]. |
| `Dashboard.StepIncidents` | App.tsx:98-100 | Without the 0.2 chance the counter is unchanged. Otherwise it ends at 5 or more. An up-step from any value of 5 or more adds exactly 1. A down-step from 6 or more subtracts exactly 1, and a down-step at 5 leaves it at 5. |
| `Dashboard.DashboardState.constructor` | App.tsx:75-83 | The dashboard starts on the overview tab, with 12 incidents and the sample regions, and satisfies the invariant. |
| `Dashboard.DashboardState.SelectTab` | App.tsx:138-147 | Selecting a tab changes only the active tab. |
| `Dashboard.DashboardState.VisiblePanes` | App.tsx:205-352 | Whatever the state, exactly one pane is on screen. |
| `Dashboard.DashboardState.Tick` | App.tsx:92-112 | One timer firing applies the incident step and the regional step and keeps the invariant: incidents ≥ 5, same regions in the same order, scores in [0, 100]. |
| `Chat.TrimStart` | components/ChatModule.tsx:11 | The result is a suffix of the input. What was dropped is all white space, and the result is empty or starts with a non-space. |
| `Chat.TrimEnd` | components/ChatModule.tsx:11 | The result is a prefix of the input. What was dropped is all white space, and the result is empty or ends with a non-space. |
| `Chat.TrimEmptyIffBlank` | components/ChatModule.tsx:11 | The trimmed input is empty iff every character of the input is white space. |
| `Chat.Trim` | components/ChatModule.tsx:11 | The trimmed input is no longer than the input, and when non-empty it neither starts nor ends with white space. |
| `Chat.TrimKeepsMiddle` | components/ChatModule.tsx:11 | The trimmed input is one contiguous run of the input with only white space before and after it. |
| `Chat.IsOwn` | components/ChatModule.tsx:38 | A message is shown as the user's own exactly when its sender is the user's name. The facts about it are `MockMessagesNotOwn` and `HandleSend`'s last ensures. |
| `Chat.MockMessagesNotOwn` | components/ChatModule.tsx:38 | None of the three seeded messages is shown as the current user's own. |
| `Chat.ChatModule.constructor` | components/ChatModule.tsx:7-8 | The transcript starts as the three mock messages and the input starts empty. |
| `Chat.ChatModule.SetInput` | components/ChatModule.tsx:66 | Typing replaces the input and leaves the transcript alone. |
| `Chat.ChatModule.HandleSend` | components/ChatModule.tsx:10-22 | A blank input changes neither field. Otherwise exactly one message is appended after the unchanged earlier ones, and the input is then empty. The new message holds the input verbatim, the user's name as sender, `isEncrypted = true` and channel General, so it is shown as the user's own. |

## Left out

- The force simulation (charge, centring and collision forces, 120 ticks) and the trigonometric ring positions: this is floating-point numerics inside d3. A node records only its start slot as a fraction of a turn.
- SVG and chart drawing, hover opacity, JSX layout and every Tailwind class string other than the mappings above: these are presentation.
- The `svgRef.current` null check: the reference is always set once the component is mounted.
- The clock, the `setInterval` timers and `Date`: the timer is the caller of `Tick`, and message ids and time stamps are opaque parameters.
- The network-load random walk clamped to [98, 100]: no modelled rule reads it; it is only displayed, on the Network Integrity card, as a floating-point percentage.
- The AI briefing modal and its text-generation client: this is an asynchronous call to a third-party service.
- Side-bar open/closed, the briefing flag and the nav items' active highlighting: these are view-only flags.
- `Math.random()` draws are exact reals in [0, 1). Float rounding of `(u - 0.5) * 10` is not modelled, and neither is the order in which the draws are taken. `TickDraws` always carries the incident direction even when the 0.2 chance does not fire.
- RiskMap.IntToDecimal: renders integral scores only. JavaScript's exponent form for magnitudes of 10^21 and above is not modelled, because scores stay in [0, 100].
- Charts.TallyStatuses: the key order is insertion order. JavaScript puts integer-like keys first, but no status name is integer-like.
- The Enter key and the send button both call the same send action, which is modelled once.

