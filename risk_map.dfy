/**
 * The regional risk map (components/RiskMap.tsx): the node list built from
 * the regions, the cyclic "neighbour plus next-neighbour" link list, the
 * three-tier colour encoding of a risk score and the risk label text.
 *
 * Drawing is modelled as a pure function from the regions to a `Frame` (what
 * one render pass puts on the surface). Node positions after the force
 * simulation are not modelled; a node keeps the ring slot it starts from.
 */
module RiskMap {
  import opened Types

  // ---------------------------------------------------------------------
  // Risk tiers and colours
  // ---------------------------------------------------------------------

  datatype Tier = LowRisk | ModerateRisk | HighRisk

  /** The tier a score falls in: above 50 is high, above 30 moderate, the rest low. */
  function TierOf(score: int): (t: Tier)
    ensures t == HighRisk <==> score > 50
    ensures t == ModerateRisk <==> 30 < score <= 50
    ensures t == LowRisk <==> score <= 30
  {
    if score > 50 then HighRisk else if score > 30 then ModerateRisk else LowRisk
  }

  /** Severity order of the tiers. */
  function Severity(t: Tier): nat
  {
    match t
    case LowRisk => 0
    case ModerateRisk => 1
    case HighRisk => 2
  }

  /** The fixed fill colour of a tier (red-900, amber-900, emerald-900). */
  function TierFill(t: Tier): string
  {
    match t
    case HighRisk => "#7f1d1d"
    case ModerateRisk => "#78350f"
    case LowRisk => "#064e3b"
  }

  /** The fixed stroke colour of a tier. */
  function TierStroke(t: Tier): string
  {
    match t
    case HighRisk => "#ef4444"
    case ModerateRisk => "#f59e0b"
    case LowRisk => "#10b981"
  }

  /** The hexagon's fill, chosen by its own threshold chain; it is the fill of the score's tier. */
  function FillOf(score: int): (c: string)
    ensures c == TierFill(TierOf(score))
  {
    if score > 50 then "#7f1d1d"
    else if score > 30 then "#78350f"
    else "#064e3b"
  }

  /** The hexagon's stroke, chosen by a second threshold chain; it is the stroke of the score's tier. */
  function StrokeOf(score: int): (c: string)
    ensures c == TierStroke(TierOf(score))
  {
    if score > 50 then "#ef4444"
    else if score > 30 then "#f59e0b"
    else "#10b981"
  }

  /** The boundary scores land exactly where the strict thresholds put them. */
  lemma TierBoundaries()
    ensures TierOf(30) == LowRisk && TierOf(31) == ModerateRisk
    ensures TierOf(50) == ModerateRisk && TierOf(51) == HighRisk
    ensures FillOf(30) == "#064e3b" && FillOf(31) == "#78350f"
    ensures FillOf(50) == "#78350f" && FillOf(51) == "#7f1d1d"
  {
  }

  /** A higher score never falls in a less severe tier. */
  lemma TierMonotone(a: int, b: int)
    requires a <= b
    ensures Severity(TierOf(a)) <= Severity(TierOf(b))
  {
  }

  /** Fill and stroke each identify the tier, so two nodes share a fill iff they share a stroke. */
  lemma FillAndStrokeAgree(a: int, b: int)
    ensures FillOf(a) == FillOf(b) <==> TierOf(a) == TierOf(b)
    ensures StrokeOf(a) == StrokeOf(b) <==> TierOf(a) == TierOf(b)
  {
  }

  // ---------------------------------------------------------------------
  // Risk label text
  // ---------------------------------------------------------------------

  function DigitChar(d: nat): (c: char)
    requires d < 10
    ensures '0' <= c <= '9'
  {
    "0123456789"[d]
  }

  function DigitValue(c: char): nat
  {
    if '0' <= c <= '9' then (c - '0') as nat else 0
  }

  predicate IsDigits(s: string)
  {
    forall i :: 0 <= i < |s| ==> '0' <= s[i] <= '9'
  }

  /** The decimal digits of a natural number, most significant first, without leading zeros. */
  function NatToDecimal(n: nat): (s: string)
    ensures |s| >= 1 && IsDigits(s)
    ensures s[0] == '0' ==> n == 0
    decreases n
  {
    if n < 10 then [DigitChar(n)] else NatToDecimal(n / 10) + [DigitChar(n % 10)]
  }

  /** How a JavaScript template literal renders an integral number: an optional minus sign, then its digits. */
  function IntToDecimal(n: int): (s: string)
    ensures |s| >= 1 && (s[0] == '-' <==> n < 0)
    ensures var digits := if n < 0 then s[1..] else s;
              |digits| >= 1 && IsDigits(digits) && (digits[0] == '0' ==> n == 0)
  {
    if n < 0 then "-" + NatToDecimal(-n) else NatToDecimal(n)
  }

  /** The value of a string of decimal digits. */
  function DecimalValue(s: string): nat
  {
    if s == [] then 0 else DecimalValue(s[..|s| - 1]) * 10 + DigitValue(s[|s| - 1])
  }

  /** Reads an optionally signed decimal back. */
  function ParseInt(s: string): int
  {
    if |s| > 0 && s[0] == '-' then -(DecimalValue(s[1..]) as int) else DecimalValue(s)
  }

  lemma {:induction false} NatToDecimalRoundTrip(n: nat)
    ensures DecimalValue(NatToDecimal(n)) == n
    decreases n
  {
    var s := NatToDecimal(n);
    if n >= 10 {
      NatToDecimalRoundTrip(n / 10);
      assert s[..|s| - 1] == NatToDecimal(n / 10);
    }
  }

  /** Reading the rendered number back gives the number. */
  lemma IntToDecimalRoundTrip(n: int)
    ensures ParseInt(IntToDecimal(n)) == n
  {
    if n < 0 {
      NatToDecimalRoundTrip(-n);
      assert IntToDecimal(n)[1..] == NatToDecimal(-n);
    } else {
      var s := NatToDecimal(n);
      NatToDecimalRoundTrip(n);
      assert IntToDecimal(n) == s && s[0] != '-';
    }
  }

  /** The second label under a node. */
  function RiskLabel(score: int): (s: string)
    ensures |s| > 6 && s[..6] == "Risk: "
    ensures ParseInt(s[6..]) == score
  {
    var text := "Risk: " + IntToDecimal(score);
    assert text[6..] == IntToDecimal(score);
    IntToDecimalRoundTrip(score);
    text
  }

  /** Different scores are labelled differently: the label shows the score exactly. */
  lemma RiskLabelShowsScore(a: int, b: int)
    ensures RiskLabel(a) == RiskLabel(b) <==> a == b
  {
    if RiskLabel(a) == RiskLabel(b) {
      assert RiskLabel(a)[6..] == IntToDecimal(a);
      assert RiskLabel(b)[6..] == IntToDecimal(b);
      IntToDecimalRoundTrip(a);
      IntToDecimalRoundTrip(b);
    }
  }

  // ---------------------------------------------------------------------
  // Nodes and links
  // ---------------------------------------------------------------------

  /**
   * A node: all the fields of its region, and its starting slot on the ring
   * as a fraction of a full turn (the start angle is 2*pi*ringTurn).
   */
  datatype Node = Node(region: RegionData, ringTurn: real)

  /** The node list: one node per region, in order, spread evenly round the ring. */
  function Nodes(data: seq<RegionData>): (ns: seq<Node>)
    ensures |ns| == |data|
    ensures forall i :: 0 <= i < |ns| ==> ns[i].region == data[i]
    ensures forall i :: 0 <= i < |ns| ==> 0.0 <= ns[i].ringTurn < 1.0
    ensures forall i, j :: 0 <= i < j < |ns| ==> ns[i].ringTurn < ns[j].ringTurn
  {
    var ns := seq(|data|, i requires 0 <= i < |data| => Node(data[i], i as real / |data| as real));
    forall i, j | 0 <= i < j < |ns| ensures ns[i].ringTurn < ns[j].ringTurn {
      FractionsIncrease(i as real, j as real, |data| as real);
    }
    ns
  }

  lemma FractionsIncrease(a: real, b: real, n: real)
    requires a < b && n > 0.0
    ensures a / n < b / n
  {
  }

  /** A link as (source index, target index) into the node list. */
  type Link = (nat, nat)

  /** The links the first `m` iterations of the link loop push for `n` nodes. */
  function LinksUpTo(n: nat, m: nat): seq<Link>
    requires m <= n
  {
    if m == 0 then []
    else LinksUpTo(n, m - 1) + [(m - 1, m % n), (m - 1, (m + 1) % n)]
  }

  /** Every link of the ring graph on `n` nodes. */
  function RingLinks(n: nat): seq<Link>
  {
    LinksUpTo(n, n)
  }

  /** Builds the link list: each node links to the next and the one after, wrapping round. */
  method BuildLinks(n: nat) returns (links: seq<Link>)
    ensures links == RingLinks(n)
    ensures |links| == 2 * n
    ensures forall i :: 0 <= i < n ==> links[2 * i] == (i, (i + 1) % n)
    ensures forall i :: 0 <= i < n ==> links[2 * i + 1] == (i, (i + 2) % n)
  {
    links := [];
    var i := 0;
    while i < n
      invariant 0 <= i <= n
      invariant links == LinksUpTo(n, i)
    {
      links := links + [(i, (i + 1) % n)];
      links := links + [(i, (i + 2) % n)];
      i := i + 1;
    }
    RingLinksShape(n, n);
  }

  /** Link 2i joins i to its successor, link 2i+1 joins i to the node after that; all indices are nodes. */
  lemma {:induction false} RingLinksShape(n: nat, m: nat)
    requires m <= n
    ensures |LinksUpTo(n, m)| == 2 * m
    ensures forall i :: 0 <= i < m ==> LinksUpTo(n, m)[2 * i] == (i, (i + 1) % n)
    ensures forall i :: 0 <= i < m ==> LinksUpTo(n, m)[2 * i + 1] == (i, (i + 2) % n)
    ensures forall j :: 0 <= j < 2 * m ==> LinksUpTo(n, m)[j].0 < n && LinksUpTo(n, m)[j].1 < n
  {
    if m > 0 {
      RingLinksShape(n, m - 1);
    }
  }

  /** The number of links leaving node `v`. */
  function OutDegree(links: seq<Link>, v: nat): nat
  {
    if links == [] then 0
    else OutDegree(links[..|links| - 1], v) + (if links[|links| - 1].0 == v then 1 else 0)
  }

  /** The number of links arriving at node `v`. */
  function InDegree(links: seq<Link>, v: nat): nat
  {
    if links == [] then 0
    else InDegree(links[..|links| - 1], v) + (if links[|links| - 1].1 == v then 1 else 0)
  }

  /** The one node whose step-`k` successor is `v`. */
  function Predecessor(v: nat, k: nat, n: nat): nat
    requires v < n && 1 <= k <= 2
  {
    if v >= k then v - k else if v + n >= k then v + n - k else v + 2 * n - k
  }

  /** Stepping by `k` is a bijection on the ring: `i` lands on `v` exactly when `i` is `v`'s predecessor. */
  lemma StepLandsOn(i: nat, k: nat, v: nat, n: nat)
    requires i < n && v < n && 1 <= k <= 2
    ensures (i + k) % n == v <==> i == Predecessor(v, k, n)
  {
  }

  lemma {:induction false} DegreesUpTo(n: nat, m: nat, v: nat)
    requires m <= n && v < n
    ensures OutDegree(LinksUpTo(n, m), v) == if v < m then 2 else 0
    ensures InDegree(LinksUpTo(n, m), v)
            == (if Predecessor(v, 1, n) < m then 1 else 0) + (if Predecessor(v, 2, n) < m then 1 else 0)
  {
    if m > 0 {
      DegreesUpTo(n, m - 1, v);
      var prev := LinksUpTo(n, m - 1);
      var a, b := (m - 1, m % n), (m - 1, (m + 1) % n);
      var all := LinksUpTo(n, m);
      assert all == prev + [a, b];
      assert all[..|all| - 1] == prev + [a];
      assert (prev + [a])[..|prev|] == prev;
      StepLandsOn(m - 1, 1, v, n);
      StepLandsOn(m - 1, 2, v, n);
      assert m - 1 + 1 == m && m - 1 + 2 == m + 1;
    }
  }

  /** Every node of a non-empty ring is the source of exactly two links and the target of exactly two. */
  lemma RingDegrees(n: nat, v: nat)
    requires v < n
    ensures OutDegree(RingLinks(n), v) == 2
    ensures InDegree(RingLinks(n), v) == 2
  {
    DegreesUpTo(n, n, v);
  }

  // ---------------------------------------------------------------------
  // One render pass
  // ---------------------------------------------------------------------

  /** What is drawn for one node: its hexagon's colours and its two text labels. */
  datatype Marker = Marker(fill: string, stroke: string, nameLabel: string, riskLabel: string)

  /** The hexagon and the two labels drawn for one region. */
  function MarkerOf(r: RegionData): (m: Marker)
    ensures m.fill == TierFill(TierOf(r.riskScore)) && m.stroke == TierStroke(TierOf(r.riskScore))
    ensures m.nameLabel == r.name
    ensures |m.riskLabel| > 6 && m.riskLabel[..6] == "Risk: " && ParseInt(m.riskLabel[6..]) == r.riskScore
  {
    Marker(FillOf(r.riskScore), StrokeOf(r.riskScore), r.name, RiskLabel(r.riskScore))
  }

  /** Everything one render pass draws: the nodes, the link lines beneath them, and a marker per node. */
  datatype Frame = Frame(nodes: seq<Node>, links: seq<Link>, markers: seq<Marker>)

  /**
   * One run of the map's effect. With no regions nothing is built and the
   * surface is left as it was (`None`); otherwise the surface is cleared and
   * the returned frame drawn.
   */
  method Render(data: seq<RegionData>) returns (frame: Option<Frame>)
    ensures frame.None? <==> |data| == 0
    ensures frame.Some? ==> frame.value.nodes == Nodes(data)
    ensures frame.Some? ==> frame.value.links == RingLinks(|data|)
    ensures frame.Some? ==> |frame.value.markers| == |data|
    ensures frame.Some? ==> forall i :: 0 <= i < |data| ==>
              && frame.value.markers[i].fill == TierFill(TierOf(data[i].riskScore))
              && frame.value.markers[i].stroke == TierStroke(TierOf(data[i].riskScore))
              && frame.value.markers[i].nameLabel == data[i].name
              && frame.value.markers[i].riskLabel == RiskLabel(data[i].riskScore)
  {
    if |data| == 0 {
      return None;
    }
    var nodes := Nodes(data);
    var links := BuildLinks(|nodes|);
    var markers := seq(|nodes|, i requires 0 <= i < |nodes| => MarkerOf(nodes[i].region));
    frame := Some(Frame(nodes, links, markers));
  }

  // ---------------------------------------------------------------------
  // The sample regions
  // ---------------------------------------------------------------------

  /** The number of regions in tier `t`. */
  function CountTier(data: seq<RegionData>, t: Tier): nat
  {
    if data == [] then 0
    else CountTier(data[..|data| - 1], t) + (if TierOf(data[|data| - 1].riskScore) == t then 1 else 0)
  }

  lemma {:induction false} CountTierSnoc(data: seq<RegionData>, r: RegionData, t: Tier)
    ensures CountTier(data + [r], t) == CountTier(data, t) + (if TierOf(r.riskScore) == t then 1 else 0)
  {
  }

  /** The tier count of the sample regions, one region at a time. */
  lemma SampleCount(t: Tier)
    ensures CountTier(RegionalData, t)
            == (if TierOf(12) == t then 1 else 0) + (if TierOf(45) == t then 1 else 0)
             + (if TierOf(25) == t then 1 else 0) + (if TierOf(30) == t then 1 else 0)
             + (if TierOf(35) == t then 1 else 0) + (if TierOf(15) == t then 1 else 0)
             + (if TierOf(55) == t then 1 else 0)
  {
    var d := RegionalData;
    CountTierSnoc([], d[0], t);
    CountTierSnoc([d[0]], d[1], t);
    CountTierSnoc([d[0], d[1]], d[2], t);
    CountTierSnoc([d[0], d[1], d[2]], d[3], t);
    CountTierSnoc([d[0], d[1], d[2], d[3]], d[4], t);
    CountTierSnoc([d[0], d[1], d[2], d[3], d[4]], d[5], t);
    CountTierSnoc([d[0], d[1], d[2], d[3], d[4], d[5]], d[6], t);
    assert [] + [d[0]] == [d[0]];
    assert [d[0]] + [d[1]] == [d[0], d[1]];
    assert [d[0], d[1]] + [d[2]] == [d[0], d[1], d[2]];
    assert [d[0], d[1], d[2]] + [d[3]] == [d[0], d[1], d[2], d[3]];
    assert [d[0], d[1], d[2], d[3]] + [d[4]] == [d[0], d[1], d[2], d[3], d[4]];
    assert [d[0], d[1], d[2], d[3], d[4]] + [d[5]] == [d[0], d[1], d[2], d[3], d[4], d[5]];
    assert d == [d[0], d[1], d[2], d[3], d[4], d[5]] + [d[6]];
  }

  /** Of the seven sample regions one is high risk (55), two moderate (45, 35) and four low (12, 25, 30, 15). */
  lemma SampleTiers()
    ensures CountTier(RegionalData, HighRisk) == 1
    ensures CountTier(RegionalData, ModerateRisk) == 2
    ensures CountTier(RegionalData, LowRisk) == 4
    ensures TierOf(RegionalData[6].riskScore) == HighRisk
    ensures TierOf(RegionalData[1].riskScore) == ModerateRisk && TierOf(RegionalData[4].riskScore) == ModerateRisk
  {
    SampleCount(HighRisk);
    SampleCount(ModerateRisk);
    SampleCount(LowRisk);
  }
}
