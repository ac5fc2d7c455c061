/** The glue around the calculator: the channel list built from the five
    checkboxes, the guard that shows a warning instead of results when no
    channel is ticked, and the percentage shown beside the new minutes per
    asset. */
module App {
  import opened Channels
  import opened Metrics

  /** The five checkbox values, in the order the form lays them out. */
  datatype Checkboxes = Checkboxes(meta: bool, tiktok: bool, display: bool, youtube: bool, dooh: bool)
  {
    predicate IsTicked(c: Channel)
    {
      match c
      case Meta => meta
      case TikTok => tiktok
      case Display => display
      case YouTube => youtube
      case DigitalOOH => dooh
    }

    function TickedCount(): (n: nat)
      ensures n <= 5
    {
      (if meta then 1 else 0) + (if tiktok then 1 else 0) + (if display then 1 else 0)
      + (if youtube then 1 else 0) + (if dooh then 1 else 0)
    }

    /** How many of the channels ranked below `k` are ticked. */
    function TickedBelow(k: nat): (n: nat)
      requires k <= 5
      ensures n <= k
    {
      if k == 0 then 0
      else TickedBelow(k - 1) + (if IsTicked(ChannelAtRank(k - 1)) then 1 else 0)
    }

    /** The table's weights summed over the ticked boxes. */
    function TickedWeight(): (w: nat)
    {
      (if meta then 4 else 0) + (if tiktok then 3 else 0) + (if display then 5 else 0)
      + (if youtube then 3 else 0) + (if dooh then 3 else 0)
    }
  }

  /** Where a channel goes in the list: the order of the appends. */
  function AppendRank(c: Channel): (k: nat)
    ensures k < 5
  {
    match c
    case Meta => 0
    case TikTok => 1
    case YouTube => 2
    case DigitalOOH => 3
    case Display => 4
  }

  /** The channel appended in step `k`. */
  function ChannelAtRank(k: nat): (c: Channel)
    requires k < 5
    ensures AppendRank(c) == k
  {
    if k == 0 then Meta
    else if k == 1 then TikTok
    else if k == 2 then YouTube
    else if k == 3 then DigitalOOH
    else Display
  }

  lemma AppendRankInjective(c: Channel, d: Channel)
    requires AppendRank(c) == AppendRank(d)
    ensures c == d
  {
  }

  /** Strictly increasing by append rank: in append order, no channel twice. */
  predicate InAppendOrder(channels: seq<Channel>)
  {
    forall i, j :: 0 <= i < j < |channels| ==> AppendRank(channels[i]) < AppendRank(channels[j])
  }

  /** The channel list: exactly the ticked channels, each once, in the order
      Meta, TikTok, YouTube, Digital OOH, Display. */
  method BuildChannels(boxes: Checkboxes) returns (channels: seq<Channel>)
    ensures forall c :: c in channels <==> boxes.IsTicked(c)
    ensures InAppendOrder(channels)
    ensures |channels| == boxes.TickedCount()
    ensures channels == [] <==> boxes.TickedCount() == 0
  {
    channels := [];
    channels := AppendIfTicked(channels, boxes, Meta);
    channels := AppendIfTicked(channels, boxes, TikTok);
    channels := AppendIfTicked(channels, boxes, YouTube);
    channels := AppendIfTicked(channels, boxes, DigitalOOH);
    channels := AppendIfTicked(channels, boxes, Display);
    BuiltAll(channels, boxes);
  }

  /** One guarded append: from the ticked channels ranked below `c` to the
      ticked channels ranked up to `c`, kept in append order. By
      AppendOrderDeterminedByMembers this fixes the result: `c` at the end
      when its box is ticked, the list unchanged otherwise. */
  method AppendIfTicked(channels: seq<Channel>, boxes: Checkboxes, c: Channel) returns (extended: seq<Channel>)
    requires BuiltUpTo(channels, boxes, AppendRank(c))
    ensures BuiltUpTo(extended, boxes, AppendRank(c) + 1)
  {
    BuildStep(channels, boxes, c);
    extended := channels;
    if boxes.IsTicked(c) {
      extended := extended + [c];
    }
  }

  /** After the appends for the channels ranked below `k`: exactly those of
      them that are ticked, in append order. */
  predicate BuiltUpTo(channels: seq<Channel>, boxes: Checkboxes, k: nat)
    requires k <= 5
  {
    && InAppendOrder(channels)
    && (forall c :: c in channels <==> boxes.IsTicked(c) && AppendRank(c) < k)
    && |channels| == boxes.TickedBelow(k)
  }

  /** One guarded append moves the list from step `k` to step `k + 1`. */
  lemma BuildStep(channels: seq<Channel>, boxes: Checkboxes, c: Channel)
    requires BuiltUpTo(channels, boxes, AppendRank(c))
    ensures BuiltUpTo(if boxes.IsTicked(c) then channels + [c] else channels, boxes, AppendRank(c) + 1)
  {
    var k := AppendRank(c);
    assert ChannelAtRank(k) == c by {
      AppendRankInjective(ChannelAtRank(k), c);
    }
    assert boxes.TickedBelow(k + 1) == boxes.TickedBelow(k) + (if boxes.IsTicked(c) then 1 else 0);
    StepMembers(channels, boxes, c);
    if boxes.IsTicked(c) {
      AppendInOrder(channels, c);
    }
  }

  /** The members after one guarded append. */
  lemma StepMembers(channels: seq<Channel>, boxes: Checkboxes, c: Channel)
    requires forall d :: d in channels <==> boxes.IsTicked(d) && AppendRank(d) < AppendRank(c)
    ensures var next := if boxes.IsTicked(c) then channels + [c] else channels;
            forall d :: d in next <==> boxes.IsTicked(d) && AppendRank(d) < AppendRank(c) + 1
  {
    forall d | AppendRank(d) == AppendRank(c)
      ensures d == c
    {
      AppendRankInjective(d, c);
    }
  }

  /** After the last step the list holds every ticked channel. */
  lemma BuiltAll(channels: seq<Channel>, boxes: Checkboxes)
    requires BuiltUpTo(channels, boxes, 5)
    ensures forall c :: c in channels <==> boxes.IsTicked(c)
    ensures InAppendOrder(channels)
    ensures |channels| == boxes.TickedCount()
  {
    TickedCountByRank(boxes);
  }

  lemma TickedCountByRank(boxes: Checkboxes)
    ensures boxes.TickedBelow(5) == boxes.TickedCount()
  {
    assert boxes.TickedBelow(1) == (if boxes.meta then 1 else 0);
    assert boxes.TickedBelow(3) == boxes.TickedBelow(1) + (if boxes.tiktok then 1 else 0)
                                   + (if boxes.youtube then 1 else 0);
  }

  /** Appending a channel ranked above every member keeps append order. */
  lemma AppendInOrder(channels: seq<Channel>, c: Channel)
    requires InAppendOrder(channels)
    requires forall d :: d in channels ==> AppendRank(d) < AppendRank(c)
    ensures InAppendOrder(channels + [c])
  {
    var s := channels + [c];
    forall i, j | 0 <= i < j < |s|
      ensures AppendRank(s[i]) < AppendRank(s[j])
    {
      if j == |channels| {
        assert s[i] in channels;
      }
    }
  }

  /** Two lists in append order with the same members are the same list, so
      the contract of BuildChannels fixes its result. */
  lemma {:induction false} AppendOrderDeterminedByMembers(a: seq<Channel>, b: seq<Channel>)
    requires InAppendOrder(a) && InAppendOrder(b)
    requires forall c :: c in a <==> c in b
    ensures a == b
  {
    if a == [] {
      if b != [] {
        HasMember(b);
        assert false;
      }
    } else {
      assert a[0] in b;
      assert b[0] in b;
      HeadIsLeast(a, b[0]);
      HeadIsLeast(b, a[0]);
      AppendRankInjective(a[0], b[0]);
      forall c
        ensures c in a[1..] <==> c in b[1..]
      {
        if c in a[1..] {
          TailAboveHead(a, c);
          InTail(b, c);
        }
        if c in b[1..] {
          TailAboveHead(b, c);
          InTail(a, c);
        }
      }
      TailInAppendOrder(a);
      TailInAppendOrder(b);
      AppendOrderDeterminedByMembers(a[1..], b[1..]);
      assert a == [a[0]] + a[1..] && b == [b[0]] + b[1..];
    }
  }

  /** The head of a list in append order has the least rank in it. */
  lemma HeadIsLeast(s: seq<Channel>, c: Channel)
    requires InAppendOrder(s) && c in s
    ensures AppendRank(s[0]) <= AppendRank(c)
  {
    var k :| 0 <= k < |s| && s[k] == c;
    if k > 0 {
      assert AppendRank(s[0]) < AppendRank(s[k]);
    }
  }

  /** The tail of a list in append order lies strictly above its head. */
  lemma TailAboveHead(s: seq<Channel>, c: Channel)
    requires InAppendOrder(s) && s != [] && c in s[1..]
    ensures c in s && AppendRank(s[0]) < AppendRank(c)
  {
    var k :| 0 <= k < |s| - 1 && s[1..][k] == c;
    assert s[k + 1] == c;
  }

  /** A member other than the head is in the tail. */
  lemma InTail(s: seq<Channel>, c: Channel)
    requires s != [] && c in s && c != s[0]
    ensures c in s[1..]
  {
    var k :| 0 <= k < |s| && s[k] == c;
    assert s[1..][k - 1] == c;
  }

  lemma TailInAppendOrder(s: seq<Channel>)
    requires InAppendOrder(s) && s != []
    ensures InAppendOrder(s[1..])
  {
    var rest := s[1..];
    forall i, j | 0 <= i < j < |rest|
      ensures AppendRank(rest[i]) < AppendRank(rest[j])
    {
      assert rest[i] == s[i + 1] && rest[j] == s[j + 1];
    }
  }

  lemma HasMember(s: seq<Channel>)
    requires s != []
    ensures exists c :: c in s
  {
    assert s[0] in s;
  }

  /** A list in append order holds each of its members exactly once. */
  lemma {:induction false} OccursOnce(channels: seq<Channel>, c: Channel)
    requires InAppendOrder(channels)
    ensures multiset(channels)[c] == if c in channels then 1 else 0
  {
    if channels != [] {
      var rest := channels[1..];
      TailInAppendOrder(channels);
      OccursOnce(rest, c);
      assert channels == [channels[0]] + rest;
      assert multiset(channels) == multiset{channels[0]} + multiset(rest);
    }
  }

  /** The formats per campaign of a list built from the checkboxes is the
      weight of the ticked boxes: 4 for Meta, 3 for TikTok, YouTube and
      Digital OOH, 5 for Display. */
  lemma TickedFormats(boxes: Checkboxes, channels: seq<Channel>)
    requires forall c :: c in channels <==> boxes.IsTicked(c)
    requires InAppendOrder(channels)
    ensures FormatsPerCampaign(channels) == boxes.TickedWeight()
  {
    FormatsPerCampaignByCount(channels);
    OccursOnce(channels, Display);
    OccursOnce(channels, Meta);
    OccursOnce(channels, TikTok);
    OccursOnce(channels, YouTube);
    OccursOnce(channels, DigitalOOH);
  }

  /** Cancelling a positive factor keeps a strict inequality. */
  lemma CancelPositive(x: real, y: real, z: real)
    requires z > 0.0 && x * z < y * z
    ensures x < y
  {
  }

  /** The percentage beside the new minutes per asset: how much smaller the
      new figure is than the current one. */
  function SavingsPercent(m: Metrics): (p: real)
    requires m.currentMinutesPerAsset != 0.0
    ensures p * m.currentMinutesPerAsset == (m.currentMinutesPerAsset - m.newMinutesPerAsset) * 100.0
    ensures m.currentMinutesPerAsset > m.newMinutesPerAsset > 0.0 ==> 0.0 < p < 100.0
  {
    ShareBelowWhole(m.currentMinutesPerAsset, m.newMinutesPerAsset);
    (m.currentMinutesPerAsset - m.newMinutesPerAsset) / m.currentMinutesPerAsset * 100.0
  }

  /** A positive part of a larger positive whole, as a percentage of it. */
  lemma ShareBelowWhole(whole: real, part: real)
    requires whole != 0.0
    ensures whole > part > 0.0 ==> 0.0 < (whole - part) / whole * 100.0 < 100.0
  {
    if whole > part > 0.0 {
      var q := (whole - part) / whole;
      assert q * whole == whole - part;
      CancelPositive(q, 1.0, whole);
      CancelPositive(0.0, q, whole);
    }
  }

  /** Whenever the calculator returns, the percentage is defined; it is
      100 - 400 / total hours, and on the calculator's inputs strictly
      between 0 and 100. */
  lemma SavingsPercentBounds(channels: seq<Channel>, campaigns: int, variations: int)
    requires ValidInput(channels, campaigns, variations)
    ensures CalculateMetrics(channels, campaigns, variations).Ok?
    ensures var m := CalculateMetrics(channels, campaigns, variations).value;
            && m.currentMinutesPerAsset != 0.0
            && SavingsPercent(m) == 100.0 - 400.0 / m.totalHours as real
            && 0.0 < SavingsPercent(m) < 100.0
  {
    SafeDivision(channels, campaigns, variations);
    CountsClosedForm(channels, campaigns, variations);
    var m := CalculateMetrics(channels, campaigns, variations).value;
    var n := campaigns * variations;
    var w := FormatsPerCampaign(channels);
    ProductMonotone(1, 36, n, 24 + 4 * w);
    var h, f := m.totalHours as real, m.totalFormats as real;
    assert h >= 36.0;
    assert f > 0.0;
    assert m.currentMinutesPerAsset == h * 60.0 / f;
    assert m.newMinutesPerAsset == 240.0 / f;
    PercentAlgebra(h, f);
  }

  /** The percentage with the format count cancelled out. */
  lemma PercentAlgebra(h: real, f: real)
    requires h >= 36.0 && f > 0.0
    ensures (h * 60.0 / f - 240.0 / f) / (h * 60.0 / f) * 100.0 == 100.0 - 400.0 / h
    ensures 0.0 < 100.0 - 400.0 / h < 100.0
  {
    calc {
      (h * 60.0 / f - 240.0 / f) / (h * 60.0 / f) * 100.0;
      { assert h * 60.0 / f - 240.0 / f == (h * 60.0 - 240.0) / f; }
      ((h * 60.0 - 240.0) / f) / (h * 60.0 / f) * 100.0;
      (h * 60.0 - 240.0) / (h * 60.0) * 100.0;
      100.0 - 400.0 / h;
    }
    assert 400.0 / h <= 400.0 / 36.0;
  }

  /** What the page shows: a warning, or the results with the channel list
      they were computed from and the percentage beside the new minutes. */
  datatype Screen =
    | Warning
    | Results(channels: seq<Channel>, metrics: Metrics, savingsPercent: real)

  /** One render: build the list, and compute only when it is not empty.
      The widgets keep both counts at one or more. */
  method Render(boxes: Checkboxes, campaigns: int, variations: int) returns (screen: Screen)
    requires campaigns >= 1 && variations >= 1
    ensures screen.Warning? <==> boxes.TickedCount() == 0
    ensures screen.Results? ==>
              && (forall c :: c in screen.channels <==> boxes.IsTicked(c))
              && InAppendOrder(screen.channels)
              && CalculateMetrics(screen.channels, campaigns, variations) == Ok(screen.metrics)
              && screen.metrics.totalFormats == campaigns * variations * boxes.TickedWeight()
              && screen.metrics.currentMinutesPerAsset > screen.metrics.newMinutesPerAsset > 0.0
              && screen.savingsPercent == SavingsPercent(screen.metrics)
              && 0.0 < screen.savingsPercent < 100.0
  {
    var channels := BuildChannels(boxes);
    if |channels| > 0 {
      SafeDivision(channels, campaigns, variations);
      CurrentSlowerThanNew(channels, campaigns, variations);
      SavingsPercentBounds(channels, campaigns, variations);
      TickedFormats(boxes, channels);
      var metrics := CalculateMetrics(channels, campaigns, variations).value;
      screen := Results(channels, metrics, SavingsPercent(metrics));
    } else {
      screen := Warning;
    }
  }
}
