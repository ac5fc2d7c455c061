/** The advertising channels the calculator knows about and the fixed table
    of how many creative formats each one needs per campaign. */
module Channels {

  /** The five channels offered by the calculator. The source keys its table
      by name; a closed datatype makes an unknown name impossible. */
  datatype Channel = Display | Meta | TikTok | YouTube | DigitalOOH

  /** Formats a single creative variation needs on a channel. */
  function FormatsPerChannel(c: Channel): (n: nat)
    ensures 3 <= n <= 5
    ensures n == 5 <==> c == Display
    ensures n == 4 <==> c == Meta
  {
    match c
    case Display => 5
    case Meta => 4
    case TikTok => 3
    case YouTube => 3
    case DigitalOOH => 3
  }

  /** Formats per campaign: the table's weights summed over the selected
      list (a list, so a channel given twice is counted twice). */
  function FormatsPerCampaign(channels: seq<Channel>): (n: nat)
    ensures 3 * |channels| <= n <= 5 * |channels|
    ensures n == 0 <==> channels == []
  {
    if channels == [] then 0
    else FormatsPerChannel(channels[0]) + FormatsPerCampaign(channels[1..])
  }

  /** The table's weights summed over a bag of channels: each channel's
      weight times the number of times it occurs. */
  function WeightedCount(ms: multiset<Channel>): (w: nat)
  {
    5 * ms[Display] + 4 * ms[Meta] + 3 * ms[TikTok] + 3 * ms[YouTube] + 3 * ms[DigitalOOH]
  }

  /** The per-campaign format count depends only on how often each channel
      occurs, not on where it occurs in the list. */
  lemma {:induction false} FormatsPerCampaignByCount(channels: seq<Channel>)
    ensures FormatsPerCampaign(channels) == WeightedCount(multiset(channels))
  {
    if channels != [] {
      FormatsPerCampaignByCount(channels[1..]);
      assert channels == [channels[0]] + channels[1..];
      assert multiset(channels) == multiset{channels[0]} + multiset(channels[1..]);
      WeightedCountAdd(multiset(channels[1..]), channels[0]);
    }
  }

  /** Adding one channel to the bag adds its weight. */
  lemma WeightedCountAdd(ms: multiset<Channel>, c: Channel)
    ensures WeightedCount(multiset{c} + ms) == FormatsPerChannel(c) + WeightedCount(ms)
  {
    var ms' := multiset{c} + ms;
    match c
    case Display => assert ms'[Meta] == ms[Meta] && ms'[TikTok] == ms[TikTok] && ms'[YouTube] == ms[YouTube] && ms'[DigitalOOH] == ms[DigitalOOH];
    case Meta => assert ms'[Display] == ms[Display] && ms'[TikTok] == ms[TikTok] && ms'[YouTube] == ms[YouTube] && ms'[DigitalOOH] == ms[DigitalOOH];
    case TikTok => assert ms'[Display] == ms[Display] && ms'[Meta] == ms[Meta] && ms'[YouTube] == ms[YouTube] && ms'[DigitalOOH] == ms[DigitalOOH];
    case YouTube => assert ms'[Display] == ms[Display] && ms'[Meta] == ms[Meta] && ms'[TikTok] == ms[TikTok] && ms'[DigitalOOH] == ms[DigitalOOH];
    case DigitalOOH => assert ms'[Display] == ms[Display] && ms'[Meta] == ms[Meta] && ms'[TikTok] == ms[TikTok] && ms'[YouTube] == ms[YouTube];
  }

  /** Reordering the selected channels does not change the format count. */
  lemma FormatsPerCampaignPermutation(a: seq<Channel>, b: seq<Channel>)
    requires multiset(a) == multiset(b)
    ensures FormatsPerCampaign(a) == FormatsPerCampaign(b)
  {
    FormatsPerCampaignByCount(a);
    FormatsPerCampaignByCount(b);
  }

  /** The format count of a concatenation is the sum of the parts' counts. */
  lemma {:induction false} FormatsPerCampaignAppend(a: seq<Channel>, b: seq<Channel>)
    ensures FormatsPerCampaign(a + b) == FormatsPerCampaign(a) + FormatsPerCampaign(b)
  {
    if a == [] {
      assert a + b == b;
    } else {
      assert (a + b)[1..] == a[1..] + b;
      FormatsPerCampaignAppend(a[1..], b);
    }
  }

  /** A list holding only Meta needs 4 formats; Display with Meta needs 9,
      in either order. */
  lemma FormatsPerCampaignExamples()
    ensures FormatsPerCampaign([Meta]) == 4
    ensures FormatsPerCampaign([Display, Meta]) == 9
    ensures FormatsPerCampaign([Meta, Display]) == 9
  {
  }
}
