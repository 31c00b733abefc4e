/**
  The sticky header: it hides the campaign bar while the page scrolls down or a mega menu is open,
  and lists the active campaigns with an emoji and separators.
*/
module StickyNavbar {
  import opened StorefrontTypes

  /** The scroll position up to which the page counts as at the top. */
  const TopThreshold := 10

  /** `handleScroll`'s rule for `isScrolled` given the previous flag, the previous position and
      the current one. */
  function NextScrolled(scrolled: bool, lastY: int, y: int): bool {
    if y <= TopThreshold then false
    else if y > lastY then true
    else if y < lastY then false
    else scrolled
  }

  /** Near the top the bar always shows; further down, scrolling down hides it, scrolling up shows
      it, and an event at the same position keeps the flag. */
  lemma NextScrolledRule(scrolled: bool, lastY: int, y: int)
    ensures y <= TopThreshold ==> !NextScrolled(scrolled, lastY, y)
    ensures y > TopThreshold && y != lastY ==> (NextScrolled(scrolled, lastY, y) <==> y > lastY)
    ensures y == lastY ==> NextScrolled(scrolled, lastY, y) == (scrolled && y > TopThreshold)
  {
  }

  /** The state after a run of scroll events. */
  function AfterScrolls(scrolled: bool, lastY: int, ys: seq<int>): bool
    decreases |ys|
  {
    if ys == [] then scrolled else AfterScrolls(NextScrolled(scrolled, lastY, ys[0]), ys[0], ys[1..])
  }

  /** After a run of events, the flag is decided by the last two distinct positions: it is set
      exactly when the last event moved down past the top threshold. */
  lemma {:induction false} AfterScrollsLast(scrolled: bool, lastY: int, ys: seq<int>)
    requires |ys| >= 2 && ys[|ys| - 1] != ys[|ys| - 2]
    ensures AfterScrolls(scrolled, lastY, ys) <==> (ys[|ys| - 1] > TopThreshold && ys[|ys| - 1] > ys[|ys| - 2])
    decreases |ys|
  {
    if |ys| == 2 {
      var s1 := NextScrolled(scrolled, lastY, ys[0]);
      assert ys[1..][1..] == [];
      assert AfterScrolls(scrolled, lastY, ys) == AfterScrolls(NextScrolled(s1, ys[0], ys[1]), ys[1], []);
    } else {
      assert ys[1..][|ys| - 2] == ys[|ys| - 1] && ys[1..][|ys| - 3] == ys[|ys| - 2];
      AfterScrollsLast(NextScrolled(scrolled, lastY, ys[0]), ys[0], ys[1..]);
    }
  }

  /** `getCampaignEmoji`: the money bag for buy-x-pay-y campaigns, the target for every other type. */
  function CampaignEmoji(campaignType: string): (r: string)
    ensures campaignType == "BUY_X_PAY_Y" <==> r == "\U{1F4B0}"
    ensures campaignType != "BUY_X_PAY_Y" ==> r == "\U{1F3AF}"
  {
    if campaignType == "BUY_X_PAY_Y" then "\U{1F4B0}" else "\U{1F3AF}"
  }

  /** One entry of the campaign bar. */
  datatype BarEntry = BarEntry(emoji: string, name: string, separator: bool)

  /** The campaign bar: each campaign with its emoji, and a separator after every one but the last. */
  function Bar(campaigns: seq<Campaign>): (r: seq<BarEntry>)
    ensures |r| == |campaigns|
    ensures forall i :: 0 <= i < |r| ==>
      r[i] == BarEntry(CampaignEmoji(campaigns[i].campaignType), campaigns[i].name, i < |campaigns| - 1)
  {
    seq(|campaigns|, i requires 0 <= i < |campaigns| =>
      BarEntry(CampaignEmoji(campaigns[i].campaignType), campaigns[i].name, i < |campaigns| - 1))
  }

  /** The number of separators. */
  function Separators(bar: seq<BarEntry>): nat {
    if bar == [] then 0 else (if bar[0].separator then 1 else 0) + Separators(bar[1..])
  }

  lemma {:induction false} SeparatorsCount(campaigns: seq<Campaign>)
    ensures Separators(Bar(campaigns)) == if |campaigns| == 0 then 0 else |campaigns| - 1
  {
    if |campaigns| > 0 {
      SeparatorsFrom(Bar(campaigns), 0, |campaigns|);
    }
  }

  /** Counting the separators of a bar whose entries carry `i < n - 1` at offset `k`. */
  lemma {:induction false} SeparatorsFrom(bar: seq<BarEntry>, k: nat, n: nat)
    requires k + |bar| == n
    requires forall i :: 0 <= i < |bar| ==> bar[i].separator == (k + i < n - 1)
    ensures Separators(bar) == if |bar| == 0 then 0 else |bar| - 1
  {
    if |bar| > 0 {
      var tail := bar[1..];
      assert forall i :: 0 <= i < |tail| ==> tail[i] == bar[i + 1];
      SeparatorsFrom(tail, k + 1, n);
    }
  }

  class Header {
    const campaigns: seq<Campaign>
    var isScrolled: bool
    var isMegaMenuOpen: bool
    var lastScrollY: int

    constructor (campaigns: seq<Campaign>)
      ensures this.campaigns == campaigns && !isScrolled && !isMegaMenuOpen && lastScrollY == 0
    {
      this.campaigns := campaigns;
      isScrolled := false;
      isMegaMenuOpen := false;
      lastScrollY := 0;
    }

    /** `showCampaign` */
    predicate ShowCampaign()
      reads this
    {
      !isScrolled && !isMegaMenuOpen && |campaigns| > 0
    }

    /** The solid header style past the top threshold. */
    predicate Solid()
      reads this
    {
      lastScrollY > TopThreshold
    }

    /** `handleScroll` for a scroll event at position `y`. */
    method HandleScroll(y: int)
      modifies this`isScrolled, this`lastScrollY
      ensures isScrolled == NextScrolled(old(isScrolled), old(lastScrollY), y)
      ensures lastScrollY == y
    {
      if y <= TopThreshold {
        isScrolled := false;
      } else if y > lastScrollY {
        isScrolled := true;
      } else if y < lastScrollY {
        isScrolled := false;
      }
      lastScrollY := y;
    }

    /** `handleMegaMenu` for a `megamenu` event. */
    method HandleMegaMenu(open: bool)
      modifies this`isMegaMenuOpen
      ensures isMegaMenuOpen == open
      ensures open ==> !ShowCampaign()
    {
      isMegaMenuOpen := open;
    }
  }

  /** Scrolling back to the top with the mega menu closed always brings the campaign bar back. */
  method BackToTop(header: Header, y: int)
    requires y <= TopThreshold && !header.isMegaMenuOpen && |header.campaigns| > 0
    modifies header
    ensures header.ShowCampaign() && !header.Solid()
  {
    header.HandleScroll(y);
  }
}
