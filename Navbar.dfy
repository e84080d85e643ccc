/** The bottom navigation bar: where it is hidden, its four items, and
    which item is highlighted. */
module Navbar {

  import opened Wrappers
  import opened Types

  /** The screens that hide the bar. */
  const HiddenViews: seq<ViewState> := [Processing, Mixer, Success, Profile, FormatPicker]

  predicate IsHidden(v: ViewState)
    ensures IsHidden(v) ==> v != Home && v != PreviewFeed
  {
    v in HiddenViews
  }

  /** A bar item: the screen it opens and its label. */
  datatype NavItem = NavItem(view: ViewState, caption: string)

  const Items: seq<NavItem> :=
    [NavItem(Home, "Home"), NavItem(GuidedCreation, "Create"), NavItem(Ads, "Promote"), NavItem(Manage, "Manage")]

  /** The active test as written, with its second disjunct. */
  predicate IsActive(current: ViewState, item: ViewState)
    ensures IsActive(current, item) ==> current == item
  {
    current == item || (item == GuidedCreation && current == GuidedCreation)
  }

  /** What the bar renders: nothing on a hiding screen, else every item
      with its highlight. */
  function Rendered(current: ViewState): (r: Option<seq<(NavItem, bool)>>)
    ensures r.None? <==> IsHidden(current)
    ensures r.Some? ==> |r.value| == |Items|
    ensures r.Some? ==> forall i :: 0 <= i < |Items| ==> r.value[i].0 == Items[i] && (r.value[i].1 <==> current == Items[i].view)
  {
    if IsHidden(current) then None
    else Some(seq(|Items|, i requires 0 <= i < |Items| => (Items[i], IsActive(current, Items[i].view))))
  }

  /** The bar shows exactly on the home, creation, promotion, management and
      preview screens. */
  lemma ShownExactly(v: ViewState)
    ensures !IsHidden(v) <==> v == Home || v == GuidedCreation || v == Ads || v == Manage || v == PreviewFeed
  {
  }

  /** The second disjunct adds nothing: an item is active exactly when it is
      the current screen. */
  lemma ActiveIsEquality(current: ViewState, item: ViewState)
    ensures IsActive(current, item) <==> current == item
  {
  }

  /** Every item leads to a screen that shows the bar, and the items open
      pairwise different screens; so on such a screen exactly one item is
      highlighted, and on the preview screen none is. */
  lemma HighlightFacts(current: ViewState)
    ensures forall i :: 0 <= i < |Items| ==> !IsHidden(Items[i].view)
    ensures forall i, j :: 0 <= i < j < |Items| ==> Items[i].view != Items[j].view
    ensures current == PreviewFeed ==> forall i :: 0 <= i < |Items| ==> !IsActive(current, Items[i].view)
    ensures (exists i :: 0 <= i < |Items| && IsActive(current, Items[i].view)) <==>
              current in [Home, GuidedCreation, Ads, Manage]
  {
    if current in [Home, GuidedCreation, Ads, Manage] {
      if current == Home { assert IsActive(current, Items[0].view); }
      else if current == GuidedCreation { assert IsActive(current, Items[1].view); }
      else if current == Ads { assert IsActive(current, Items[2].view); }
      else { assert IsActive(current, Items[3].view); }
    }
  }
}
