/** The dashboard sidebar: which parent item is expanded, which links count as
    active for the current pathname, and which rows it renders. */
module Sidebar {
  import opened Session

  datatype SubItem = SubItem(title: string, link: string)

  /** A sidebar entry; one with a sub-item list (even an empty one) is a parent. */
  datatype Item = Item(title: string, link: string, subItems: Option<seq<SubItem>>)

  // ---------------------------------------------------------------------------
  // Expansion

  /** `handleItemClick`: clicking the expanded item collapses it; clicking any
      other item expands that one instead. */
  function Toggled(expanded: Option<string>, link: string): (r: Option<string>)
    ensures r == None || r == Some(link)
    ensures r == None <==> expanded == Some(link)
  {
    if expanded == Some(link) then None else Some(link)
  }

  /** The sidebar's one piece of state: the link of the expanded item, if any. */
  class SidebarComponent {
    var expandedItem: Option<string>

    constructor ()
      ensures expandedItem == None
    {
      expandedItem := None;
    }

    method HandleItemClick(link: string)
      modifies this
      ensures expandedItem == Toggled(old(expandedItem), link)
    {
      if expandedItem == Some(link) {
        expandedItem := None;
      } else {
        expandedItem := Some(link);
      }
    }
  }

  /** Two clicks on one item from a collapsed sidebar, or from that item being
      expanded, come back to where they started; from another item expanded, they
      leave nothing expanded. */
  lemma ClickTwice(expanded: Option<string>, link: string)
    ensures expanded == None || expanded == Some(link) ==> Toggled(Toggled(expanded, link), link) == expanded
    ensures expanded.Some? && expanded != Some(link) ==> Toggled(Toggled(expanded, link), link) == None
  {
  }

  // ---------------------------------------------------------------------------
  // Active links

  /** A parent is active on every pathname that starts with its link; a leaf
      only on its own link. */
  predicate ItemActive(item: Item, pathname: string) {
    if item.subItems.Some? then item.link <= pathname else pathname == item.link
  }

  predicate SubItemActive(sub: SubItem, pathname: string) {
    pathname == sub.link
  }

  /** Every item is active on its own link; a parent stays active on every
      extension of it, a leaf on none. */
  lemma ActiveClassification(item: Item, rest: string)
    ensures ItemActive(item, item.link)
    ensures rest != [] ==> (ItemActive(item, item.link + rest) <==> item.subItems.Some?)
  {
  }

  // ---------------------------------------------------------------------------
  // Rendering

  /** The sub-items of a parent are listed. */
  predicate SubItemsShown(item: Item, isOpen: bool, expanded: Option<string>) {
    isOpen && expanded == Some(item.link) && item.subItems.Some?
  }

  /** With distinct links, at most one item's sub-items are listed. */
  lemma AtMostOneExpanded(items: seq<Item>, isOpen: bool, expanded: Option<string>, i: int, j: int)
    requires forall a, b :: 0 <= a < b < |items| ==> items[a].link != items[b].link
    requires 0 <= i < |items| && 0 <= j < |items|
    requires SubItemsShown(items[i], isOpen, expanded) && SubItemsShown(items[j], isOpen, expanded)
    ensures i == j
  {
  }

  /** In an open sidebar, clicking a parent lists its sub-items exactly when they
      were not listed before, and hides those of every item with another link. */
  lemma ClickListsSubItems(clicked: Item, other: Item, expanded: Option<string>)
    requires clicked.subItems.Some? && other.link != clicked.link
    ensures SubItemsShown(clicked, true, Toggled(expanded, clicked.link)) <==> !SubItemsShown(clicked, true, expanded)
    ensures !SubItemsShown(other, true, Toggled(expanded, clicked.link))
  {
  }

  /** What the sidebar draws, top to bottom. A title is None where it is hidden. */
  datatype Row =
    | Heading
    | Parent(link: string, caption: Option<string>, active: bool, chevron: bool, rotated: bool)
    | Sub(link: string, name: string, active: bool)
    | Leaf(link: string, caption: Option<string>, active: bool)

  function Caption(isOpen: bool, title: string): Option<string> {
    if isOpen then Some(title) else None
  }

  function SubRows(subs: seq<SubItem>, pathname: string): (rows: seq<Row>)
    ensures |rows| == |subs|
    ensures forall k :: 0 <= k < |rows| ==> rows[k] == Sub(subs[k].link, subs[k].title, SubItemActive(subs[k], pathname))
  {
    if subs == [] then []
    else [Sub(subs[0].link, subs[0].title, SubItemActive(subs[0], pathname))] + SubRows(subs[1..], pathname)
  }

  function ItemRows(item: Item, isOpen: bool, expanded: Option<string>, pathname: string): seq<Row> {
    if item.subItems.Some? then
      [Parent(item.link, Caption(isOpen, item.title), ItemActive(item, pathname), isOpen, expanded == Some(item.link))]
      + (if SubItemsShown(item, isOpen, expanded) then SubRows(item.subItems.value, pathname) else [])
    else [Leaf(item.link, Caption(isOpen, item.title), ItemActive(item, pathname))]
  }

  function ItemsRows(items: seq<Item>, isOpen: bool, expanded: Option<string>, pathname: string): seq<Row> {
    if items == [] then []
    else ItemRows(items[0], isOpen, expanded, pathname) + ItemsRows(items[1..], isOpen, expanded, pathname)
  }

  /** The whole sidebar: the "TMS" heading when open, then every item. */
  function Render(items: seq<Item>, isOpen: bool, expanded: Option<string>, pathname: string): seq<Row> {
    (if isOpen then [Heading] else []) + ItemsRows(items, isOpen, expanded, pathname)
  }

  /** A row that shows text: the heading, a titled item, or a sub-item. */
  predicate ShowsText(row: Row) {
    row.Heading? || row.Sub? || ((row.Parent? || row.Leaf?) && row.caption.Some?)
  }

  /** The rows drawn for one item: its own row, then its sub-items when listed. */
  lemma ItemRowsShape(item: Item, isOpen: bool, expanded: Option<string>, pathname: string)
    ensures var rows := ItemRows(item, isOpen, expanded, pathname);
      && |rows| == 1 + (if SubItemsShown(item, isOpen, expanded) then |item.subItems.value| else 0)
      && (rows[0].Parent? <==> item.subItems.Some?)
      && (forall k :: 1 <= k < |rows| ==> rows[k].Sub?)
      && (forall k :: 0 <= k < |rows| ==> (ShowsText(rows[k]) <==> isOpen))
  {
  }

  /** A collapsed sidebar draws exactly one untitled row per item and no heading. */
  lemma {:induction false} CollapsedShowsNoText(items: seq<Item>, expanded: Option<string>, pathname: string)
    ensures var rows := Render(items, false, expanded, pathname);
      && |rows| == |items|
      && forall k :: 0 <= k < |rows| ==> !ShowsText(rows[k]) && rows[k].link == items[k].link
  {
    if items != [] {
      CollapsedShowsNoText(items[1..], expanded, pathname);
      ItemRowsShape(items[0], false, expanded, pathname);
      var rows := Render(items, false, expanded, pathname);
      assert rows == ItemRows(items[0], false, expanded, pathname) + Render(items[1..], false, expanded, pathname);
    }
  }

  /** An open sidebar shows the heading first and text on every row. */
  lemma {:induction false} OpenShowsText(items: seq<Item>, expanded: Option<string>, pathname: string)
    ensures var rows := Render(items, true, expanded, pathname);
      && rows[0] == Heading
      && forall k :: 0 <= k < |rows| ==> ShowsText(rows[k])
  {
    OpenItemsShowText(items, expanded, pathname);
  }

  lemma {:induction false} OpenItemsShowText(items: seq<Item>, expanded: Option<string>, pathname: string)
    ensures forall k :: 0 <= k < |ItemsRows(items, true, expanded, pathname)| ==> ShowsText(ItemsRows(items, true, expanded, pathname)[k])
  {
    if items != [] {
      OpenItemsShowText(items[1..], expanded, pathname);
      ItemRowsShape(items[0], true, expanded, pathname);
    }
  }
}
