/**
  The desktop navigation bar: each top-level category opens a simple dropdown or, when it has
  three levels, a full-width mega menu; a shared counter of open mega menus tells the sticky header
  whether any is open.
*/
module NavbarLinks {
  import opened Wrappers
  import opened Categories

  /** `hasGrandchildren`: some child has a non-empty list of children. */
  predicate HasGrandchildren(c: Category) {
    c.children.Listed? && exists i :: 0 <= i < |c.children.list| && HasChildren(c.children.list[i])
  }

  /** `isMega`: the category has children and grandchildren. */
  predicate IsMega(c: Category) {
    HasChildren(c) && HasGrandchildren(c)
  }

  /** Missing children never make a mega menu, and a category with grandchildren always has
      children, so it is a mega menu exactly when it has grandchildren. */
  lemma IsMegaRule(c: Category)
    ensures c.children.Absent? ==> !HasGrandchildren(c) && !IsMega(c)
    ensures IsMega(c) <==> HasGrandchildren(c)
  {
  }

  /** The link of a top-level category. */
  function CategoryLink(c: Category): string {
    "/products/" + c.slug
  }

  /** The link of a child in the dropdown or the mega menu. */
  function ChildLink(parent: Category, child: Category): string {
    "/products/" + BuildCategoryPath(child, parent.slug)
  }

  /** The link of a grandchild in the mega menu. */
  function GrandchildLink(parent: Category, child: Category, grandchild: Category): string {
    "/products/" + BuildCategoryPath(grandchild, BuildCategoryPath(child, parent.slug))
  }

  /** With a non-empty top-level slug a grandchild link is /products/parent/child/grandchild. */
  lemma GrandchildLinkShape(parent: Category, child: Category, grandchild: Category)
    requires parent.slug != ""
    ensures GrandchildLink(parent, child, grandchild)
      == "/products/" + parent.slug + "/" + child.slug + "/" + grandchild.slug
    ensures ChildLink(parent, child) == "/products/" + parent.slug + "/" + child.slug
  {
    assert BuildCategoryPath(child, parent.slug) != "";
  }

  /** What a category renders under its link. */
  datatype Dropdown = Closed | SimpleDropdown | MegaMenu

  /** The open counter shared by all top-level items (`openCount` of `NavbarLinks`). */
  class MegaMenuCounter {
    var openCount: int

    ghost predicate Valid()
      reads this
    {
      openCount >= 0
    }

    constructor ()
      ensures Valid() && openCount == 0
    {
      openCount := 0;
    }

    /** Whether the `megamenu` event reports an open menu for the current count. */
    predicate ReportsOpen()
      reads this
    {
      openCount > 0
    }

    /** `handleOpen`; returns the `open` flag of the event the effect dispatches when the count
        changes (it always does here). */
    method HandleOpen() returns (event: Option<bool>)
      requires Valid()
      modifies this
      ensures Valid() && openCount == old(openCount) + 1
      ensures event == Some(true) && ReportsOpen()
    {
      openCount := openCount + 1;
      event := Some(openCount > 0);
    }

    /** `handleClose`: `Math.max(0, c - 1)`. At zero nothing changes and no event is dispatched. */
    method HandleClose() returns (event: Option<bool>)
      requires Valid()
      modifies this
      ensures Valid()
      ensures openCount == if old(openCount) > 0 then old(openCount) - 1 else 0
      ensures old(openCount) == 0 ==> event == None
      ensures old(openCount) > 0 ==> event == Some(openCount > 0)
    {
      var next := if openCount - 1 > 0 then openCount - 1 else 0;
      if next != openCount {
        openCount := next;
        event := Some(openCount > 0);
      } else {
        event := None;
      }
    }
  }

  /** One top-level item (`CategoryNavItem`) and its hover flag. */
  class CategoryNavItem {
    const category: Category
    var isHovered: bool

    constructor (category: Category)
      ensures this.category == category && !isHovered
    {
      this.category := category;
      isHovered := false;
    }

    /** What is shown under the link: nothing until hovered or without children, then the mega
        menu or the simple dropdown. */
    function Shown(): Dropdown
      reads this
    {
      if HasChildren(category) && isHovered then (if IsMega(category) then MegaMenu else SimpleDropdown)
      else Closed
    }

    /** `handleEnter`: hover, and count one more open menu when this is a mega menu. */
    method HandleEnter(counter: MegaMenuCounter) returns (event: Option<bool>)
      requires counter.Valid()
      modifies this, counter
      ensures isHovered && counter.Valid()
      ensures IsMega(category) ==> counter.openCount == old(counter.openCount) + 1 && event == Some(true)
      ensures !IsMega(category) ==> counter.openCount == old(counter.openCount) && event == None
      ensures Shown() != Closed <==> HasChildren(category)
    {
      isHovered := true;
      if IsMega(category) {
        event := counter.HandleOpen();
      } else {
        event := None;
      }
    }

    /** `handleLeave`: unhover, and count one fewer open menu when this is a mega menu. */
    method HandleLeave(counter: MegaMenuCounter) returns (event: Option<bool>)
      requires counter.Valid()
      modifies this, counter
      ensures !isHovered && counter.Valid() && Shown() == Closed
      ensures IsMega(category) ==> counter.openCount == if old(counter.openCount) > 0 then old(counter.openCount) - 1 else 0
      ensures IsMega(category) && old(counter.openCount) == 0 ==> event == None
      ensures IsMega(category) && old(counter.openCount) > 0 ==> event == Some(counter.openCount > 0)
      ensures !IsMega(category) ==> counter.openCount == old(counter.openCount) && event == None
    {
      isHovered := false;
      if IsMega(category) {
        event := counter.HandleClose();
      } else {
        event := None;
      }
    }
  }

  /** Entering and leaving a mega menu brings the counter back to where it was, and while one is
      entered the event reports an open menu. */
  method HoverRoundTrip(item: CategoryNavItem, counter: MegaMenuCounter)
    requires counter.Valid() && IsMega(item.category)
    modifies item, counter
    ensures counter.openCount == old(counter.openCount) && !item.isHovered
  {
    var onEnter := item.HandleEnter(counter);
    assert counter.ReportsOpen();
    var onLeave := item.HandleLeave(counter);
  }
}
