/**
  The mobile navigation sheet: top-level sections of which at most one is expanded, nested
  categories that expand on their own down to a depth limit, and link clicks that close the sheet.
*/
module MobileLinks {
  import opened Wrappers
  import opened Text
  import opened Categories

  const MaxDepth := 3
  const IndentSizes := ["ml-0", "ml-4", "ml-8"]

  /** `indentSizes[Math.min(depth, 2)]`; a negative depth reads past the array (`undefined`). */
  function IndentClass(depth: int): (r: Option<string>)
    ensures depth >= 0 ==> r == Some(IndentSizes[if depth < 2 then depth else 2])
    ensures depth < 0 ==> r == None
  {
    var i := if depth < |IndentSizes| - 1 then depth else |IndentSizes| - 1;
    if 0 <= i then Some(IndentSizes[i]) else None
  }

  /** A nested category shows its expand button only above the depth limit and with children. */
  predicate Expandable(c: Category, depth: int) {
    depth < MaxDepth - 1 && HasChildren(c)
  }

  /** One rendered nested category: its depth and its slug path. */
  datatype Row = Row(depth: int, path: string)

  /** The rows a nested category renders with every expandable category expanded, itself first. */
  function Rows(c: Category, parentPath: string, depth: int): seq<Row>
    decreases c, 1
  {
    var slugPath := BuildCategoryPath(c, parentPath);
    ChildrenSmaller(c);
    [Row(depth, slugPath)] + (if Expandable(c, depth) then ChildRows(c.children.list, slugPath, depth + 1, c) else [])
  }

  lemma ChildrenSmaller(c: Category)
    ensures c.children.Listed? ==> forall i :: 0 <= i < |c.children.list| ==> c.children.list[i] < c
  {
    if c.children.Listed? {
      var cs := c.children.list;
      forall i | 0 <= i < |cs| ensures cs[i] < c {
        assert cs[i] in cs;
        assert cs[i] < c.children;
        assert c.children < c;
      }
    }
  }

  /** The rows of a list of children, in order. */
  function ChildRows(cs: seq<Category>, parentPath: string, depth: int, ghost parent: Category): seq<Row>
    requires forall i :: 0 <= i < |cs| ==> cs[i] < parent
    decreases parent, 0, |cs|
  {
    if cs == [] then [] else Rows(cs[0], parentPath, depth) + ChildRows(cs[1..], parentPath, depth, parent)
  }

  /** Below a top-level section (depth 1) only depths 1 and 2 are rendered, so the sheet shows at
      most three levels; and every row's path extends the top-level path. */
  lemma {:induction false} RowsBounded(c: Category, parentPath: string, depth: int)
    requires 1 <= depth <= MaxDepth - 1 && parentPath != ""
    ensures forall r :: r in Rows(c, parentPath, depth) ==>
      depth <= r.depth <= MaxDepth - 1 && StartsWith(r.path, parentPath + "/")
    decreases c, 1
  {
    var slugPath := BuildCategoryPath(c, parentPath);
    PathExtendsParent(c, parentPath);
    ChildrenSmaller(c);
    if Expandable(c, depth) {
      ChildRowsBounded(c.children.list, slugPath, depth + 1, c);
      forall r | r in ChildRows(c.children.list, slugPath, depth + 1, c)
        ensures StartsWith(r.path, parentPath + "/")
      {
        StartsWithTransitive(r.path, slugPath, parentPath + "/");
      }
    }
  }

  lemma {:induction false} ChildRowsBounded(cs: seq<Category>, parentPath: string, depth: int, parent: Category)
    requires forall i :: 0 <= i < |cs| ==> cs[i] < parent
    requires 1 <= depth <= MaxDepth - 1 && parentPath != ""
    ensures forall r :: r in ChildRows(cs, parentPath, depth, parent) ==>
      depth <= r.depth <= MaxDepth - 1 && StartsWith(r.path, parentPath + "/")
    decreases parent, 0, |cs|
  {
    if cs != [] {
      RowsBounded(cs[0], parentPath, depth);
      ChildRowsBounded(cs[1..], parentPath, depth, parent);
    }
  }

  lemma StartsWithTransitive(s: string, p: string, q: string)
    requires StartsWith(s, p + "/") && StartsWith(p, q)
    ensures StartsWith(s, q)
  {
    assert s[..|q|] == s[..|p| + 1][..|q|];
    assert (p + "/")[..|q|] == p[..|q|];
  }

  /** The path of a top-level section's child (`parentPath={category.slug}`, depth 1). */
  lemma TopLevelChildRows(top: Category, child: Category)
    requires top.slug != ""
    ensures Rows(child, top.slug, 1)[0] == Row(1, top.slug + "/" + child.slug)
    ensures forall r :: r in Rows(child, top.slug, 1) ==> 1 <= r.depth <= 2 && StartsWith(r.path, top.slug + "/")
  {
    RowsBounded(child, top.slug, 1);
  }

  /** `toggleCategory`: the same id closes the section, another id opens that one instead. */
  function Toggled(prev: Option<string>, id: string): (r: Option<string>)
    ensures r == None <==> prev == Some(id)
  {
    if prev == Some(id) then None else Some(id)
  }

  /** Toggling the same section twice restores the state when no section or that section was
      open; when another section was open, the first toggle replaces it and the second closes all. */
  lemma ToggleTwice(prev: Option<string>, id: string)
    ensures (prev == None || prev == Some(id)) ==> Toggled(Toggled(prev, id), id) == prev
    ensures prev.Some? && prev != Some(id) ==> Toggled(Toggled(prev, id), id) == None
  {
    if prev.Some? && prev != Some(id) {
      assert Toggled(prev, id) == Some(id);
    }
  }

  /** The sheet (`MobileLinks`): open flag and the one expanded top-level section. */
  class MobileMenu {
    var isMobileMenuOpen: bool
    var expandedCategory: Option<string>

    constructor ()
      ensures !isMobileMenuOpen && expandedCategory == None
    {
      isMobileMenuOpen := false;
      expandedCategory := None;
    }

    predicate IsExpanded(id: string)
      reads this
    {
      expandedCategory == Some(id)
    }

    method ToggleCategory(id: string)
      modifies this`expandedCategory
      ensures expandedCategory == Toggled(old(expandedCategory), id)
      ensures IsExpanded(id) <==> !old(IsExpanded(id))
      ensures forall other :: other != id ==> !IsExpanded(other)
    {
      expandedCategory := if expandedCategory == Some(id) then None else Some(id);
    }

    /** `onOpenChange` of the sheet. */
    method SetOpen(open: bool)
      modifies this`isMobileMenuOpen
      ensures isMobileMenuOpen == open
    {
      isMobileMenuOpen := open;
    }

    /** `handleLinkClick`: any link closes the sheet; the expanded section is kept. */
    method HandleLinkClick()
      modifies this`isMobileMenuOpen
      ensures !isMobileMenuOpen
    {
      isMobileMenuOpen := false;
    }
  }

  /** A nested category (`MobileCategory`) and its own expanded flag. */
  class MobileCategoryItem {
    const category: Category
    const depth: int
    var isExpanded: bool

    constructor (category: Category, depth: int)
      ensures this.category == category && this.depth == depth && !isExpanded
    {
      this.category := category;
      this.depth := depth;
      isExpanded := false;
    }

    /** Its children are shown only when it is expandable and expanded. */
    predicate ShowsChildren()
      reads this
    {
      Expandable(category, depth) && isExpanded
    }

    method ToggleExpanded()
      modifies this
      ensures isExpanded == !old(isExpanded)
    {
      isExpanded := !isExpanded;
    }

    /** `handleCategoryClick`: closes the sheet and collapses this category. */
    method HandleCategoryClick(menu: MobileMenu)
      modifies this, menu`isMobileMenuOpen
      ensures !menu.isMobileMenuOpen && !isExpanded && !ShowsChildren()
    {
      menu.HandleLinkClick();
      isExpanded := false;
    }
  }
}
