/** The category tree of the navigation and the slug paths built from it. */
module Categories {
  /** A category and its sub-categories. */
  datatype Category = Category(id: string, slug: string, name: string, children: Children)

  /** The optional `children` field: absent, or a list (possibly empty). */
  datatype Children = Absent | Listed(list: seq<Category>)

  /** `category.children && category.children.length > 0` */
  predicate HasChildren(c: Category) {
    c.children.Listed? && |c.children.list| > 0
  }

  /** `buildCategoryPath(category, parentPath)`: the slug under a non-empty parent path, else the
      slug alone. */
  function BuildCategoryPath(c: Category, parentPath: string): (r: string)
    ensures parentPath == "" ==> r == c.slug
    ensures parentPath != "" ==> r == parentPath + "/" + c.slug
  {
    if parentPath != "" then parentPath + "/" + c.slug else c.slug
  }

  /** The path of a category under a non-empty parent path starts with that path and a slash and
      ends with the category's slug. */
  lemma PathExtendsParent(c: Category, parentPath: string)
    requires parentPath != ""
    ensures var p := BuildCategoryPath(c, parentPath);
      |p| == |parentPath| + 1 + |c.slug| && p[..|parentPath| + 1] == parentPath + "/" && p[|parentPath| + 1..] == c.slug
  {
  }
}
