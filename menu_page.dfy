/**
 * The page as a whole: renderMenu writes the content, then setupScrollNavigation finds the
 * sections and navigation links in it and marks the link of the section in view.
 */
module MenuPage {
  import opened Text
  import opened MenuData
  import opened MenuRender
  import opened MenuRead
  import opened ScrollNav

  // ---- what the rendered page contains ----

  /** The rendered content reads back as one link and one section per category, in catalog order;
      link i points at section i, and each section is labelled by its own heading. */
  lemma PageStructure(catalog: Catalog)
    requires WellFormedCatalog(catalog)
    ensures ReadPage(MenuContent(catalog)).Some?
    ensures var p := ReadPage(MenuContent(catalog)).value;
            var cs := catalog.categories;
            && |p.links| == |cs|
            && |p.sections| == |cs|
            && forall i :: 0 <= i < |cs| ==>
                 && p.links[i] == LinkView("#" + cs[i].id, cs[i].title)
                 && p.sections[i] ==
                    SectionView(cs[i].id, cs[i].id + "-title", cs[i].id + "-title", cs[i].title, cs[i].items)
  {
    MenuContentRoundTrip(catalog);
    var cs := catalog.categories;
    forall i | 0 <= i < |cs|
      ensures Map(cs, LinkOf)[i] == LinkView("#" + cs[i].id, cs[i].title)
      ensures Map(cs, SectionOf)[i] ==
              SectionView(cs[i].id, cs[i].id + "-title", cs[i].id + "-title", cs[i].title, cs[i].items)
    {
      MapAt(cs, LinkOf, i);
      MapAt(cs, SectionOf, i);
    }
  }

  /** The sections read back from a page determine the categories they came from. */
  lemma SectionsDetermineCategories(cs1: seq<Category>, cs2: seq<Category>)
    requires Map(cs1, SectionOf) == Map(cs2, SectionOf)
    ensures cs1 == cs2
  {
    assert |cs1| == |cs2|;
    forall i | 0 <= i < |cs1|
      ensures cs1[i] == cs2[i]
    {
      MapAt(cs1, SectionOf, i);
      MapAt(cs2, SectionOf, i);
    }
  }

  /** Rendering loses nothing: two well-formed catalogs with the same content are the same catalog. */
  lemma MenuContentInjective(c1: Catalog, c2: Catalog)
    requires WellFormedCatalog(c1) && WellFormedCatalog(c2)
    requires MenuContent(c1) == MenuContent(c2)
    ensures c1 == c2
  {
    MenuContentRoundTrip(c1);
    MenuContentRoundTrip(c2);
    SectionsDetermineCategories(c1.categories, c2.categories);
  }

  // ---- the DOM queries of setupScrollNavigation ----

  /** `querySelectorAll('section')` with each section's `offsetTop`, which the layout supplies. */
  function SectionsOf(page: PageView, offsetTop: nat -> int): (r: seq<SectionPos>)
    ensures |r| == |page.sections|
    ensures forall i :: 0 <= i < |r| ==> r[i] == SectionPos(page.sections[i].id, offsetTop(i))
  {
    seq(|page.sections|, i requires 0 <= i < |page.sections| => SectionPos(page.sections[i].id, offsetTop(i)))
  }

  /** `querySelectorAll('.menu-nav a')`: the navigation links, none marked yet. */
  function LinksOf(page: PageView): (r: seq<NavLink>)
    ensures |r| == |page.links|
    ensures forall i :: 0 <= i < |r| ==> r[i] == NavLink(page.links[i].href, None)
  {
    seq(|page.links|, i requires 0 <= i < |page.links| => NavLink(page.links[i].href, None))
  }

  /** The two queries of setupScrollNavigation on the rendered content: section i carries the id
      of category i and its layout offset, and link i, with its first character dropped, names
      that same id and carries no marker yet. */
  lemma QueriesMatchCatalog(catalog: Catalog, offsetTop: nat -> int)
    requires WellFormedCatalog(catalog)
    ensures ReadPage(MenuContent(catalog)).Some?
    ensures var page := ReadPage(MenuContent(catalog)).value;
            var sections := SectionsOf(page, offsetTop);
            var links := LinksOf(page);
            var cs := catalog.categories;
            && |sections| == |links| == |cs|
            && forall i :: 0 <= i < |cs| ==>
                 && sections[i] == SectionPos(cs[i].id, offsetTop(i))
                 && Slice1(links[i].href) == cs[i].id
                 && links[i].ariaCurrent.None?
  {
    PageStructure(catalog);
  }

  /** On the page read back from distinct, non-empty category ids, link i is marked "page"
      exactly when section i is the last one reached. */
  lemma MarkingFollowsSections(catalog: Catalog, offsetTop: nat -> int, scrollY: int)
    requires UniqueIds(catalog)
    ensures var cs := catalog.categories;
            var page := PageView(Map(cs, LinkOf), Map(cs, SectionOf));
            var sections := SectionsOf(page, offsetTop);
            var marked := Marked(LinksOf(page), CurrentSection(sections, scrollY));
            && |marked| == |sections| == |cs|
            && MarksLastReached(marked, sections, scrollY)
  {
    var cs := catalog.categories;
    var page := PageView(Map(cs, LinkOf), Map(cs, SectionOf));
    var sections := SectionsOf(page, offsetTop);
    var current := CurrentSection(sections, scrollY);
    var links := LinksOf(page);
    forall i | 0 <= i < |cs|
      ensures links[i].href == "#" + cs[i].id && sections[i].id == cs[i].id
    {
      MapAt(cs, LinkOf, i);
      MapAt(cs, SectionOf, i);
    }
    forall i | 0 <= i < |cs|
      ensures Slice1(links[i].href) == current <==> LastReached(sections, scrollY) == Some(i)
    {
      assert Slice1(links[i].href) == cs[i].id;
      match LastReached(sections, scrollY)
      case Some(j) =>
        assert current == cs[j].id;
      case None =>
        assert current == "";
    }
  }

  /** On the page of a valid catalog, link i ends up marked "page" exactly when section i is the
      last one reached, and every other link carries "". Before the first section is reached no
      link is marked at all. */
  lemma ActiveLinkIsLastReached(catalog: Catalog, offsetTop: nat -> int, scrollY: int)
    requires ValidCatalog(catalog)
    ensures ReadPage(MenuContent(catalog)).Some?
    ensures var page := ReadPage(MenuContent(catalog)).value;
            var sections := SectionsOf(page, offsetTop);
            var marked := Marked(LinksOf(page), CurrentSection(sections, scrollY));
            && |marked| == |sections| == |catalog.categories|
            && MarksLastReached(marked, sections, scrollY)
  {
    MenuContentRoundTrip(catalog);
    MarkingFollowsSections(catalog, offsetTop, scrollY);
  }

  // ---- renderMenu and setupScrollNavigation ----

  /** setupScrollNavigation, up to its first call of updateActiveLink: collect the sections and
      the links of the page, then mark the link of the section in view. */
  method SetupScrollNavigation(page: PageView, offsetTop: nat -> int, scrollY: int)
    returns (navLinks: array<NavLink>)
    ensures fresh(navLinks)
    ensures navLinks[..] == Marked(LinksOf(page), CurrentSection(SectionsOf(page, offsetTop), scrollY))
  {
    var sections := SectionsOf(page, offsetTop);
    var links := LinksOf(page);
    navLinks := new NavLink[|links|](i requires 0 <= i < |links| => links[i]);
    assert navLinks[..] == links;
    UpdateActiveLink(sections, navLinks, scrollY);
  }

  /** renderMenu: write the content of the catalog, then set up the scroll navigation on it.
      With distinct category ids, the link of each category ends up marked "page" exactly when
      its section is the last one reached. */
  method RenderMenu(menuData: Catalog, offsetTop: nat -> int, scrollY: int)
    returns (content: string, navLinks: array<NavLink>)
    requires WellFormedCatalog(menuData)
    ensures content == MenuContent(menuData)
    ensures ReadPage(content).Some?
    ensures fresh(navLinks)
    ensures navLinks.Length == |menuData.categories|
    ensures var page := ReadPage(content).value;
            navLinks[..] == Marked(LinksOf(page), CurrentSection(SectionsOf(page, offsetTop), scrollY))
    ensures UniqueIds(menuData) ==>
              MarksLastReached(navLinks[..], SectionsOf(ReadPage(content).value, offsetTop), scrollY)
  {
    content := MenuContent(menuData);
    PageStructure(menuData);
    if UniqueIds(menuData) {
      ActiveLinkIsLastReached(menuData, offsetTop, scrollY);
    }
    navLinks := SetupScrollNavigation(ReadPage(content).value, offsetTop, scrollY);
  }
}
