/**
 * Readers that take the page markup apart again. They are the inverse of the templates in
 * MenuRender: reading what a template wrote gives back the catalog data it was written from,
 * which pins down what the markup holds (how many links, sections, items and tag badges, their
 * ids and their order).
 */
module MenuRead {
  import opened Text
  import opened MenuData
  import opened MenuRender

  /** What a category's section shows: its id, its aria label, its heading id, title and items. */
  datatype SectionView = SectionView(id: string, labelledBy: string, headingId: string, title: string, items: seq<Item>)

  /** A navigation link: its href attribute and its text. */
  datatype LinkView = LinkView(href: string, text: string)

  /** The page: the navigation links and the sections, each in document order. */
  datatype PageView = PageView(links: seq<LinkView>, sections: seq<SectionView>)

  function Map<T, U>(xs: seq<T>, f: T -> U): (r: seq<U>)
    ensures |r| == |xs|
  {
    if xs == [] then [] else [f(xs[0])] + Map(xs[1..], f)
  }

  lemma {:induction false} MapAt<T, U>(xs: seq<T>, f: T -> U, i: nat)
    requires i < |xs|
    ensures Map(xs, f)[i] == f(xs[i])
  {
    if i > 0 {
      MapAt(xs[1..], f, i - 1);
    }
  }

  /** The section a category is expected to yield. */
  function SectionOf(c: Category): SectionView {
    SectionView(c.id, TitleId(c.id), TitleId(c.id), c.title, c.items)
  }

  /** The navigation link a category is expected to yield. */
  function LinkOf(c: Category): LinkView {
    LinkView(Href(c.id), c.title)
  }

  // ---- readers ----

  /** Reads consecutive tag badges; returns the tags and what follows them. */
  function ReadTags(s: string): (r: (seq<string>, string))
    ensures |r.1| <= |s|
    decreases |s|
  {
    match Chomp(TagOpen, s)
    case None => ([], s)
    case Some(s1) =>
      var (tag, s2) := SplitAt(s1, '<');
      match Chomp(TagClose, s2)
      case None => ([], s)
      case Some(s3) =>
        var (more, s4) := ReadTags(s3);
        ([tag] + more, s4)
  }

  /** Reads an optional tag block; when there is none the item has no tags. */
  function ReadTagBlock(s: string): (r: Option<(seq<string>, string)>)
    ensures r.Some? ==> |r.value.1| <= |s|
  {
    match Chomp(TagsOpen, s)
    case None => Some(([], s))
    case Some(s1) =>
      var (tags, s2) := ReadTags(s1);
      var s3 :- Chomp(TagsClose, s2);
      Some((tags, s3))
  }

  function ReadItem(s: string): (r: Option<(Item, string)>)
    ensures r.Some? ==> |r.value.1| < |s|
  {
    var s1 :- Chomp(ItemOpen, s);
    var (name, s2) := SplitAt(s1, '<');
    var s3 :- Chomp(NameClose, s2);
    var (description, s4) := SplitAt(s3, '<');
    var s5 :- Chomp(DescriptionClose, s4);
    var tags :- ReadTagBlock(s5);
    var s6 :- Chomp(PriceOpen, tags.1);
    var (price, s7) := SplitAt(s6, '<');
    var s8 :- Chomp(ItemClose, s7);
    Some((Item(name, description, price, tags.0), s8))
  }

  /** Reads items for as long as the text opens another item. */
  function ReadItems(s: string): (r: Option<(seq<Item>, string)>)
    ensures r.Some? ==> |r.value.1| <= |s|
    decreases |s|
  {
    if Chomp(ItemOpen, s).None? then Some(([], s))
    else
      var first :- ReadItem(s);
      var more :- ReadItems(first.1);
      Some(([first.0] + more.0, more.1))
  }

  /** Reads a section's opening tag and heading: id, aria label, heading id, title, and what follows. */
  function ReadSectionHead(s: string): (r: Option<(string, string, string, string, string)>)
    ensures r.Some? ==> |r.value.4| < |s|
  {
    var s1 :- Chomp(SectionOpen, s);
    var (id, s2) := SplitAt(s1, '"');
    var s3 :- Chomp(SectionLabelledBy, s2);
    var (labelledBy, s4) := SplitAt(s3, '"');
    var s5 :- Chomp(HeadingOpen, s4);
    var (headingId, s6) := SplitAt(s5, '"');
    var s7 :- Chomp(HeadingClass, s6);
    var (title, s8) := SplitAt(s7, '<');
    var s9 :- Chomp(ItemsOpen, s8);
    Some((id, labelledBy, headingId, title, s9))
  }

  function ReadSection(s: string): (r: Option<(SectionView, string)>)
    ensures r.Some? ==> |r.value.1| < |s|
  {
    var head :- ReadSectionHead(s);
    var items :- ReadItems(head.4);
    var rest :- Chomp(SectionClose, items.1);
    Some((SectionView(head.0, head.1, head.2, head.3, items.0), rest))
  }

  /** Reads sections for as long as the text opens another section. */
  function ReadSections(s: string): (r: Option<(seq<SectionView>, string)>)
    ensures r.Some? ==> |r.value.1| <= |s|
    decreases |s|
  {
    if Chomp(SectionOpen, s).None? then Some(([], s))
    else
      var first :- ReadSection(s);
      var more :- ReadSections(first.1);
      Some(([first.0] + more.0, more.1))
  }

  function ReadLink(s: string): (r: Option<(LinkView, string)>)
    ensures r.Some? ==> |r.value.1| < |s|
  {
    var s1 :- Chomp(LinkOpen, s);
    var (href, s2) := SplitAt(s1, '"');
    var s3 :- Chomp(LinkText, s2);
    var (text, s4) := SplitAt(s3, '<');
    var s5 :- Chomp(LinkClose, s4);
    Some((LinkView(href, text), s5))
  }

  /** Reads navigation links for as long as the text opens another one. */
  function ReadLinks(s: string): (r: Option<(seq<LinkView>, string)>)
    ensures r.Some? ==> |r.value.1| <= |s|
    decreases |s|
  {
    if Chomp(LinkOpen, s).None? then Some(([], s))
    else
      var first :- ReadLink(s);
      var more :- ReadLinks(first.1);
      Some(([first.0] + more.0, more.1))
  }

  function ReadNav(s: string): (r: Option<(seq<LinkView>, string)>)
    ensures r.Some? ==> |r.value.1| < |s|
  {
    var s1 :- Chomp(NavOpen, s);
    var links :- ReadLinks(s1);
    var s2 :- Chomp(NavClose, links.1);
    Some((links.0, s2))
  }

  /** Reads the end of the page: the fixed footer and nothing after it. */
  function ReadPageEnd(s: string): bool {
    match Chomp(Line(8) + CreateMenuFooter() + Line(4), s)
    case Some(after) => after == ""
    case None => false
  }

  /** Reads a whole page: navigation, sections, then the page end. */
  function ReadPage(s: string): Option<PageView> {
    var s1 :- Chomp(Line(8), s);
    var nav :- ReadNav(s1);
    var s2 :- Chomp(Line(8), nav.1);
    var sections :- ReadSections(s2);
    if ReadPageEnd(sections.1) then Some(PageView(nav.0, sections.0)) else None
  }

  // ---- reading back what the templates wrote ----

  /** N tags are written as exactly N badges, one per tag and in catalog order. */
  lemma {:induction false} TagsRoundTrip(tags: seq<string>, rest: string)
    requires forall t :: t in tags ==> IsPlainText(t)
    requires Chomp(TagOpen, rest).None?
    ensures ReadTags(MapJoin(tags, CreateTag) + rest) == (tags, rest)
  {
    if tags != [] {
      var tail := MapJoin(tags[1..], CreateTag) + rest;
      MapJoinCons(tags, CreateTag, rest);
      Regroup3(TagOpen, tags[0], TagClose, tail);
      ChompPrefix(TagOpen, tags[0] + (TagClose + tail));
      assert tags[0] in tags && (TagClose + tail)[0] == '<';
      SplitAtAfter(tags[0], TagClose + tail, '<');
      ChompPrefix(TagClose, tail);
      TagsRoundTrip(tags[1..], rest);
      assert [tags[0]] + tags[1..] == tags;
    } else {
      assert MapJoin(tags, CreateTag) + rest == rest;
    }
  }

  /** The tag block, or its absence, gives back the item's tags. */
  lemma TagBlockRoundTrip(tags: seq<string>, rest: string)
    requires forall t :: t in tags ==> IsPlainText(t)
    requires Chomp(TagsOpen, rest).None?
    ensures ReadTagBlock(TagBlock(tags) + rest) == Some((tags, rest))
  {
    if |tags| > 0 {
      var spans := MapJoin(tags, CreateTag);
      Regroup3(TagsOpen, spans, TagsClose, rest);
      ChompPrefix(TagsOpen, spans + (TagsClose + rest));
      ChompMismatch(TagOpen, TagsClose + rest, 0);
      TagsRoundTrip(tags, TagsClose + rest);
      ChompPrefix(TagsClose, rest);
    } else {
      assert TagBlock(tags) + rest == rest;
    }
  }

  /** What follows an item's tag block can never be taken for one. */
  lemma PriceIsNotTagBlock(rest: string)
    ensures Chomp(TagsOpen, PriceOpen + rest).None?
  {
    LineSpaces(20, 13);
    ChompMismatch(TagsOpen, PriceOpen + rest, 13);
  }

  /** An item's markup after its head: the tag block, then the price. */
  lemma ItemAfterHead(item: Item)
    ensures CreateMenuItem(item)[|ItemHead(item)|..] ==
            TagBlock(item.tags) + (PriceOpen + (item.price + ItemClose))
  {
    AfterFirst5(ItemHead(item), TagBlock(item.tags), PriceOpen, item.price, ItemClose);
  }

  /** A non-empty tag block opens with the tag-block markup. */
  lemma TagBlockOpens(tags: seq<string>, tail: string)
    requires |tags| > 0
    ensures Chomp(TagsOpen, TagBlock(tags) + tail).Some?
  {
    var spans := MapJoin(tags, CreateTag);
    Regroup3(TagsOpen, spans, TagsClose, tail);
    ChompPrefix(TagsOpen, spans + (TagsClose + tail));
  }

  /** A tag block followed by the price opens with the tag-block markup exactly when there are tags. */
  lemma TagBlockOpensIffTags(tags: seq<string>, price: string)
    ensures Chomp(TagsOpen, TagBlock(tags) + (PriceOpen + (price + ItemClose))).Some? <==> |tags| > 0
  {
    if |tags| > 0 {
      TagBlockOpens(tags, PriceOpen + (price + ItemClose));
    } else {
      PriceIsNotTagBlock(price + ItemClose);
      assert TagBlock(tags) + (PriceOpen + (price + ItemClose)) == PriceOpen + (price + ItemClose);
    }
  }

  /** Right after the description, an item's markup opens a tag block exactly when it has tags. */
  lemma TagBlockIffTags(item: Item)
    ensures Chomp(TagsOpen, CreateMenuItem(item)[|ItemHead(item)|..]).Some? <==> |item.tags| > 0
  {
    ItemAfterHead(item);
    TagBlockOpensIffTags(item.tags, item.price);
  }

  /** Reading an item's markup gives back the item. */
  lemma ItemRoundTrip(item: Item, rest: string)
    requires WellFormedItem(item)
    ensures ReadItem(CreateMenuItem(item) + rest) == Some((item, rest))
  {
    var s8 := ItemClose + rest;
    var s6 := PriceOpen + (item.price + s8);
    var s5 := TagBlock(item.tags) + s6;
    var s3 := item.description + (DescriptionClose + s5);
    Regroup9(ItemOpen, item.name, NameClose, item.description, DescriptionClose,
             TagBlock(item.tags), PriceOpen, item.price, ItemClose, rest);
    ChompPrefix(ItemOpen, item.name + (NameClose + s3));
    assert (NameClose + s3)[0] == '<';
    SplitAtAfter(item.name, NameClose + s3, '<');
    ChompPrefix(NameClose, s3);
    assert (DescriptionClose + s5)[0] == '<';
    SplitAtAfter(item.description, DescriptionClose + s5, '<');
    ChompPrefix(DescriptionClose, s5);
    PriceIsNotTagBlock(item.price + s8);
    TagBlockRoundTrip(item.tags, s6);
    ChompPrefix(PriceOpen, item.price + s8);
    assert s8[0] == '<';
    SplitAtAfter(item.price, s8, '<');
    ChompPrefix(ItemClose, rest);
  }

  lemma ItemStartsWithOpen(item: Item, rest: string)
    ensures Chomp(ItemOpen, CreateMenuItem(item) + rest).Some?
  {
    Regroup9(ItemOpen, item.name, NameClose, item.description, DescriptionClose,
             TagBlock(item.tags), PriceOpen, item.price, ItemClose, rest);
    ChompPrefix(ItemOpen, item.name + (NameClose + (item.description + (DescriptionClose +
      (TagBlock(item.tags) + (PriceOpen + (item.price + (ItemClose + rest))))))));
  }

  /** Reading a run of items gives back exactly those items, in order. */
  lemma {:induction false} ItemsRoundTrip(items: seq<Item>, rest: string)
    requires forall item :: item in items ==> WellFormedItem(item)
    requires Chomp(ItemOpen, rest).None?
    ensures ReadItems(MapJoin(items, CreateMenuItem) + rest) == Some((items, rest))
  {
    if items != [] {
      var tail := MapJoin(items[1..], CreateMenuItem) + rest;
      MapJoinCons(items, CreateMenuItem, rest);
      assert items[0] in items;
      ItemRoundTrip(items[0], tail);
      ItemStartsWithOpen(items[0], tail);
      ItemsRoundTrip(items[1..], rest);
      assert [items[0]] + items[1..] == items;
    } else {
      assert MapJoin(items, CreateMenuItem) + rest == rest;
    }
  }

  /** What follows a category's items can never be taken for another item. */
  lemma SectionCloseIsNotItem(rest: string)
    ensures Chomp(ItemOpen, SectionClose + rest).None?
  {
    LineSpaces(12, 9);
    ChompMismatch(ItemOpen, SectionClose + rest, 9);
  }

  lemma SectionHeadRoundTrip(c: Category, rest: string)
    requires IsAttributeText(c.id) && IsPlainText(c.title)
    ensures ReadSectionHead(SectionOpen + (c.id + (SectionLabelledBy + (TitleId(c.id) + (HeadingOpen +
              (TitleId(c.id) + (HeadingClass + (c.title + (ItemsOpen + rest)))))))))
            == Some((c.id, TitleId(c.id), TitleId(c.id), c.title, rest))
  {
    var titleId := TitleId(c.id);
    var s7 := c.title + (ItemsOpen + rest);
    var s5 := titleId + (HeadingClass + s7);
    var s3 := titleId + (HeadingOpen + s5);
    ChompPrefix(SectionOpen, c.id + (SectionLabelledBy + s3));
    assert (SectionLabelledBy + s3)[0] == '"';
    SplitAtAfter(c.id, SectionLabelledBy + s3, '"');
    ChompPrefix(SectionLabelledBy, s3);
    assert '"' !in titleId;
    assert (HeadingOpen + s5)[0] == '"';
    SplitAtAfter(titleId, HeadingOpen + s5, '"');
    ChompPrefix(HeadingOpen, s5);
    assert (HeadingClass + s7)[0] == '"';
    SplitAtAfter(titleId, HeadingClass + s7, '"');
    ChompPrefix(HeadingClass, s7);
    assert (ItemsOpen + rest)[0] == '<';
    SplitAtAfter(c.title, ItemsOpen + rest, '<');
    ChompPrefix(ItemsOpen, rest);
  }

  /** Reading a category's section gives back its id, the heading id derived from it, its title
      and all of its items, in order. */
  lemma CategoryRoundTrip(c: Category, rest: string)
    requires WellFormedCategory(c)
    ensures ReadSection(CreateMenuCategory(c) + rest) == Some((SectionOf(c), rest))
  {
    var titleId := TitleId(c.id);
    var s10 := SectionClose + rest;
    var s9 := MapJoin(c.items, CreateMenuItem) + s10;
    Regroup11(SectionOpen, c.id, SectionLabelledBy, titleId, HeadingOpen, titleId, HeadingClass,
              c.title, ItemsOpen, MapJoin(c.items, CreateMenuItem), SectionClose, rest);
    SectionHeadRoundTrip(c, s9);
    SectionCloseIsNotItem(rest);
    ItemsRoundTrip(c.items, s10);
    ChompPrefix(SectionClose, rest);
  }

  lemma CategoryStartsWithOpen(c: Category, rest: string)
    ensures Chomp(SectionOpen, CreateMenuCategory(c) + rest).Some?
  {
    var titleId := TitleId(c.id);
    Regroup11(SectionOpen, c.id, SectionLabelledBy, titleId, HeadingOpen, titleId, HeadingClass,
              c.title, ItemsOpen, MapJoin(c.items, CreateMenuItem), SectionClose, rest);
    ChompPrefix(SectionOpen, c.id + (SectionLabelledBy + (titleId + (HeadingOpen + (titleId +
      (HeadingClass + (c.title + (ItemsOpen + (MapJoin(c.items, CreateMenuItem) + (SectionClose + rest))))))))));
  }

  /** One section per category, in catalog order. */
  lemma {:induction false} SectionsRoundTrip(cs: seq<Category>, rest: string)
    requires forall c :: c in cs ==> WellFormedCategory(c)
    requires Chomp(SectionOpen, rest).None?
    ensures ReadSections(MapJoin(cs, CreateMenuCategory) + rest) == Some((Map(cs, SectionOf), rest))
  {
    if cs != [] {
      var tail := MapJoin(cs[1..], CreateMenuCategory) + rest;
      MapJoinCons(cs, CreateMenuCategory, rest);
      assert cs[0] in cs;
      CategoryRoundTrip(cs[0], tail);
      CategoryStartsWithOpen(cs[0], tail);
      SectionsRoundTrip(cs[1..], rest);
    } else {
      assert MapJoin(cs, CreateMenuCategory) + rest == rest;
    }
  }

  /** Reading a navigation link gives back the category's anchor and title. */
  lemma LinkRoundTrip(c: Category, rest: string)
    requires WellFormedCategory(c)
    ensures ReadLink(CreateNavLink(c) + rest) == Some((LinkOf(c), rest))
  {
    var s5 := LinkClose + rest;
    var s3 := c.title + s5;
    Regroup5(LinkOpen, Href(c.id), LinkText, c.title, LinkClose, rest);
    ChompPrefix(LinkOpen, Href(c.id) + (LinkText + s3));
    assert '"' !in Href(c.id);
    assert (LinkText + s3)[0] == '"';
    SplitAtAfter(Href(c.id), LinkText + s3, '"');
    ChompPrefix(LinkText, s3);
    assert s5[0] == '<';
    SplitAtAfter(c.title, s5, '<');
    ChompPrefix(LinkClose, rest);
  }

  lemma LinkStartsWithOpen(c: Category, rest: string)
    ensures Chomp(LinkOpen, CreateNavLink(c) + rest).Some?
  {
    Regroup5(LinkOpen, Href(c.id), LinkText, c.title, LinkClose, rest);
    ChompPrefix(LinkOpen, Href(c.id) + (LinkText + (c.title + (LinkClose + rest))));
  }

  /** One navigation link per category, in catalog order. */
  lemma {:induction false} LinksRoundTrip(cs: seq<Category>, rest: string)
    requires forall c :: c in cs ==> WellFormedCategory(c)
    requires Chomp(LinkOpen, rest).None?
    ensures ReadLinks(MapJoin(cs, CreateNavLink) + rest) == Some((Map(cs, LinkOf), rest))
  {
    if cs != [] {
      var tail := MapJoin(cs[1..], CreateNavLink) + rest;
      MapJoinCons(cs, CreateNavLink, rest);
      assert cs[0] in cs;
      LinkRoundTrip(cs[0], tail);
      LinkStartsWithOpen(cs[0], tail);
      LinksRoundTrip(cs[1..], rest);
    } else {
      assert MapJoin(cs, CreateNavLink) + rest == rest;
    }
  }

  /** Reading the navigation bar gives back one link per category. */
  lemma NavRoundTrip(catalog: Catalog, rest: string)
    requires WellFormedCatalog(catalog)
    ensures ReadNav(CreateMenuNav(catalog) + rest) == Some((Map(catalog.categories, LinkOf), rest))
  {
    var links := MapJoin(catalog.categories, CreateNavLink);
    Regroup3(NavOpen, links, NavClose, rest);
    ChompPrefix(NavOpen, links + (NavClose + rest));
    LineSpaces(24, 17);
    ChompMismatch(LinkOpen, NavClose + rest, 17);
    LinksRoundTrip(catalog.categories, NavClose + rest);
    ChompPrefix(NavClose, rest);
  }

  /** The footer ends the page, and it cannot be taken for another section. */
  lemma PageEndRoundTrip()
    ensures ReadPageEnd(Line(8) + CreateMenuFooter() + Line(4))
    ensures Chomp(SectionOpen, Line(8) + CreateMenuFooter() + Line(4)).None?
  {
    var end := Line(8) + CreateMenuFooter() + Line(4);
    ChompPrefix(end, "");
    assert end + "" == end;
    ChompMismatch(SectionOpen, end, 9);
  }

  /** Reading the rendered content gives back the navigation links and the sections of the
      catalog: one of each per category, in catalog order, followed by the fixed footer. */
  lemma MenuContentRoundTrip(catalog: Catalog)
    requires WellFormedCatalog(catalog)
    ensures ReadPage(MenuContent(catalog)) ==
            Some(PageView(Map(catalog.categories, LinkOf), Map(catalog.categories, SectionOf)))
  {
    var end := Line(8) + CreateMenuFooter() + Line(4);
    var sections := MapJoin(catalog.categories, CreateMenuCategory);
    var s2 := sections + end;
    Regroup7(Line(8), CreateMenuNav(catalog), Line(8), sections, Line(8), CreateMenuFooter(), Line(4), "");
    assert MenuContent(catalog) + "" == MenuContent(catalog);
    Regroup3(Line(8), CreateMenuFooter(), Line(4), "");
    assert end + "" == end;
    ChompPrefix(Line(8), CreateMenuNav(catalog) + (Line(8) + s2));
    NavRoundTrip(catalog, Line(8) + s2);
    ChompPrefix(Line(8), s2);
    PageEndRoundTrip();
    SectionsRoundTrip(catalog.categories, end);
  }
}
