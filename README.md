# Restaurant menu page: markup and active-section tracking

This project models `menu.js`, the script of a restaurant menu page, and proves properties about it.
The script does two things:

- **Rendering.** It turns a fixed catalog into the page content: a navigation bar with one link
  per category, one section per category with its items and their optional tag badges, and a
  fixed footer. The catalog is a list of categories (id, title, items), each item with a name,
  description, price and tags.
- **Active-section tracking.** When the content is in place, it finds the sections and the
  navigation links. It marks the link of the section the reader has scrolled to with
  `aria-current="page"`, and every other link with `aria-current=""`.

How the model is laid out:

- `text.dfy` (module `Text`): an option type and a few string-scanning functions used to read
  markup back.
- `menu_data.dfy` (`MenuData`): the catalog datatypes, the catalog invariant and the fixed
  catalog `Menu`.
- `menu_render.dfy` (`MenuRender`): the templates as string concatenation. Every line break of a
  template is kept together with the spaces that follow it. The script's template literals read
  their line ends as `\n`, so the model writes `\n`. Nothing is escaped, just as in the script.
- `menu_read.dfy` (`MenuRead`): a reader for each fragment the templates produce. Each reader
  comes with a round-trip lemma: reading the rendering of `x`, followed by anything that cannot
  continue the fragment, gives back the view of `x` and that rest. This is how the counts, order,
  ids and optional parts of the markup are stated.
- `scroll_nav.dfy` (`ScrollNav`): `updateActiveLink`. The selection loop is a method checked
  against the recursive function `LastReached`. The marking loop is a method that updates an
  array of links in place, checked against the function `Marked`.
- `menu_page.dfy` (`MenuPage`): `renderMenu` and `setupScrollNavigation` together. The section
  and link queries are the reader applied to the content. The main result is that on a valid
  catalog, link i is marked exactly when section i is the last one reached.

Scroll positions and section offsets are integers. The offset of each section comes from the
layout, so it is a parameter (`offsetTop`, indexed by section). The scroll position is a
parameter too.

Two facts about the code are worth stating plainly, and the model proves both:

- No link is marked while the scroll position has reached no section. Every link then carries
  `aria-current=""` (`NoPageBeforeFirstSection`, `ActiveLinkIsLastReached`).
- With section tops 0, 500 and 1200, the third section is current at scroll position 1150,
  because 1150 >= 1200 - 60 (`LookaheadBoundary`).

## Model

| member | source | states |
|---|---|---|
| MenuData.MenuIsValid | menu.js:2-53 | the page's fixed catalog, the constant `MenuData.Menu`, satisfies the catalog invariant: no `<` in any displayed text; no `"`, `&`, carriage return or NUL in any id; category ids non-empty and pairwise distinct |
| MenuRender.CreateTag | menu.js:64 | one tag badge; `TagsRoundTrip` proves the joined badges read back as the tags |
| MenuRender.TagBlock | menu.js:62-66 | the optional tag block; `TagBlockRoundTrip` and `TagBlockIffTags` state its contents and when it is present |
| MenuRender.CreateMenuItem | menu.js:56-71 | `createMenuItem`; `ItemRoundTrip` proves the markup gives back the whole item |
| MenuRender.CreateMenuCategory | menu.js:74-83 | `createMenuCategory`; `CategoryRoundTrip` proves the section's ids, title and items |
| MenuRender.CreateNavLink | menu.js:91-93 | one navigation entry; `LinkRoundTrip` proves its href and text |
| MenuRender.CreateMenuNav | menu.js:86-98 | `createMenuNav`, with the catalog passed in; `NavRoundTrip` proves one link per category, in order |
| MenuRender.CreateMenuFooter | menu.js:101-108 | `createMenuFooter`, the fixed footer text; `PageEndRoundTrip` proves it closes the page |
| MenuRender.MenuContent | menu.js:113-117 | the string `renderMenu` assigns; `MenuContentRoundTrip` and `PageStructure` prove its structure |
| MenuRead.TagsRoundTrip | menu.js:64 | the joined tag spans of N tags read back as exactly those N tags, in order, one `item-tag` span each |
| MenuRead.TagBlockRoundTrip | menu.js:62-66 | the tag block reads back as the item's tags; with no tags it is the empty string and reads as no tags |
| MenuRead.TagBlockIffTags | menu.js:62-66 | after the description, an item's markup opens an `item-tags` block if and only if the item has at least one tag |
| MenuRead.ItemRoundTrip | menu.js:56-71 | an item's markup reads back as that same item (name, description, tags, price) and nothing more |
| MenuRead.ItemsRoundTrip | menu.js:79 | a category's joined items read back as exactly its items, one article each, in order |
| MenuRead.CategoryRoundTrip | menu.js:74-83 | a category's section has id `category.id`, is labelled by `category.id + "-title"`, and its heading has that id and the title; its items are the category's items in order |
| MenuRead.SectionsRoundTrip | menu.js:115 | the joined categories read back as one section per category, in catalog order |
| MenuRead.LinkRoundTrip | menu.js:92 | a navigation entry reads back as a link with href `"#" + id` and the category title as its text |
| MenuRead.LinksRoundTrip | menu.js:91-93 | the joined navigation entries read back as one link per category, in catalog order |
| MenuRead.NavRoundTrip | menu.js:86-98 | the navigation bar reads back as exactly the links of the catalog's categories |
| MenuRead.PageEndRoundTrip | menu.js:101-108 | the fixed footer closes the page and cannot be taken for another section |
| MenuRead.MenuContentRoundTrip | menu.js:113-117 | the page content reads back as the navigation links, then the sections of all categories in order, then the footer |
| MenuPage.PageStructure | menu.js:113-117 | the content has exactly one link and one section per category; link i is `"#" + id` of category i, and section i carries that id and is labelled by its own heading |
| MenuPage.SectionsDetermineCategories | menu.js:76-79 | the sections read from a page determine the categories that produced them |
| MenuPage.MenuContentInjective | menu.js:111-117 | rendering loses nothing: well-formed catalogs with equal content are equal |
| MenuPage.QueriesMatchCatalog | menu.js:125-140 | on the content of a well-formed catalog, the section query yields one section per category with its id and offset, and each link's href without its first character is the id of the category at the same index; no link is marked yet |
| MenuPage.MarkingFollowsSections | menu.js:128-144 | on a page of distinct non-empty ids, link i is marked `page` exactly when section i is the last one reached |
| MenuPage.ActiveLinkIsLastReached | menu.js:124-148 | on the content of a valid catalog, after `updateActiveLink` link i is `page` exactly when section i is the last section reached, and every other link is `""` |
| MenuPage.SetupScrollNavigation | menu.js:124-148 | collects the page's sections and links into a fresh array, then marks it as `updateActiveLink` does |
| MenuPage.RenderMenu | menu.js:111-121 | the content is the rendering of the catalog; the links afterwards are those of the content, marked for the given scroll position; with distinct ids, only the last reached section's link is `page` |
| ScrollNav.LastReached | menu.js:129-136 | the index of the last section reached, or none; any index it gives is in range and belongs to a reached section (`LastReachedSpec` gives the full characterisation) |
| ScrollNav.CurrentSection | menu.js:129-136 | the value of `currentSection` after the loop: `""` or the id of a reached section |
| ScrollNav.LastReachedSpec | menu.js:129-136 | the selected index belongs to a section with `scroll >= top - 60` and no later section qualifies; there is none exactly when no section qualifies |
| ScrollNav.LastReachedMonotone | menu.js:133-135 | scrolling further down never moves the selected index back |
| ScrollNav.LookaheadBoundary | menu.js:133-135 | with tops 0, 500 and 1200, positions 10, 550, 1139, 1140 and 1150 select the first, second, second, third and third sections; the boundary is inclusive, and above the first threshold the id is `""` |
| ScrollNav.SelectSection | menu.js:129-136 | the selection loop returns the id of the last qualifying section, or `""` when none qualifies |
| ScrollNav.Marked | menu.js:138-143 | after marking, every link keeps its href and has marker `""` or `page`; it is `page` exactly when its href without the first character is the selected id |
| ScrollNav.AtMostOnePage | menu.js:138-143 | when no two hrefs name the same section, at most one link is `page` |
| ScrollNav.NoPageBeforeFirstSection | menu.js:129-143 | while no section is reached, no link with an href longer than `#` is `page` |
| ScrollNav.MarkedForgetsPrevious | menu.js:138-143 | marking overwrites every marker, so the result of a later scroll event does not depend on earlier ones |
| ScrollNav.MarkLinks | menu.js:138-143 | the marking loop leaves the link array equal to `Marked` of its old contents |
| ScrollNav.UpdateActiveLink | menu.js:128-144 | the links end up marked for the id of the last section reached at the scroll position |

## Left out

- DOM writes: `getElementById` and the assignment to `innerHTML` (menu.js:112-113) are not
  modelled. `MenuRender.MenuContent` is the string assigned. The container is assumed to exist,
  so the failure when it is missing is not modelled.
- DOM queries: `querySelectorAll`, `getAttribute` and `setAttribute` (menu.js:125-126, 134,
  139-141) are modelled by values. The sections and links are read from the content with
  `MenuRead.ReadPage`. The markers are a field of a link value held in an array.
- The browser's markup parser is not modelled. The readers stand in for it only on markup that
  has no `<` in its texts and no `"`, `&`, carriage return or NUL in its ids. The script escapes
  nothing, so with such characters the page's structure would change, or the browser would
  decode an id into something else. The model does not say how.
- Character references in element text are not decoded. The readers return a title, name,
  description, price or tag exactly as written in the markup, while the browser would show
  `&amp;` as `&`. The link marking does not depend on these texts.
- `querySelectorAll('section')` and `querySelectorAll('.menu-nav a')` (menu.js:125-126)
  search the whole document. The model takes the sections and links of the rendered content
  only, so it assumes the host page has no other `section` element and no other link inside a
  `menu-nav` element.
- Layout: section offsets and the scroll position are integers supplied as parameters. The
  browser's values can be fractional.
- `sectionHeight` (menu.js:132) is read but never used, so it is left out.
- Event wiring (menu.js:146-147, 151) is not modelled. `RenderMenu` runs the set-up once, which
  marks the links once. A later scroll event is another call of `UpdateActiveLink`.
- MenuPage.RenderMenu: it takes the catalog as a parameter instead of reading the module-level
  `menuData`. It requires that catalog to be well formed so that the readers describe the page.
  The script renders any catalog, and its own is well formed (`MenuData.MenuIsValid`).
- `createMenuNav` also reads `menuData` directly. `MenuRender.CreateMenuNav` receives the
  catalog instead.
- That the content is a deterministic function of the catalog holds because `MenuContent` is a
  function. No lemma states it separately.
