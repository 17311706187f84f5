/**
 * The page markup of the catalog, built by string concatenation exactly as the page's
 * template literals lay it out: every line break is followed by the literal's indentation,
 * and no text is escaped.
 */
module MenuRender {
  import opened MenuData

  /** A line break followed by `n` spaces: how each new line of a template begins. */
  function Line(n: nat): (s: string)
    ensures |s| == n + 1 && s[0] == '\n'
  {
    "\n" + seq(n, _ => ' ')
  }

  lemma LineSpaces(n: nat, k: nat)
    requires 1 <= k <= n
    ensures Line(n)[k] == ' '
  {
  }

  /** `xs.map(f).join('')`: the fragments of `f` over `xs`, in order, with no separator. */
  function MapJoin<T>(xs: seq<T>, f: T -> string): string {
    if xs == [] then "" else f(xs[0]) + MapJoin(xs[1..], f)
  }

  lemma MapJoinCons<T>(xs: seq<T>, f: T -> string, rest: string)
    requires xs != []
    ensures MapJoin(xs, f) + rest == f(xs[0]) + (MapJoin(xs[1..], f) + rest)
  {
  }

  // ---- one item ----

  const ItemOpen: string :=
    Line(8) + "<article class=\"menu-item\">" + Line(12) + "<div class=\"item-info\">" +
    Line(16) + "<h3 class=\"item-name\">"
  const NameClose: string := "</h3>" + Line(16) + "<p class=\"item-description\">"
  const DescriptionClose: string := "</p>" + Line(16)
  const TagsOpen: string := Line(20) + "<div class=\"item-tags\">" + Line(24)
  const TagOpen: string := "<span class=\"item-tag\">"
  const TagClose: string := "</span>"
  const TagsClose: string := Line(20) + "</div>" + Line(16)
  const PriceOpen: string := Line(12) + "</div>" + Line(12) + "<span class=\"item-price\">"
  const ItemClose: string := "</span>" + Line(8) + "</article>" + Line(4)

  /** One tag badge. */
  function CreateTag(tag: string): string {
    TagOpen + tag + TagClose
  }

  /** The badge block of an item: present only when the item has tags. */
  function TagBlock(tags: seq<string>): string {
    if |tags| > 0 then TagsOpen + MapJoin(tags, CreateTag) + TagsClose else ""
  }

  /** The markup of an item up to the place where its tag block goes. */
  function ItemHead(item: Item): string {
    ItemOpen + item.name + NameClose + item.description + DescriptionClose
  }

  /** createMenuItem: name, description, the optional tag block, then the price. */
  function CreateMenuItem(item: Item): string {
    ItemHead(item) + TagBlock(item.tags) + PriceOpen + item.price + ItemClose
  }

  // ---- one category ----

  const SectionOpen: string := Line(8) + "<section id=\""
  const SectionLabelledBy: string := "\" class=\"menu-category\" aria-labelledby=\""
  const HeadingOpen: string := "\">" + Line(12) + "<h2 id=\""
  const HeadingClass: string := "\" class=\"category-title\">"
  const ItemsOpen: string := "</h2>" + Line(12) + "<div class=\"menu-items\">" + Line(16)
  const SectionClose: string := Line(12) + "</div>" + Line(8) + "</section>" + Line(4)

  /** The id of a category's heading, which also labels its section. */
  function TitleId(id: string): string {
    id + "-title"
  }

  /** createMenuCategory: a section anchored at the category id, its heading, then its items. */
  function CreateMenuCategory(c: Category): string {
    SectionOpen + c.id + SectionLabelledBy + TitleId(c.id) + HeadingOpen + TitleId(c.id) +
    HeadingClass + c.title + ItemsOpen + MapJoin(c.items, CreateMenuItem) + SectionClose
  }

  // ---- navigation, footer, page ----

  const NavOpen: string :=
    Line(8) + "<header class=\"menu-header\">" + Line(12) +
    "<nav class=\"menu-nav\" role=\"navigation\" aria-label=\"Categorias do menu\">" +
    Line(16) + "<ul>" + Line(20)
  const LinkOpen: string := Line(24) + "<li><a href=\""
  const LinkText: string := "\">"
  const LinkClose: string := "</a></li>" + Line(20)
  const NavClose: string := Line(16) + "</ul>" + Line(12) + "</nav>" + Line(8) + "</header>" + Line(4)

  /** The anchor a navigation link points at. */
  function Href(id: string): string {
    "#" + id
  }

  /** One list entry of the navigation bar. */
  function CreateNavLink(c: Category): string {
    LinkOpen + Href(c.id) + LinkText + c.title + LinkClose
  }

  /** createMenuNav: one link per category of the catalog. */
  function CreateMenuNav(catalog: Catalog): string {
    NavOpen + MapJoin(catalog.categories, CreateNavLink) + NavClose
  }

  /** createMenuFooter: two fixed notices. */
  function CreateMenuFooter(): string {
    Line(8) + "<footer class=\"menu-footer\">" +
    Line(12) + "<p>Pre\U{E7}os incluem 10% de servi\U{E7}o</p>" +
    Line(12) + "<p>Consulte nosso card\U{E1}pio para mais op\U{E7}\U{F5}es</p>" +
    Line(8) + "</footer>" + Line(4)
  }

  /** The content renderMenu places in the page container: navigation, sections, footer. */
  function MenuContent(catalog: Catalog): string {
    Line(8) + CreateMenuNav(catalog) + Line(8) + MapJoin(catalog.categories, CreateMenuCategory) +
    Line(8) + CreateMenuFooter() + Line(4)
  }
}
