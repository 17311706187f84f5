/** The restaurant catalog: categories of items, and the fixed catalog the page shows. */
module MenuData {
  import opened Text

  /** One dish. The price is display text, not a number; tags may be empty. */
  datatype Item = Item(name: string, description: string, price: string, tags: seq<string>)

  /** A named group of items; `id` is the page anchor of its section. */
  datatype Category = Category(id: string, title: string, items: seq<Item>)

  datatype Catalog = Catalog(categories: seq<Category>)

  /** Every text of the item can be placed between tags unescaped. */
  predicate WellFormedItem(item: Item) {
    && IsPlainText(item.name)
    && IsPlainText(item.description)
    && IsPlainText(item.price)
    && forall t :: t in item.tags ==> IsPlainText(t)
  }

  /** The id can be placed in a quoted attribute, the title between tags. */
  predicate WellFormedCategory(c: Category) {
    && IsAttributeText(c.id)
    && IsPlainText(c.title)
    && forall item :: item in c.items ==> WellFormedItem(item)
  }

  predicate WellFormedCatalog(catalog: Catalog) {
    forall c :: c in catalog.categories ==> WellFormedCategory(c)
  }

  /** Category ids are non-empty and pairwise distinct, so each names one section. */
  predicate UniqueIds(catalog: Catalog) {
    && (forall i :: 0 <= i < |catalog.categories| ==> catalog.categories[i].id != "")
    && forall i, j :: 0 <= i < j < |catalog.categories| ==> catalog.categories[i].id != catalog.categories[j].id
  }

  /** The catalog invariant: renderable without escaping, and one anchor per category. */
  predicate ValidCatalog(catalog: Catalog) {
    WellFormedCatalog(catalog) && UniqueIds(catalog)
  }

  // The longer texts of the fixed catalog, each written as a few short literals so that the
  // verifier can inspect every character.
  const OnionSoupDescription: string :=
    "Sopa tradicional " + "francesa com " + "queijo gratinado " + "e croutons"
  const FondueDescription: string := "Fondue de queijos " + "com p\U{E3}o e legumes"
  const CremeBruleeDescription: string := "Creme de baunilha " + "com caramelo crocante"
  const RedWineDescription: string := "Vinho tinto " + "franc\U{EA}s, ta\U{E7}a"

  /** The dishes of the fixed catalog, one per category. */
  const OnionSoup: Item := Item("Sopa de Cebola " + "Gratinada", OnionSoupDescription, "R$ 45,00", [])
  const Fondue: Item := Item("Fondue Savoyarde", FondueDescription, "R$ 85,00", ["Queijo", "Vegetariano"])
  const CremeBrulee: Item := Item("Cr\U{E8}me Br\U{FB}l\U{E9}e", CremeBruleeDescription, "R$ 35,00", [])
  const RedWine: Item := Item("Vinho Tinto", RedWineDescription, "R$ 45,00", [])

  /** The fixed catalog of the page. */
  const Menu: Catalog := Catalog([
    Category("entradas", "Entradas", [OnionSoup]),
    Category("principais", "Pratos Principais", [Fondue]),
    Category("sobremesas", "Sobremesas", [CremeBrulee]),
    Category("bebidas", "Bebidas", [RedWine])
  ])

  // One lemma per long text keeps each character-by-character check small.

  lemma OnionSoupDescriptionIsPlain()
    ensures IsPlainText(OnionSoupDescription)
  {
  }

  lemma FondueDescriptionIsPlain()
    ensures IsPlainText(FondueDescription)
  {
  }

  lemma CremeBruleeDescriptionIsPlain()
    ensures IsPlainText(CremeBruleeDescription)
  {
  }

  lemma RedWineDescriptionIsPlain()
    ensures IsPlainText(RedWineDescription)
  {
  }

  lemma OnionSoupWellFormed()
    ensures WellFormedItem(OnionSoup)
  {
    OnionSoupDescriptionIsPlain();
  }

  lemma FondueWellFormed()
    ensures WellFormedItem(Fondue)
  {
    FondueDescriptionIsPlain();
    assert forall t :: t in Fondue.tags ==> t == "Queijo" || t == "Vegetariano";
  }

  lemma CremeBruleeWellFormed()
    ensures WellFormedItem(CremeBrulee)
  {
    CremeBruleeDescriptionIsPlain();
  }

  lemma RedWineWellFormed()
    ensures WellFormedItem(RedWine)
  {
    RedWineDescriptionIsPlain();
  }

  /** A category of one well-formed item is well formed when its id and title are. */
  lemma SingleItemCategory(id: string, title: string, item: Item)
    requires IsAttributeText(id) && IsPlainText(title) && WellFormedItem(item)
    ensures WellFormedCategory(Category(id, title, [item]))
  {
  }

  lemma FourCategories(a: Category, b: Category, c: Category, d: Category)
    requires WellFormedCategory(a) && WellFormedCategory(b)
    requires WellFormedCategory(c) && WellFormedCategory(d)
    ensures WellFormedCatalog(Catalog([a, b, c, d]))
  {
  }

  // The ids are checked two at a time, for the same reason as the long texts.

  lemma FirstIdsAreAttributeText()
    ensures IsAttributeText("entradas") && IsAttributeText("principais")
  {
  }

  lemma LastIdsAreAttributeText()
    ensures IsAttributeText("sobremesas") && IsAttributeText("bebidas")
  {
  }

  lemma MenuWellFormed()
    ensures WellFormedCatalog(Menu)
  {
    OnionSoupWellFormed();
    FondueWellFormed();
    CremeBruleeWellFormed();
    RedWineWellFormed();
    FirstIdsAreAttributeText();
    LastIdsAreAttributeText();
    SingleItemCategory("entradas", "Entradas", OnionSoup);
    SingleItemCategory("principais", "Pratos Principais", Fondue);
    SingleItemCategory("sobremesas", "Sobremesas", CremeBrulee);
    SingleItemCategory("bebidas", "Bebidas", RedWine);
    FourCategories(Menu.categories[0], Menu.categories[1], Menu.categories[2], Menu.categories[3]);
  }

  /** The fixed catalog satisfies the catalog invariant. */
  lemma MenuIsValid()
    ensures ValidCatalog(Menu)
  {
    MenuWellFormed();
  }
}
