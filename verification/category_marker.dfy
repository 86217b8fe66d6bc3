/** The map marker of a machine (components/map/CategoryMarker.tsx): a
    coloured disc with an icon, both chosen by the machine's category. */
module CategoryMarker {
  import opened Text

  /** The categories the lookup tables know, in table order. */
  const KnownCategories: seq<string> := ["Pain", "Pizza", "Fleurs", "Lait", "Oeufs", "Produits locaux", "Autre"]

  /** The grey used for "Autre" and for any category the table lacks. */
  const DefaultColor: string := "#6B7280"

  /** The pin used for a category the icon table lacks. */
  const DefaultIcon: string := "📍"

  const ColorTable: map<string, string> := map[
    "Pain" := "#F59E0B",
    "Pizza" := "#EF4444",
    "Fleurs" := "#EC4899",
    "Lait" := "#3B82F6",
    "Oeufs" := "#10B981",
    "Produits locaux" := "#8B5CF6",
    "Autre" := DefaultColor]

  const IconTable: map<string, string> := map[
    "Pain" := "🍞",
    "Pizza" := "🍕",
    "Fleurs" := "💐",
    "Lait" := "🥛",
    "Oeufs" := "🥚",
    "Produits locaux" := "🧺",
    "Autre" := "📦"]

  /** `getCategoryColor`: the table's colour for a known category, the
      default grey for any other; the lookup is exact, case included. */
  function CategoryColor(category: string): (r: string)
    ensures category in ColorTable ==> r == ColorTable[category]
    ensures category !in KnownCategories ==> r == DefaultColor
  {
    LookupOr(ColorTable, category, DefaultColor)
  }

  /** `getCategoryIcon`: the table's icon for a known category, the pin for
      any other. */
  function CategoryIcon(category: string): (r: string)
    ensures category in IconTable ==> r == IconTable[category]
    ensures category !in KnownCategories ==> r == DefaultIcon
  {
    LookupOr(IconTable, category, DefaultIcon)
  }

  /** The tables cover exactly the known categories. */
  lemma TablesCoverKnownCategories()
    ensures ColorTable.Keys == IconTable.Keys
    ensures forall c :: c in ColorTable <==> c in KnownCategories
  {
  }

  /** Every known category has its own icon, distinct from the pin used for
      unknown ones; so the icon tells the category back. */
  lemma IconIdentifiesCategory(a: string, b: string)
    requires CategoryIcon(a) == CategoryIcon(b)
    ensures a in KnownCategories || b in KnownCategories ==> a == b
  {
  }

  /** The colour tells the six named categories apart; "Autre" shares its
      grey with every unknown category. */
  lemma ColorIdentifiesNamedCategory(a: string, b: string)
    requires CategoryColor(a) == CategoryColor(b)
    requires a in KnownCategories && a != "Autre"
    ensures a == b
  {
  }

  /** The marker lookup is case-sensitive, unlike the category filter: a
      lower-case category is drawn as an unknown one. */
  lemma MarkerLookupIsCaseSensitive()
    ensures CategoryColor("pain") == DefaultColor && CategoryIcon("pain") == DefaultIcon
  {
  }
}
