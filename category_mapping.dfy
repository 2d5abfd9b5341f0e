/** The keyword table that maps an item's name to the category whose
    forecasting model serves it. */
module CategoryMapping {
  import opened Wrappers
  import opened Text

  /** The categories with their keywords, in the order the service's
      dictionary lists them; the first category with a matching keyword wins. */
  const CATEGORY_KEYWORDS: seq<(string, seq<string>)> := [
    ("Sodavand", SODAVAND_KEYWORDS),
    ("Vand", VAND_KEYWORDS),
    ("Øl", OEL_KEYWORDS),
    ("Cappuccino", CAPPUCCINO_KEYWORDS),
    ("Lille_box", LILLE_BOX_KEYWORDS),
    ("Mellem_box", MELLEM_BOX_KEYWORDS),
    ("Ristet_Hotdog", RISTET_HOTDOG_KEYWORDS),
    ("Øl_Vand_Spiritus", OEL_VAND_SPIRITUS_KEYWORDS),
    ("Beverages", BEVERAGES_KEYWORDS),
    ("Handhelds", HANDHELDS_KEYWORDS),
    ("Breakfast_&_Brunch", BREAKFAST_BRUNCH_KEYWORDS),
    ("Desserts_&_Sweets", DESSERTS_SWEETS_KEYWORDS),
    ("Main_Courses", MAIN_COURSES_KEYWORDS),
    ("Salads_&_Greens", SALADS_GREENS_KEYWORDS),
    ("Sides_&_Snacks", SIDES_SNACKS_KEYWORDS),
    ("Sushi_&_Asian", SUSHI_ASIAN_KEYWORDS),
    ("Misc_Services", MISC_SERVICES_KEYWORDS),
    ("Other_Uncategorized", OTHER_UNCATEGORIZED_KEYWORDS)
  ]

  /** Each category's keywords. */
  const SODAVAND_KEYWORDS: seq<string> := ["cola", "sodavand", "naturfrisk", "lemonade", "fanta", "sprite", "pepsi", "soda", "cocio"]
  const VAND_KEYWORDS: seq<string> := ["water", "vand", "kildevand", "still water", "sparkling", "danskvand"]
  const OEL_KEYWORDS: seq<string> := ["øl", "beer", "fadøl", "pilsner", "ipa", "lager", "ale", "tuborg", "carlsberg"]
  const CAPPUCCINO_KEYWORDS: seq<string> := ["cappuccino", "latte", "americano", "kaffe", "espresso", "coffee", "flat white", "macchiato"]
  const LILLE_BOX_KEYWORDS: seq<string> := ["lille box", "small box", "lille"]
  const MELLEM_BOX_KEYWORDS: seq<string> := ["mellem box", "medium box", "mellem"]
  const RISTET_HOTDOG_KEYWORDS: seq<string> := ["hotdog", "ristet", "fransk", "pølse", "hot dog"]
  const OEL_VAND_SPIRITUS_KEYWORDS: seq<string> := ["spiritus", "vodka", "gin", "rum", "whisky", "liquor", "alkohol"]
  const BEVERAGES_KEYWORDS: seq<string> := ["juice", "smoothie", "shake", "milkshake", "drink", "beverage", "te", "tea"]
  const HANDHELDS_KEYWORDS: seq<string> := ["sandwich", "wrap", "burger", "panini", "toast", "roll"]
  const BREAKFAST_BRUNCH_KEYWORDS: seq<string> := ["breakfast", "brunch", "morgenmad", "oatmeal", "yogurt", "granola", "croissant"]
  const DESSERTS_SWEETS_KEYWORDS: seq<string> := ["dessert", "cake", "pastry", "cookie", "brownie", "sweet", "ice cream", "kage"]
  const MAIN_COURSES_KEYWORDS: seq<string> := ["main", "course", "meal", "dinner", "lunch", "pasta", "chicken", "fish", "beef"]
  const SALADS_GREENS_KEYWORDS: seq<string> := ["salad", "salat", "greens", "vegetables", "veggie"]
  const SIDES_SNACKS_KEYWORDS: seq<string> := ["side", "snack", "fries", "chips", "pommes", "nachos"]
  const SUSHI_ASIAN_KEYWORDS: seq<string> := ["sushi", "asian", "noodles", "rice", "ramen", "poke", "wok"]
  const MISC_SERVICES_KEYWORDS: seq<string> := ["service", "delivery", "fee", "charge"]
  const OTHER_UNCATEGORIZED_KEYWORDS: seq<string> := []

  /** The category used when a name matches no keyword. */
  const FALLBACK_CATEGORY := "Other_Uncategorized"

  /** Some keyword, lower-cased, occurs in the lower-cased name. */
  predicate Matches(keywords: seq<string>, lowered: string) {
    exists k :: 0 <= k < |keywords| && Occurs(Lower(keywords[k]), lowered)
  }

  /** The position of the first entry with a matching keyword, if any. */
  function FirstMatch(table: seq<(string, seq<string>)>, lowered: string): (r: Option<nat>)
    ensures r.Some? ==> r.value < |table| && Matches(table[r.value].1, lowered)
    ensures r.Some? ==> forall j :: 0 <= j < r.value ==> !Matches(table[j].1, lowered)
    ensures r.None? <==> forall j :: 0 <= j < |table| ==> !Matches(table[j].1, lowered)
  {
    if table == [] then None
    else if Matches(table[0].1, lowered) then Some(0)
    else match FirstMatch(table[1..], lowered)
      case None => None
      case Some(i) =>
        assert forall j :: 1 <= j < i + 1 ==> table[j] == table[1..][j - 1];
        Some(i + 1)
  }

  /** _map_item_to_category over a keyword table: None for an empty name;
      otherwise the first category, in table order, one of whose keywords
      occurs in the lower-cased name, or None when no keyword occurs. */
  function MapWith(table: seq<(string, seq<string>)>, itemName: string): (r: Option<string>)
    ensures itemName == "" ==> r.None?
    ensures r.Some? ==>
      exists i :: 0 <= i < |table| && r.value == table[i].0 &&
        Matches(table[i].1, Lower(itemName)) &&
        forall j :: 0 <= j < i ==> !Matches(table[j].1, Lower(itemName))
    ensures itemName != "" ==>
      (r.None? <==> forall j :: 0 <= j < |table| ==> !Matches(table[j].1, Lower(itemName)))
  {
    if itemName == "" then None
    else match FirstMatch(table, Lower(itemName))
      case None => None
      case Some(i) => Some(table[i].0)
  }

  /** The service's mapping: the keyword table above. */
  function MapItemToCategory(itemName: string): Option<string> {
    MapWith(CATEGORY_KEYWORDS, itemName)
  }

  /** A category without keywords is never the result. */
  lemma NeverMapsToKeywordless(table: seq<(string, seq<string>)>, itemName: string, name: string)
    requires forall i :: 0 <= i < |table| && table[i].0 == name ==> table[i].1 == []
    ensures MapWith(table, itemName) != Some(name)
  {
  }

  /** Only the last entry of the table carries the fallback's name, and it
      has no keywords. */
  lemma FallbackKeywordless()
    ensures forall i :: 0 <= i < |CATEGORY_KEYWORDS| && CATEGORY_KEYWORDS[i].0 == FALLBACK_CATEGORY ==> CATEGORY_KEYWORDS[i].1 == []
  {
  }

  /** The fallback category has no keywords, so no name is ever mapped to it. */
  lemma NeverMapsToFallback(itemName: string)
    ensures MapItemToCategory(itemName) != Some(FALLBACK_CATEGORY)
  {
    FallbackKeywordless();
    NeverMapsToKeywordless(CATEGORY_KEYWORDS, itemName, FALLBACK_CATEGORY);
  }

  /** A matching entry bounds the first match from above. */
  lemma {:induction false} FirstMatchAtMost(table: seq<(string, seq<string>)>, lowered: string, i: nat)
    requires i < |table| && Matches(table[i].1, lowered)
    ensures FirstMatch(table, lowered).Some? && FirstMatch(table, lowered).value <= i
  {
  }

  /** A keyword found at a position of the lower-cased name is a match. */
  lemma KeywordAt(keywords: seq<string>, k: nat, lowered: string, pos: nat)
    requires k < |keywords| && pos + |keywords[k]| <= |lowered|
    requires lowered[pos..pos + |keywords[k]|] == Lower(keywords[k])
    ensures Matches(keywords, lowered)
  {
    OccursAt(Lower(keywords[k]), lowered, pos);
  }

  /** A name holding, in any letter case, keyword `k` of entry `i` maps to
      entry `i` or an earlier one. */
  lemma KeywordMapsAtMost(table: seq<(string, seq<string>)>, itemName: string, i: nat, k: nat, pos: nat)
    requires i < |table| && k < |table[i].1| && itemName != ""
    requires pos + |table[i].1[k]| <= |itemName|
    requires Lower(itemName[pos..pos + |table[i].1[k]|]) == Lower(table[i].1[k])
    ensures FirstMatch(table, Lower(itemName)).Some? && FirstMatch(table, Lower(itemName)).value <= i
    ensures MapWith(table, itemName) == Some(table[FirstMatch(table, Lower(itemName)).value].0)
  {
    LowerSlice(itemName, pos, pos + |table[i].1[k]|);
    KeywordAt(table[i].1, k, Lower(itemName), pos);
    FirstMatchAtMost(table, Lower(itemName), i);
  }

  /** The table does not give category names back: any name containing
      "vand" in any letter case, such as the `Øl_Vand_Spiritus` category's own
      name, goes to Sodavand or Vand. */
  lemma VandNamesMapEarly(itemName: string, pos: nat)
    requires pos + 4 <= |itemName| && Lower(itemName[pos..pos + 4]) == "vand"
    ensures MapItemToCategory(itemName) == Some("Sodavand") || MapItemToCategory(itemName) == Some("Vand")
  {
    LowerIdempotent(itemName[pos..pos + 4]);
    TableEntries();
    KeywordMapsAtMost(CATEGORY_KEYWORDS, itemName, 1, 1, pos);
    MapsWithinFirstTwo(CATEGORY_KEYWORDS, itemName);
  }

  /** A first match at position 0 or 1 names one of the first two entries. */
  lemma MapsWithinFirstTwo(table: seq<(string, seq<string>)>, itemName: string)
    requires itemName != "" && FirstMatch(table, Lower(itemName)).Some? && FirstMatch(table, Lower(itemName)).value <= 1
    ensures MapWith(table, itemName) == Some(table[0].0) || MapWith(table, itemName) == Some(table[1].0)
  {
  }

  /** The entries the lemmas below rely on. */
  lemma TableEntries()
    ensures CATEGORY_KEYWORDS[0].0 == "Sodavand"
    ensures CATEGORY_KEYWORDS[1] == ("Vand", VAND_KEYWORDS) && VAND_KEYWORDS[1] == "vand"
    ensures CATEGORY_KEYWORDS[8] == ("Beverages", BEVERAGES_KEYWORDS) && BEVERAGES_KEYWORDS[6] == "te"
  {
  }

  lemma SpiritsNameMapsEarlier()
    ensures MapItemToCategory("Øl_Vand_Spiritus") == Some("Sodavand") || MapItemToCategory("Øl_Vand_Spiritus") == Some("Vand")
  {
    assert "Øl_Vand_Spiritus"[3..7] == "Vand";
    assert Lower("Vand") == "vand";
    VandNamesMapEarly("Øl_Vand_Spiritus", 3);
  }

  /** Any name containing "te", such as the fallback's own name
      `Other_Uncategorized`, is mapped to some category (Beverages or one
      listed before it), never to the fallback. */
  lemma TeNamesAreMapped(itemName: string, pos: nat)
    requires pos + 2 <= |itemName| && Lower(itemName[pos..pos + 2]) == "te"
    ensures MapItemToCategory(itemName).Some?
    ensures MapItemToCategory(itemName) != Some(FALLBACK_CATEGORY)
  {
    assert CATEGORY_KEYWORDS[8].1[6] == "te" && Lower("te") == "te";
    KeywordMapsAtMost(CATEGORY_KEYWORDS, itemName, 8, 6, pos);
    NeverMapsToFallback(itemName);
  }

  lemma FallbackNameMapsEarlier()
    ensures MapItemToCategory(FALLBACK_CATEGORY).Some?
    ensures MapItemToCategory(FALLBACK_CATEGORY) != Some(FALLBACK_CATEGORY)
  {
    assert FALLBACK_CATEGORY[10..12] == "te";
    assert Lower("te") == "te";
    TeNamesAreMapped(FALLBACK_CATEGORY, 10);
  }
}
