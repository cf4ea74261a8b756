/** Category reference data and lookups (src/services/categoryService.ts):
    the static category list, slug -> colour, colour -> CSS classes, and
    icon name -> icon. */
module CategoryService {
  import opened Wrappers
  import opened NewsTypes

  /** The icon components the service can hand out, by their import names. */
  datatype Icon =
    | NewspaperIcon | BriefcaseIcon | TrophyIcon | BuildingGovernmentIcon
    | FilmIcon | HeartPulseIcon | FlaskConicalIcon | GlobeIcon

  /** The three class strings of one colour. */
  datatype ColorClasses = ColorClasses(bg: string, text: string, hover: string)

  /** The `colors` record of `getCategoryColor`. */
  const Colors: map<string, string> := map[
    "all" := "gray",
    "technology" := "blue",
    "business" := "green",
    "sports" := "orange",
    "politics" := "red",
    "entertainment" := "purple",
    "health" := "emerald",
    "science" := "indigo"
  ]

  /** `colorMap.gray`, the fallback entry. */
  const GrayClasses := ColorClasses("bg-gray-100 dark:bg-gray-800", "text-gray-800 dark:text-gray-200", "hover:bg-gray-200 dark:hover:bg-gray-700")

  /** The `colorMap` record of `getCategoryColorClasses`. */
  const ColorMap: map<string, ColorClasses> := map[
    "gray" := GrayClasses,
    "blue" := ColorClasses("bg-primary-100 dark:bg-primary-900", "text-primary-800 dark:text-primary-300", "hover:bg-primary-200 dark:hover:bg-primary-800"),
    "green" := ColorClasses("bg-green-100 dark:bg-green-900", "text-green-800 dark:text-green-300", "hover:bg-green-200 dark:hover:bg-green-800"),
    "orange" := ColorClasses("bg-accent-100 dark:bg-accent-900", "text-accent-800 dark:text-accent-300", "hover:bg-accent-200 dark:hover:bg-accent-800"),
    "red" := ColorClasses("bg-red-100 dark:bg-red-900", "text-red-800 dark:text-red-300", "hover:bg-red-200 dark:hover:bg-red-800"),
    "purple" := ColorClasses("bg-purple-100 dark:bg-purple-900", "text-purple-800 dark:text-purple-300", "hover:bg-purple-200 dark:hover:bg-purple-800"),
    "emerald" := ColorClasses("bg-emerald-100 dark:bg-emerald-900", "text-emerald-800 dark:text-emerald-300", "hover:bg-emerald-200 dark:hover:bg-emerald-800"),
    "indigo" := ColorClasses("bg-indigo-100 dark:bg-indigo-900", "text-indigo-800 dark:text-indigo-300", "hover:bg-indigo-200 dark:hover:bg-indigo-800")
  ]

  /** The `icons` record of `getCategoryIcon`. */
  const IconsByName: map<string, Icon> := map[
    "NewspaperIcon" := NewspaperIcon,
    "BriefcaseIcon" := BriefcaseIcon,
    "TrophyIcon" := TrophyIcon,
    "BuildingGovernmentIcon" := BuildingGovernmentIcon,
    "FilmIcon" := FilmIcon,
    "HeartPulseIcon" := HeartPulseIcon,
    "FlaskConicalIcon" := FlaskConicalIcon,
    "GlobeIcon" := GlobeIcon
  ]

  /** The key under which an icon is registered. */
  function IconName(icon: Icon): string {
    match icon
    case NewspaperIcon => "NewspaperIcon"
    case BriefcaseIcon => "BriefcaseIcon"
    case TrophyIcon => "TrophyIcon"
    case BuildingGovernmentIcon => "BuildingGovernmentIcon"
    case FilmIcon => "FilmIcon"
    case HeartPulseIcon => "HeartPulseIcon"
    case FlaskConicalIcon => "FlaskConicalIcon"
    case GlobeIcon => "GlobeIcon"
  }

  // ---------------------------------------------------------------------
  // Lookups with own-key semantics (what the records are meant to do)

  /** Slug -> colour, with 'gray' for every slug the table does not list. */
  function GetCategoryColor(category: string): (r: string)
    ensures r in ColorMap
    ensures category in Colors ==> r == Colors[category]
    ensures r == "gray" <==> category !in Colors || category == "all"
  {
    if category in Colors && Colors[category] != "" then Colors[category] else "gray"
  }

  /** Slug -> CSS classes: always one of the eight table entries, the gray
      one for an unknown slug. */
  function GetCategoryColorClasses(category: string): (r: ColorClasses)
    ensures r in ColorMap.Values
    ensures r == ColorMap[GetCategoryColor(category)]
    ensures category !in Colors ==> r == GrayClasses
  {
    var color := GetCategoryColor(category);
    if color in ColorMap then ColorMap[color] else GrayClasses
  }

  /** The `|| colorMap.gray` fallback is never needed, and the class entry
      identifies the colour: two slugs get the same classes exactly when
      they get the same colour. */
  lemma ColorClassesIdentifyColor(a: string, b: string)
    ensures GetCategoryColor(a) in ColorMap
    ensures GetCategoryColorClasses(a) == GetCategoryColorClasses(b) <==> GetCategoryColor(a) == GetCategoryColor(b)
  {
    var ca, cb := GetCategoryColor(a), GetCategoryColor(b);
    if ca != cb {
      assert ColorMap[ca].bg != ColorMap[cb].bg;
    }
  }

  /** Icon name -> icon, with `GlobeIcon` for a missing, empty or unknown name. */
  function GetCategoryIcon(iconName: Option<string>): (r: Icon)
    ensures iconName == None || iconName == Some("") ==> r == GlobeIcon
    ensures iconName.Some? && iconName.value in IconsByName ==> r == IconsByName[iconName.value]
    ensures iconName.Some? && iconName.value !in IconsByName ==> r == GlobeIcon
  {
    if iconName == None || iconName == Some("") then GlobeIcon
    else if iconName.value in IconsByName then IconsByName[iconName.value]
    else GlobeIcon
  }

  /** Every icon is found under its own name. */
  lemma IconNameRoundTrip(icon: Icon)
    ensures GetCategoryIcon(Some(IconName(icon))) == icon
  {
  }

  // ---------------------------------------------------------------------
  // The same lookups as JavaScript evaluates them

  /** The members every object literal inherits from `Object.prototype`;
      reading one of them from a record yields a truthy non-string value. */
  const ObjectPrototypeMembers: set<string> := {
    "constructor", "hasOwnProperty", "isPrototypeOf", "propertyIsEnumerable",
    "toLocaleString", "toString", "valueOf", "__proto__",
    "__defineGetter__", "__defineSetter__", "__lookupGetter__", "__lookupSetter__"
  }

  /** A JavaScript value read from a record: an own property, a member
      inherited from `Object.prototype` (named by its key), or `undefined`. */
  datatype JsValue<T> = Own(value: T) | Inherited(member: string) | Undefined

  /** `record[key]` on an object literal whose own keys are `record`'s. */
  function RecordGet<T>(record: map<string, T>, key: string): JsValue<T> {
    if key in record then Own(record[key])
    else if key in ObjectPrototypeMembers then Inherited(key)
    else Undefined
  }

  /** `colors[category] || 'gray'` as written. */
  function GetCategoryColorAsWritten(category: string): (r: JsValue<string>)
    ensures !r.Undefined?
    ensures r.Own? <==> category !in ObjectPrototypeMembers
    ensures r.Inherited? ==> r.member == category
  {
    var v := RecordGet(Colors, category);
    if (v.Own? && v.value != "") || v.Inherited? then v else Own("gray")
  }

  /** For a slug named like an `Object.prototype` member the as-written
      lookup returns that inherited member instead of 'gray'; for every other
      slug it agrees with `GetCategoryColor`. */
  lemma ColorLookupReachesPrototype(category: string)
    ensures GetCategoryColorAsWritten("constructor") == Inherited("constructor")
    ensures category !in ObjectPrototypeMembers ==>
      GetCategoryColorAsWritten(category) == Own(GetCategoryColor(category))
  {
  }

  /** `colorMap[color] || colorMap.gray` as written, on the as-written colour.
      An inherited colour is a function (or, for `__proto__`, an object); as
      a property key it becomes its source text (or "[object Object]"),
      which is neither a colour nor an `Object.prototype` member name, so
      the read gives `undefined`. */
  function GetCategoryColorClassesAsWritten(category: string): (r: JsValue<ColorClasses>)
    ensures r.Own? && r.value in ColorMap.Values
  {
    var color := GetCategoryColorAsWritten(category);
    var classes := if color.Own? then RecordGet(ColorMap, color.value) else Undefined;
    assert ColorMap["gray"] == GrayClasses;
    if classes.Undefined? then Own(GrayClasses) else classes
  }

  /** Every caller reads colours through `getCategoryColorClasses`, and there
      the prototype quirk of the colour lookup is masked: the `colorMap.gray`
      fallback turns every inherited colour back into the gray entry, so the
      as-written classes equal the own-key classes for every slug. */
  lemma ColorClassesMaskPrototype(category: string)
    ensures category in ObjectPrototypeMembers ==> GetCategoryColorClassesAsWritten(category) == Own(GrayClasses)
    ensures GetCategoryColorClassesAsWritten(category) == Own(GetCategoryColorClasses(category))
  {
    if category !in ObjectPrototypeMembers {
      ColorLookupReachesPrototype(category);
    }
  }

  /** `icons[iconName] || GlobeIcon` as written (icons are always truthy). */
  function GetCategoryIconAsWritten(iconName: Option<string>): (r: JsValue<Icon>)
    ensures !r.Undefined?
    ensures r.Own? <==> iconName.None? || iconName.value !in ObjectPrototypeMembers
    ensures r.Inherited? ==> r.member == iconName.value
  {
    if iconName == None || iconName == Some("") then Own(GlobeIcon)
    else
      var v := RecordGet(IconsByName, iconName.value);
      if v.Undefined? then Own(GlobeIcon) else v
  }

  /** For an icon name like "toString" the as-written lookup returns the
      inherited member, not an icon; for every other name it agrees with
      `GetCategoryIcon`. */
  lemma IconLookupReachesPrototype(iconName: Option<string>)
    ensures GetCategoryIconAsWritten(Some("toString")) == Inherited("toString")
    ensures iconName.None? || iconName.value !in ObjectPrototypeMembers ==>
      GetCategoryIconAsWritten(iconName) == Own(GetCategoryIcon(iconName))
  {
  }

  // ---------------------------------------------------------------------
  // The static category list

  const StaticCategories: seq<Category> := [
    Category("all", "All News", "all", Some("gray"), Some("GlobeIcon")),
    Category("technology", "Technology", "technology", Some("blue"), Some("NewspaperIcon")),
    Category("business", "Business", "business", Some("green"), Some("BriefcaseIcon")),
    Category("sports", "Sports", "sports", Some("orange"), Some("TrophyIcon")),
    Category("politics", "Politics", "politics", Some("red"), Some("BuildingGovernmentIcon")),
    Category("entertainment", "Entertainment", "entertainment", Some("purple"), Some("FilmIcon")),
    Category("health", "Health", "health", Some("emerald"), Some("HeartPulseIcon")),
    Category("science", "Science", "science", Some("indigo"), Some("FlaskConicalIcon"))
  ]

  /** `fetchCategoriesApi`: the mock never fails and returns the static
      list: eight entries, 'all' first; every entry has `id == slug`, a
      distinct slug, the colour `GetCategoryColor` gives its slug, and an
      icon name that resolves without the fallback. */
  function FetchCategoriesApi(): (r: seq<Category>)
    ensures |r| == 8 && r[0].slug == "all"
    ensures forall i :: 0 <= i < |r| ==> r[i].id == r[i].slug && r[i].slug in Colors
    ensures forall i :: 0 <= i < |r| ==> r[i].color == Some(GetCategoryColor(r[i].slug))
    ensures forall i :: 0 <= i < |r| ==> r[i].icon.Some? && r[i].icon.value in IconsByName
    ensures forall i, j :: 0 <= i < j < |r| ==> r[i].slug != r[j].slug
  {
    StaticCategories
  }
}
