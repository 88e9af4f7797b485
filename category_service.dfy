/** Quote categories: dropping a leading "On " from a category title, and
    choosing the icon and colour shown beside it. */
module CategoryService {
  import opened JsText

  datatype Icon =
    | Lightbulb | Compass | Heart | Mountain | Star | Rocket | Brain | Clock
    | Target | Sparkles | TreePine | Book | Flame | Puzzle | Smile

  datatype CategoryIcon = CategoryIcon(icon: Icon, className: string)

  /** The icon table, keyed by lower-case category name. */
  const CategoryIcons: map<string, CategoryIcon> := map[
    "wisdom" := CategoryIcon(Lightbulb, "text-amber-500"),
    "journey" := CategoryIcon(Compass, "text-blue-500"),
    "love" := CategoryIcon(Heart, "text-red-500"),
    "growth" := CategoryIcon(Mountain, "text-emerald-500"),
    "dreams" := CategoryIcon(Star, "text-purple-500"),
    "innovation" := CategoryIcon(Rocket, "text-cyan-500"),
    "reflection" := CategoryIcon(Brain, "text-indigo-500"),
    "time" := CategoryIcon(Clock, "text-orange-500"),
    "purpose" := CategoryIcon(Target, "text-rose-500"),
    "inspiration" := CategoryIcon(Sparkles, "text-amber-500"),
    "life" := CategoryIcon(TreePine, "text-green-500"),
    "knowledge" := CategoryIcon(Book, "text-blue-600"),
    "passion" := CategoryIcon(Flame, "text-orange-500"),
    "understanding" := CategoryIcon(Puzzle, "text-purple-600"),
    "happiness" := CategoryIcon(Smile, "text-yellow-500")
  ]

  const DefaultIcon: CategoryIcon := CategoryIcon(Lightbulb, "text-gray-500")

  /** The category starts with `on`, in any case, followed by white space. */
  predicate HasOnPrefix(category: string) {
    |category| >= 3 && ToLower(category[..2]) == "on" && IsWhitespace(category[2])
  }

  /** `category.replace(/^on\s+/i, '')`: the prefix and the whole run of
      white space after it are removed; anything else is kept verbatim. */
  function FormatCategory(category: string): (r: string)
    ensures !HasOnPrefix(category) ==> r == category
    ensures HasOnPrefix(category) ==>
      (|r| <= |category| - 2 && category == category[..2] + category[2..|category| - |r|] + r
       && AllWhitespace(category[2..|category| - |r|]) && (r == [] || !IsWhitespace(r[0])))
  {
    if HasOnPrefix(category) then
      var r := TrimStart(category[2..]);
      assert category[2..][..|category| - 2 - |r|] == category[2..|category| - |r|];
      r
    else category
  }

  /** "On", in any case, then white space, then a text: the text is what
      remains. */
  lemma FormatCategoryDropsPrefix(on: string, space: string, rest: string)
    requires ToLower(on) == "on" && space != [] && AllWhitespace(space)
    requires rest == [] || !IsWhitespace(rest[0])
    ensures FormatCategory(on + space + rest) == rest
  {
    var c := on + space + rest;
    assert c[..2] == on;
    assert c[2] == space[0];
    assert c[2..] == space + rest;
    TrimStartOfBlankPrefix(space, rest);
  }

  lemma {:induction false} TrimStartOfBlankPrefix(space: string, rest: string)
    requires AllWhitespace(space)
    requires rest == [] || !IsWhitespace(rest[0])
    ensures TrimStart(space + rest) == rest
  {
    if space != [] {
      assert (space + rest)[1..] == space[1..] + rest;
      TrimStartOfBlankPrefix(space[1..], rest);
    } else {
      assert space + rest == rest;
    }
  }

  /** A title that does not begin with "on" and white space, such as
      "Onward", is shown as it is. */
  lemma OnwardIsKept()
    ensures FormatCategory("Onward") == "Onward"
  {
    assert !IsWhitespace("Onward"[2]);
  }

  /** `getCategoryIcon(category)` with the lookup the table is meant to
      have: only the fifteen names it lists are found. */
  function GetCategoryIcon(category: string): CategoryIcon {
    var key := ToLower(FormatCategory(category));
    if key in CategoryIcons then CategoryIcons[key] else DefaultIcon
  }

  /** No key of the table starts with "on" and white space. */
  lemma KeysHaveNoOnPrefix(category: string)
    requires ToLower(category) in CategoryIcons
    ensures !HasOnPrefix(category)
  {
  }

  /** The fifteen names are found whatever their case. */
  lemma ListedNamesFound(category: string)
    requires ToLower(category) in CategoryIcons
    ensures GetCategoryIcon(category) == CategoryIcons[ToLower(category)]
  {
    KeysHaveNoOnPrefix(category);
  }

  /** A title "On <name>" shows the icon of the name. */
  lemma OnTitleFound(on: string, space: string, name: string)
    requires ToLower(on) == "on" && space != [] && AllWhitespace(space)
    requires ToLower(name) in CategoryIcons
    ensures GetCategoryIcon(on + space + name) == CategoryIcons[ToLower(name)]
  {
    assert name != [];
    assert ToLower(name)[0] == ToLowerChar(name[0]);
    FormatCategoryDropsPrefix(on, space, name);
  }

  /** Any other name gets the grey light bulb. */
  lemma UnknownNameDefault(category: string)
    requires ToLower(FormatCategory(category)) !in CategoryIcons
    ensures GetCategoryIcon(category) == DefaultIcon
  {
  }

  /** The names a plain object inherits from `Object.prototype` that a
      lower-cased key can spell; the others (`toString`, `hasOwnProperty`,
      `__defineGetter__`, ...) contain upper-case letters, so no key reaches
      them. */
  const InheritedNames: set<string> := {"constructor", "__proto__"}

  /** What `categoryIcons[key] || default` yields in JavaScript: an entry of
      the table, a member inherited from `Object.prototype`, or the default. */
  datatype Lookup = Entry(entry: CategoryIcon) | Inherited(name: string)

  /** `getCategoryIcon` as written: the bracket lookup also finds inherited
      members, which are truthy and so are returned in place of the
      default. */
  function GetCategoryIconAsWritten(category: string): (r: Lookup)
    ensures r.Entry? ==> r.entry == GetCategoryIcon(category)
  {
    var key := ToLower(FormatCategory(category));
    if key in CategoryIcons then Entry(CategoryIcons[key])
    else if key in InheritedNames then Inherited(key)
    else Entry(DefaultIcon)
  }

  /** "constructor" is not a category of the table. */
  lemma ConstructorNotAKey()
    ensures "constructor" !in CategoryIcons
  {
    assert "constructor"[0] != "inspiration"[0];
  }

  /** The category "constructor" gets a function instead of an icon entry. */
  lemma ConstructorCategoryNotAnIcon()
    ensures GetCategoryIconAsWritten("constructor") == Inherited("constructor")
  {
    var c := "constructor";
    assert ToLower(c[..2]) == [ToLowerChar('c'), ToLowerChar('o')];
    assert FormatCategory(c) == c;
    LowerCaseKept(c);
    assert c[0] == 'c';
    ConstructorNotAKey();
    assert c in InheritedNames;
  }

  /** A text without upper-case ASCII letters is its own lower case. */
  lemma LowerCaseKept(s: string)
    requires forall i :: 0 <= i < |s| ==> !('A' <= s[i] <= 'Z')
    ensures ToLower(s) == s
  {
  }
}
