/** The shared frontend helpers: the difficulty colour switch and the generic
    search filter over records. */
module SearchUtils {
  import opened JsText
  import opened Lists

  /** A background and a text colour. */
  datatype Colours = Colours(bg: string, color: string)

  const EasyColours := Colours("#E8F5E9", "#2E7D32")
  const MediumColours := Colours("#FFF3E0", "#E65100")
  const HardColours := Colours("#FFEBEE", "#C62828")
  const GreyColours := Colours("#F5F5F5", "#757575")

  /** `getDifficultyColor`: the switch on the lower-cased difficulty, grey
      for anything else. */
  function DifficultyColor(difficulty: string): (r: Colours)
    ensures ToLower(difficulty) == "easy" <==> r == EasyColours
    ensures ToLower(difficulty) == "medium" <==> r == MediumColours
    ensures ToLower(difficulty) == "hard" <==> r == HardColours
    ensures ToLower(difficulty) !in {"easy", "medium", "hard"} <==> r == GreyColours
  {
    match ToLower(difficulty)
    case "easy" => EasyColours
    case "medium" => MediumColours
    case "hard" => HardColours
    case _ => GreyColours
  }

  /** The colour does not depend on letter case. */
  lemma DifficultyColorIgnoresCase(difficulty: string)
    ensures DifficultyColor(ToLower(difficulty)) == DifficultyColor(difficulty)
  {
    ToLowerIdempotent(difficulty);
  }

  /** A JavaScript value as the search sees it. */
  datatype FieldValue =
    | Undefined
    | Null
    | Text(text: string)
    | Number(number: int)
    | Flag(flag: bool)

  /** JavaScript truthiness (NaN is not modelled). */
  predicate Truthy(v: FieldValue) {
    match v
    case Undefined => false
    case Null => false
    case Text(t) => t != ""
    case Number(n) => n != 0
    case Flag(b) => b
  }

  /** Every character is a decimal digit. */
  predicate IsDigits(s: string) {
    forall i :: 0 <= i < |s| ==> '0' <= s[i] <= '9'
  }

  /** The number a string of decimal digits spells, most significant digit
      first. */
  function DigitsValue(s: string): nat
    requires IsDigits(s)
  {
    if s == [] then 0 else 10 * DigitsValue(s[..|s| - 1]) + (s[|s| - 1] as int - '0' as int)
  }

  /** The decimal numeral of a natural number, as `String(n)` writes it:
      digits that spell `n`, with no leading zero. */
  function NatDigits(n: nat): (r: string)
    ensures |r| >= 1 && IsDigits(r)
    ensures DigitsValue(r) == n
    ensures r[0] == '0' <==> n == 0
    decreases n
  {
    var d := ['0' + (n % 10) as char];
    if n < 10 then d
    else
      var prefix := NatDigits(n / 10);
      assert (prefix + d)[..|prefix + d| - 1] == prefix;
      prefix + d
  }

  /** `String(v)`: a string is itself, a number its numeral (with a minus
      sign when negative), a boolean `"true"` or `"false"`. */
  function JsString(v: FieldValue): (r: string)
    ensures v.Text? ==> r == v.text
    ensures v.Number? && v.number >= 0 ==> IsDigits(r) && DigitsValue(r) == v.number
    ensures v.Number? && v.number < 0 ==> |r| >= 2 && r[0] == '-' && IsDigits(r[1..]) && DigitsValue(r[1..]) == -v.number
    ensures v.Flag? ==> (r == "true" <==> v.flag) && (r == "false" <==> !v.flag)
    ensures v.Undefined? ==> r == "undefined"
    ensures v.Null? ==> r == "null"
  {
    match v
    case Undefined => "undefined"
    case Null => "null"
    case Text(t) => t
    case Number(n) =>
      if n < 0 then
        var digits := NatDigits(-n);
        assert ("-" + digits)[1..] == digits;
        "-" + digits
      else NatDigits(n)
    case Flag(b) => if b then "true" else "false"
  }

  /** A record: its own properties by name; a missing one reads as
      `undefined`. */
  type Item = map<string, FieldValue>

  function Field(item: Item, name: string): FieldValue {
    if name in item then item[name] else Undefined
  }

  /** The test applied to one field: truthy, and its string contains the
      query, both lower-cased. */
  predicate FieldMatches(item: Item, name: string, query: string) {
    Truthy(Field(item, name)) && IncludesIgnoringCase(JsString(Field(item, name)), query)
  }

  /** `searchFields.some(...)`. */
  predicate SomeFieldMatches(item: Item, fields: seq<string>, query: string) {
    exists i :: 0 <= i < |fields| && FieldMatches(item, fields[i], query)
  }

  /** `filterBySearch`: an empty query keeps the list as it is; otherwise
      the items for which some listed field matches, in their order. */
  function FilterBySearch(items: seq<Item>, query: string, fields: seq<string>): (r: seq<Item>)
    ensures query == "" ==> r == items
  {
    if query == "" then items
    else Filter(items, (item: Item) => SomeFieldMatches(item, fields, query))
  }

  /** An item is in the result iff it is in the input and, for a non-empty
      query, one of the listed fields is truthy and contains the query. */
  lemma FilterBySearchMembership(items: seq<Item>, query: string, fields: seq<string>, item: Item)
    ensures item in FilterBySearch(items, query, fields) <==>
              item in items && (query == "" || SomeFieldMatches(item, fields, query))
  {
    if query != "" {
      FilterMembership(items, (it: Item) => SomeFieldMatches(it, fields, query), item);
    }
  }

  /** The result keeps the input's order. */
  lemma FilterBySearchSubsequence(items: seq<Item>, query: string, fields: seq<string>)
    ensures IsSubsequence(FilterBySearch(items, query, fields), items)
  {
    if query == "" {
      FilterKeepsAll(items, (it: Item) => true);
      FilterIsSubsequence(items, (it: Item) => true);
    } else {
      FilterIsSubsequence(items, (it: Item) => SomeFieldMatches(it, fields, query));
    }
  }

  /** Only the lower-cased query matters. */
  lemma FilterBySearchIgnoresQueryCase(items: seq<Item>, query: string, fields: seq<string>)
    ensures FilterBySearch(items, ToLower(query), fields) == FilterBySearch(items, query, fields)
  {
    ToLowerIdempotent(query);
    if query != "" {
      assert ToLower(query) != "";
      FilterCongruent(items, (it: Item) => SomeFieldMatches(it, fields, ToLower(query)),
                      (it: Item) => SomeFieldMatches(it, fields, query));
    }
  }
}
