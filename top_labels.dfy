/**
 * Row names and colours of the top-analysis charts
 * (assets/dashboard/charts/topAnalysis.js): the optional name resolver, the
 * country and province display names, the cleaning of referer keys, and the
 * bar colour chosen from the metric name.
 */
module TopLabels {
  import opened Wrappers
  import opened JsText
  import opened JsValue

  /** The `nameResolver` argument: none, a function of the key, or an object of names. */
  datatype Resolver = NoResolver | ByFunction(f: string -> string) | ByObject(names: map<string, string>)

  /** `resolveName(key)`. */
  function ResolveName(resolver: Resolver, key: string): (r: string)
    ensures resolver.NoResolver? ==> r == key
    ensures resolver.ByFunction? ==> r == resolver.f(key)
    ensures resolver.ByObject? ==> r == TextOr(Get(resolver.names, key), key)
  {
    match resolver
    case NoResolver => key
    case ByFunction(f) => f(key)
    case ByObject(names) => TextOr(Get(names, key), key)
  }

  /** Without a resolver, and with an object that has no entry for it, the placeholder key `-` is shown verbatim. */
  lemma DashPassesThrough(resolver: Resolver)
    requires resolver.NoResolver? || (resolver.ByObject? && "-" !in resolver.names)
    ensures ResolveName(resolver, "-") == "-"
  {
  }

  /** The outcome of `new Intl.DisplayNames([locale], {type: 'region'}).of(code)`: a name, no name, or a thrown error. */
  datatype IntlRegion = IntlThrew | IntlName(name: Option<string>)

  /**
   * `regionDisplayName(code)`: for zh-Hans the Chinese country name, else the
   * platform's region name, else the map's English name; the code itself when
   * none is known. `countryNames` and `mapNames` are the country tables.
   */
  function RegionDisplayName(locale: string, code: string, countryNames: map<string, string>,
                             mapNames: map<string, string>, intl: IntlRegion): (r: string)
    ensures locale == "zh-Hans" ==> r == TextOr(Get(countryNames, code), code)
    ensures locale != "zh-Hans" && intl.IntlName? && TruthyText(intl.name) ==> r == intl.name.value
    ensures locale != "zh-Hans" && !(intl.IntlName? && TruthyText(intl.name)) ==>
      r == TextOr(Get(mapNames, code), code)
  {
    if locale == "zh-Hans" then TextOr(Get(countryNames, code), code)
    else
      match intl
      case IntlThrew => TextOr(Get(mapNames, code), code)
      case IntlName(name) => TextOr(OrText(name, Get(mapNames, code)), code)
  }

  /**
   * `provinceDisplayName(code)`: for zh-Hans the Chinese province name; for
   * other locales the built-in English name, then the Chinese one; the code
   * itself when neither is known. `provinceNames` and `englishNames` are the
   * two tables.
   */
  function ProvinceDisplayName(locale: string, code: string, provinceNames: map<string, string>,
                               englishNames: map<string, string>): (r: string)
    ensures locale == "zh-Hans" ==> r == TextOr(Get(provinceNames, code), code)
    ensures locale != "zh-Hans" ==>
      r == TextOr(OrText(Get(englishNames, code), Get(provinceNames, code)), code)
  {
    if locale == "zh-Hans" then TextOr(Get(provinceNames, code), code)
    else TextOr(OrText(Get(englishNames, code), Get(provinceNames, code)), code)
  }

  /** Every display name is non-empty when the code is: a known name or the code itself. */
  lemma DisplayNamesNonEmpty(locale: string, code: string, countryNames: map<string, string>,
                             mapNames: map<string, string>, intl: IntlRegion,
                             provinceNames: map<string, string>, englishNames: map<string, string>)
    requires code != ""
    ensures RegionDisplayName(locale, code, countryNames, mapNames, intl) != ""
    ensures ProvinceDisplayName(locale, code, provinceNames, englishNames) != ""
  {
  }

  // --------------------------------------------------------------- colour

  const Blue: string := "#3b82f6"
  const Amber: string := "#f59e0b"
  const Violet: string := "#8b5cf6"
  const Cyan: string := "#06b6d4"
  const Green: string := "#10b981"
  const Red: string := "#ef4444"

  /** `s.endsWith(p)`. */
  predicate EndsWith(s: string, p: string) {
    |p| <= |s| && s[|s| - |p|..] == p
  }

  /** The bar colour of a generic top chart, from the lower-cased metric name. */
  function ColorFor(metric: string): (r: string)
    ensures r == Blue || r == Amber || r == Violet || r == Cyan || r == Green || r == Red
    ensures Contains(ToLower(metric), "country") ==> r == Blue
  {
    var name := ToLower(metric);
    if Contains(name, "country") then Blue
    else if Contains(name, "province") || Contains(name, "resourcetype") || Contains(name, "browser") then Amber
    else if Contains(name, "statuscode") || Contains(name, "referer") || EndsWith(name, "_ua") then Violet
    else if Contains(name, "domain") || Contains(name, "device") then Cyan
    else if Contains(name, "url") || Contains(name, "os") then Green
    else if Contains(name, "sip") then Red
    else Blue
  }

  /** One test on a lower-cased metric name. */
  datatype NameTest = Includes(word: string) | Suffix(tail: string)

  predicate Passes(name: string, t: NameTest) {
    match t
    case Includes(w) => Contains(name, w)
    case Suffix(p) => EndsWith(name, p)
  }

  /** Whether any test of the list passes. */
  predicate AnyPasses(name: string, tests: seq<NameTest>) {
    |tests| > 0 && (Passes(name, tests[0]) || AnyPasses(name, tests[1..]))
  }

  /** The colour rules in the order they are tried. */
  const ColorRules: seq<(seq<NameTest>, string)> := [
    ([Includes("country")], Blue),
    ([Includes("province"), Includes("resourcetype"), Includes("browser")], Amber),
    ([Includes("statuscode"), Includes("referer"), Suffix("_ua")], Violet),
    ([Includes("domain"), Includes("device")], Cyan),
    ([Includes("url"), Includes("os")], Green),
    ([Includes("sip")], Red)
  ]

  /** The colour of the first rule with a passing test, blue when none passes. */
  function FirstMatch(rules: seq<(seq<NameTest>, string)>, name: string): (r: string)
    ensures (forall i :: 0 <= i < |rules| ==> !AnyPasses(name, rules[i].0)) ==> r == Blue
    ensures forall i :: (0 <= i < |rules| && AnyPasses(name, rules[i].0) &&
                         (forall j :: 0 <= j < i ==> !AnyPasses(name, rules[j].0))) ==> r == rules[i].1
  {
    if rules == [] then Blue
    else if AnyPasses(name, rules[0].0) then rules[0].1
    else
      var r := FirstMatch(rules[1..], name);
      assert forall i :: 1 <= i < |rules| ==> rules[i] == rules[1..][i - 1];
      r
  }


  lemma Chain(n: string)
    ensures FirstMatch(ColorRules, n) ==
      if AnyPasses(n, ColorRules[0].0) then Blue
      else if AnyPasses(n, ColorRules[1].0) then Amber
      else if AnyPasses(n, ColorRules[2].0) then Violet
      else if AnyPasses(n, ColorRules[3].0) then Cyan
      else if AnyPasses(n, ColorRules[4].0) then Green
      else if AnyPasses(n, ColorRules[5].0) then Red
      else Blue
  {
    var r := ColorRules;
    assert r[1..][0] == r[1];
    assert r[1..][1..][0] == r[2];
    assert r[1..][1..][1..][0] == r[3];
    assert r[1..][1..][1..][1..][0] == r[4];
    assert r[1..][1..][1..][1..][1..][0] == r[5];
    assert r[1..][1..][1..][1..][1..][1..] == [];
  }

  lemma AnyOfOne(n: string, a: NameTest)
    ensures AnyPasses(n, [a]) <==> Passes(n, a)
  {
    assert [a][1..] == [];
  }

  lemma AnyOfTwo(n: string, a: NameTest, b: NameTest)
    ensures AnyPasses(n, [a, b]) <==> Passes(n, a) || Passes(n, b)
  {
    assert [a, b][1..] == [b];
    AnyOfOne(n, b);
  }

  lemma AnyOfThree(n: string, a: NameTest, b: NameTest, c: NameTest)
    ensures AnyPasses(n, [a, b, c]) <==> Passes(n, a) || Passes(n, b) || Passes(n, c)
  {
    assert [a, b, c][1..] == [b, c];
    AnyOfTwo(n, b, c);
  }

  lemma ColorIsFirstMatch(metric: string)
    ensures ColorFor(metric) == FirstMatch(ColorRules, ToLower(metric))
  {
    var n := ToLower(metric);
    Chain(n);
    AnyOfOne(n, Includes("country"));
    AnyOfThree(n, Includes("province"), Includes("resourcetype"), Includes("browser"));
    AnyOfThree(n, Includes("statuscode"), Includes("referer"), Suffix("_ua"));
    AnyOfTwo(n, Includes("domain"), Includes("device"));
    AnyOfTwo(n, Includes("url"), Includes("os"));
    AnyOfOne(n, Includes("sip"));
  }

  // --------------------------------------------------------- referer keys

  /**
   * `key.replace(/`/g, '').trim()`: no backtick, no space at either end, only
   * characters of `key`, and every character of `key` that is neither a
   * backtick nor a space kept.
   */
  function CleanKey(key: string): (r: string)
    ensures '`' !in r
    ensures Trim(r) == r
    ensures forall c :: c in r ==> c in key
    ensures forall c :: c in key && c != '`' && !IsJsSpace(c) ==> c in r
  {
    var s := RemoveAll(key, '`');
    TrimIdempotent(s);
    TrimChars(s);
    TrimKeepsNonSpace(s);
    assert forall c :: c in s <==> c in key && c != '`' by {
      assert forall c :: c in s <==> multiset(s)[c] > 0;
    }
    Trim(s)
  }

  /** The flux-referer row name: the cleaned key, or the missing-field text when it is empty or `-`. */
  function FluxRefererLabel(key: string, missingField: string): (r: string)
    ensures CleanKey(key) == "" || CleanKey(key) == "-" ==> r == missingField
    ensures CleanKey(key) != "" && CleanKey(key) != "-" ==> r == CleanKey(key)
    ensures r != missingField ==> r == CleanKey(key) && r != "" && r != "-" && '`' !in r
  {
    var k := CleanKey(key);
    if k == "" || k == "-" then missingField else k
  }

  /** Naming a row twice changes nothing once the missing-field text is itself clean and not `-`. */
  lemma FluxRefererLabelIdempotent(key: string, missingField: string)
    requires CleanKey(missingField) == missingField && missingField != "" && missingField != "-"
    ensures FluxRefererLabel(FluxRefererLabel(key, missingField), missingField) == FluxRefererLabel(key, missingField)
  {
    var r := FluxRefererLabel(key, missingField);
    if r != missingField {
      CleanKeyOfClean(r);
    }
  }

  /** A key without backticks or surrounding spaces is its own cleaned form. */
  lemma CleanKeyOfClean(k: string)
    requires '`' !in k && Trim(k) == k
    ensures CleanKey(k) == k
  {
    assert RemoveAll(k, '`') == k;
  }

  /** Longest cleaned request-referer key shown uncut. */
  const RefererCut: nat := 50

  /**
   * The request-referer row name: a raw `-` is the missing-field text; any
   * other key is cleaned and cut to 50 characters, with `...` appended when it
   * was longer.
   */
  function RequestRefererLabel(key: string, missingField: string): (r: string)
    ensures key == "-" ==> r == missingField
    ensures key != "-" && |CleanKey(key)| <= RefererCut ==> r == CleanKey(key)
    ensures key != "-" && |CleanKey(key)| > RefererCut ==>
      r == CleanKey(key)[..RefererCut] + "..." && |r| == RefererCut + 3
  {
    if key == "-" then missingField
    else
      var k := CleanKey(key);
      (if |k| <= RefererCut then k else k[..RefererCut]) + (if |k| > RefererCut then "..." else "")
  }

  /**
   * The two referer charts disagree on keys that only clean to `-` or to
   * nothing: the flux chart shows the missing-field text, the request chart
   * the cleaned key.
   */
  lemma RefererLabelsDiffer(missingField: string)
    requires missingField != "-" && missingField != ""
    ensures FluxRefererLabel("`-`", missingField) == missingField
    ensures RequestRefererLabel("`-`", missingField) == "-"
    ensures RequestRefererLabel("``", missingField) == ""
  {
    assert RemoveAll("`-`", '`') == "-";
    assert RemoveAll("``", '`') == "";
    assert Trim("-") == "-" by { TrimNoSpace("-"); }
    assert Trim("") == "" by { TrimNoSpace(""); }
  }

  /** A text with no blank at either end is its own trim. */
  lemma TrimNoSpace(s: string)
    requires s == "" || (!IsJsSpace(s[0]) && !IsJsSpace(s[|s| - 1]))
    ensures Trim(s) == s
  {
    TrimFixedPoint(s);
  }
}
