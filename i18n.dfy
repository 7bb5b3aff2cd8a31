/**
 * The dashboard's locale logic (assets/dashboard/i18n.js): normalising a
 * requested locale to one of the two supported ones, choosing the initial
 * locale, resolving dotted message keys with a fallback to the default
 * locale, `{name}` interpolation, and the module state that `initI18n`,
 * `getLocale`, `setLocale` and `t` share.
 */
module I18n {
  import opened Wrappers
  import opened JsText
  import opened JsValue

  const ZhHans: string := "zh-Hans"
  const EnUS: string := "en-US"

  /** The default locale, also the fallback table of `t`. */
  const DefaultLocale: string := ZhHans

  predicate Supported(locale: string) {
    locale == ZhHans || locale == EnUS
  }

  // -------------------------------------------------------------- normalise

  /** The Chinese spellings: `zh`, anything starting `zh-hans`, and `zh-cn`. */
  predicate ChineseTag(lower: string) {
    lower == "zh" || StartsWith(lower, "zh-hans") || lower == "zh-cn"
  }

  /**
   * `normalizeLocale(input)`: falsy input is the default; otherwise the
   * trimmed, lower-cased text picks zh-Hans for the Chinese spellings and
   * en-US for anything starting with `en`; a supported tag written exactly is
   * kept, and everything else is the default.
   */
  function NormalizeLocale(input: Option<string>): (r: string)
    ensures Supported(r)
    ensures !TruthyText(input) ==> r == ZhHans
    ensures TruthyText(input) ==> (r == EnUS <==> StartsWith(ToLower(Trim(input.value)), "en"))
  {
    if !TruthyText(input) then DefaultLocale
    else
      var raw := Trim(input.value);
      var lower := ToLower(raw);
      if ChineseTag(lower) then
        assert !StartsWith(lower, "en") by { assert lower[0] == 'z'; }
        ZhHans
      else if lower == "en" || StartsWith(lower, "en") then EnUS
      else if Supported(raw) then
        // Both supported tags, written exactly, are already caught above.
        SupportedTagsCaught(raw);
        assert false;
        raw
      else DefaultLocale
  }

  /** The exact spellings of the supported tags pass one of the first two tests of `NormalizeLocale`. */
  lemma SupportedTagsCaught(raw: string)
    ensures raw == ZhHans ==> ChineseTag(ToLower(raw))
    ensures raw == EnUS ==> StartsWith(ToLower(raw), "en")
  {
    if raw == ZhHans {
      assert ToLower(raw) == "zh-hans";
    }
    if raw == EnUS {
      assert ToLower(raw) == "en-us";
    }
  }

  /** Normalising a normalised locale changes nothing. */
  lemma NormalizeIdempotent(input: Option<string>)
    ensures NormalizeLocale(Some(NormalizeLocale(input))) == NormalizeLocale(input)
  {
    NormalizeSupported(NormalizeLocale(input));
  }

  /** A supported tag normalises to itself. */
  lemma NormalizeSupported(r: string)
    requires Supported(r)
    ensures NormalizeLocale(Some(r)) == r
  {
    TrimFixedPoint(r);
    TagSpellings();
  }

  /** How the two supported tags read once lower-cased. */
  lemma TagSpellings()
    ensures ToLower(ZhHans) == "zh-hans" && ChineseTag("zh-hans") && !StartsWith("zh-hans", "en")
    ensures ToLower(EnUS) == "en-us" && !ChineseTag("en-us") && StartsWith("en-us", "en")
  {
    assert ToLower(ZhHans) == "zh-hans";
    assert ToLower(EnUS) == "en-us";
    assert "zh-hans"[..2][0] == 'z';
  }

  // ---------------------------------------------------------- initial locale

  /** The first truthy text of a list. */
  function FirstTruthy(xs: seq<string>): (r: Option<string>)
    ensures r.Some? ==> r.value in xs && r.value != ""
    ensures r.None? <==> forall i :: 0 <= i < |xs| ==> xs[i] == ""
  {
    if xs == [] then None
    else if xs[0] != "" then Some(xs[0])
    else FirstTruthy(xs[1..])
  }

  /**
   * `getNavigatorLocale()`: the first truthy entry of `navigator.languages`
   * when that list is non-empty, otherwise `navigator.language` when truthy.
   */
  function NavigatorLocale(languages: seq<string>, language: Option<string>): (r: Option<string>)
    ensures |languages| > 0 ==> r == FirstTruthy(languages)
    ensures |languages| == 0 ==> r == (if TruthyText(language) then language else None)
  {
    if |languages| > 0 then FirstTruthy(languages)
    else if TruthyText(language) then language
    else None
  }

  /**
   * What the browser offers at start-up: the `lang` and `locale` query
   * parameters, the stored locale, and the navigator's languages. A lookup
   * that throws is an absent value here.
   */
  datatype Environment = Environment(langParam: Option<string>, localeParam: Option<string>,
                                     languages: seq<string>, language: Option<string>)

  /** `detectInitialLocale()`: the query parameter, else the stored locale, else the navigator's, normalised. */
  function DetectInitialLocale(env: Environment, stored: Option<string>): (r: string)
    ensures Supported(r)
    ensures TruthyText(OrText(env.langParam, env.localeParam)) ==>
      r == NormalizeLocale(OrText(env.langParam, env.localeParam))
    ensures !TruthyText(OrText(env.langParam, env.localeParam)) && TruthyText(stored) ==>
      r == NormalizeLocale(stored)
    ensures !TruthyText(OrText(env.langParam, env.localeParam)) && !TruthyText(stored) ==>
      r == NormalizeLocale(NavigatorLocale(env.languages, env.language))
  {
    NormalizeLocale(OrText(OrText(OrText(env.langParam, env.localeParam), stored),
                           NavigatorLocale(env.languages, env.language)))
  }

  // ------------------------------------------------------------- dotted keys

  /** A value JavaScript lets `deepGet` step into: present, truthy and of type object. */
  predicate IsObject(cur: Option<Json>) {
    cur.Some? && (cur.value.Obj? || cur.value.Arr?)
  }

  /** A canonical array index: digits without a leading zero (or `0` itself). */
  function ArrayIndex(part: string): (r: Option<nat>)
    ensures r.Some? ==> AllDigits(part) && |part| >= 1
  {
    if |part| >= 1 && AllDigits(part) && (part == "0" || part[0] != '0') then Some(DigitsValue(part)) else None
  }

  /** `cur[part]` for an object or array; `undefined` for a missing member. */
  function Member(j: Json, part: string): Option<Json> {
    match j
    case Obj(fields) => if part in fields then Some(fields[part]) else None
    case Arr(items) =>
      if part == "length" then Some(Number(|items|))
      else
        (match ArrayIndex(part)
         case Some(n) => if n < |items| then Some(items[n]) else None
         case None => None)
    case _ => None
  }

  /** The value reached by following `parts` from `cur`; undefined once a step starts from a non-object. */
  function Walk(cur: Option<Json>, parts: seq<string>): Option<Json>
    decreases |parts|
  {
    if parts == [] then cur
    else if !IsObject(cur) then None
    else Walk(Member(cur.value, parts[0]), parts[1..])
  }

  /** Walking a path in two pieces is walking the whole path. */
  lemma {:induction false} WalkConcat(cur: Option<Json>, p: seq<string>, q: seq<string>)
    ensures Walk(cur, p + q) == Walk(Walk(cur, p), q)
    decreases |p|
  {
    if p == [] {
      assert p + q == q;
    } else if !IsObject(cur) {
      assert (p + q)[0] == p[0];
    } else {
      assert (p + q)[1..] == p[1..] + q;
      WalkConcat(Member(cur.value, p[0]), p[1..], q);
    }
  }

  /** Once a prefix of the path reaches a non-object, the rest of the path finds nothing. */
  lemma WalkStopsAtNonObject(cur: Option<Json>, p: seq<string>, q: seq<string>)
    requires q != [] && !IsObject(Walk(cur, p))
    ensures Walk(cur, p + q) == None
  {
    WalkConcat(cur, p, q);
  }

  /** `deepGet(obj, key)`: walks the dot-separated parts of `key`, returning undefined at the first non-object. */
  method DeepGet(obj: Option<Json>, key: string) returns (r: Option<Json>)
    ensures r == Walk(obj, Split(key, '.'))
  {
    var parts := Split(key, '.');
    var cur := obj;
    for k := 0 to |parts|
      invariant Walk(obj, parts) == Walk(cur, parts[k..])
    {
      if !IsObject(cur) {
        return None;
      }
      assert parts[k..][1..] == parts[k + 1..];
      cur := Member(cur.value, parts[k]);
    }
    assert parts[|parts|..] == [];
    return cur;
  }

  // ------------------------------------------------------------ interpolate

  /** The characters of `\w`. */
  predicate IsWordChar(c: char) {
    ('a' <= c <= 'z') || ('A' <= c <= 'Z') || ('0' <= c <= '9') || c == '_'
  }

  /** Length of the run of word characters that starts `s`. */
  function WordRun(s: string): (n: nat)
    ensures n <= |s|
    ensures forall i :: 0 <= i < n ==> IsWordChar(s[i])
    ensures n == |s| || !IsWordChar(s[n])
  {
    if s != [] && IsWordChar(s[0]) then 1 + WordRun(s[1..]) else 0
  }

  /** Length of a `{word}` placeholder at the start of `s`, if one starts there. */
  function PlaceholderAt(s: string): (n: nat)
    ensures n == 0 || (3 <= n <= |s| && s[0] == '{' && s[n - 1] == '}')
  {
    if |s| >= 3 && s[0] == '{' then
      var w := WordRun(s[1..]);
      if w >= 1 && 1 + w < |s| && s[1 + w] == '}' then w + 2 else 0
    else 0
  }

  /**
   * `str.replace(/\{(\w+)\}/g, …)` with `vars`: scanning left to right, each
   * `{word}` is replaced by `vars[word]` when defined and kept as written
   * otherwise; all other text is copied.
   */
  function Interpolate(s: string, vars: map<string, string>): (r: string)
    ensures '{' !in s ==> r == s
    decreases |s|
  {
    if s == [] then []
    else
      var n := PlaceholderAt(s);
      assert '{' !in s ==> '{' !in s[1..] && s == [s[0]] + s[1..];
      if n == 0 then [s[0]] + Interpolate(s[1..], vars)
      else
        var name := s[1..n - 1];
        (if name in vars then vars[name] else "{" + name + "}") + Interpolate(s[n..], vars)
  }

  /** With no variable defined every placeholder is kept, so the text comes back unchanged. */
  lemma {:induction false} InterpolateNothingDefined(s: string)
    ensures Interpolate(s, map[]) == s
    decreases |s|
  {
    if s != [] {
      var n := PlaceholderAt(s);
      if n == 0 {
        InterpolateNothingDefined(s[1..]);
        assert s == [s[0]] + s[1..];
      } else {
        var name := s[1..n - 1];
        assert s == "{" + name + "}" + s[n..];
        InterpolatePlaceholder(name, s[n..], map[]);
        InterpolateNothingDefined(s[n..]);
      }
    }
  }

  /** Text before the first `{` is copied, and what follows it is interpolated on its own. */
  lemma {:induction false} InterpolateLiteral(a: string, b: string, vars: map<string, string>)
    requires '{' !in a
    ensures Interpolate(a + b, vars) == a + Interpolate(b, vars)
    decreases |a|
  {
    if a != [] {
      assert (a + b)[0] == a[0] && (a + b)[1..] == a[1..] + b;
      assert '{' !in a[1..];
      InterpolateLiteral(a[1..], b, vars);
      assert a == [a[0]] + a[1..];
    } else {
      assert a + b == b;
    }
  }

  /**
   * A placeholder at the front becomes its variable's text when defined and is
   * kept as written otherwise; what follows it is interpolated on its own.
   */
  lemma InterpolatePlaceholder(name: string, rest: string, vars: map<string, string>)
    requires |name| >= 1 && forall i :: 0 <= i < |name| ==> IsWordChar(name[i])
    ensures Interpolate("{" + name + "}" + rest, vars) ==
      (if name in vars then vars[name] else "{" + name + "}") + Interpolate(rest, vars)
  {
    var s := "{" + name + "}" + rest;
    assert s[1..] == name + ("}" + rest);
    WordRunOf(name, "}" + rest);
    assert PlaceholderAt(s) == |name| + 2;
    assert s[1..|name| + 1] == name;
    assert s[|name| + 2..] == rest;
  }

  /** A lone placeholder of a defined variable becomes that variable's text. */
  lemma InterpolateOne(name: string, vars: map<string, string>)
    requires |name| >= 1 && forall i :: 0 <= i < |name| ==> IsWordChar(name[i])
    requires name in vars
    ensures Interpolate("{" + name + "}", vars) == vars[name]
  {
    InterpolatePlaceholder(name, [], vars);
    assert "{" + name + "}" + [] == "{" + name + "}";
  }

  /** The word run of a word followed by a non-word character is the word. */
  lemma {:induction false} WordRunOf(word: string, tail: string)
    requires forall i :: 0 <= i < |word| ==> IsWordChar(word[i])
    requires tail != [] && !IsWordChar(tail[0])
    ensures WordRun(word + tail) == |word|
  {
    if word != [] {
      assert (word + tail)[1..] == word[1..] + tail;
      WordRunOf(word[1..], tail);
    }
  }

  // -------------------------------------------------------------------- t

  /** JavaScript `String(j)`; array elements that are `null` print as nothing. */
  function StringOf(j: Json): string
    decreases j
  {
    match j
    case Null => "null"
    case Bool(b) => if b then "true" else "false"
    case Number(n) => IntToString(n)
    case Str(s) => s
    case Obj(_) => "[object Object]"
    case Arr(items) =>
      Join(seq(|items|, i requires 0 <= i < |items| => if items[i].Null? then "" else StringOf(items[i])), ',')
  }

  /** `undefined` or `null`: the values `??` skips. */
  predicate Nullish(o: Option<Json>) {
    o.None? || o.value.Null?
  }

  /** `fromLocale ?? fromDefault ?? key`. */
  function Resolved(fromLocale: Option<Json>, fromDefault: Option<Json>, key: string): (r: Json)
    ensures !Nullish(fromLocale) ==> r == fromLocale.value
    ensures Nullish(fromLocale) && !Nullish(fromDefault) ==> r == fromDefault.value
    ensures Nullish(fromLocale) && Nullish(fromDefault) ==> r == Str(key)
  {
    if !Nullish(fromLocale) then fromLocale.value
    else if !Nullish(fromDefault) then fromDefault.value
    else Str(key)
  }

  /** `MESSAGES[locale]`. */
  function Table(messages: Json, locale: string): Option<Json> {
    Member(messages, locale)
  }

  /**
   * `t(key, vars)` in `locale`: the message of the locale's table, else of the
   * default table, else the key itself; interpolated when `vars` is given.
   */
  function Translate(messages: Json, locale: string, key: string, vars: Option<map<string, string>>): (r: Json)
    ensures vars.None? ==>
      r == Resolved(Walk(Table(messages, locale), Split(key, '.')), Walk(Table(messages, DefaultLocale), Split(key, '.')), key)
    ensures vars.Some? ==>
      r == Str(Interpolate(StringOf(Resolved(Walk(Table(messages, locale), Split(key, '.')),
                                             Walk(Table(messages, DefaultLocale), Split(key, '.')), key)), vars.value))
  {
    var resolved := Resolved(Walk(Table(messages, locale), Split(key, '.')),
                             Walk(Table(messages, DefaultLocale), Split(key, '.')), key);
    match vars
    case None => resolved
    case Some(v) => Str(Interpolate(StringOf(resolved), v))
  }

  /** A key missing from both tables translates to itself (with no `{` in it, even with variables). */
  lemma MissingKeyIsItself(messages: Json, locale: string, key: string, vars: Option<map<string, string>>)
    requires Nullish(Walk(Table(messages, locale), Split(key, '.')))
    requires Nullish(Walk(Table(messages, DefaultLocale), Split(key, '.')))
    requires '{' !in key
    ensures Translate(messages, locale, key, vars) == Str(key)
  {
  }

  /** A text message of the locale's own table is what gets interpolated, whatever the default table holds. */
  lemma TranslateLocaleMessage(messages: Json, locale: string, key: string, m: string, v: map<string, string>)
    requires Walk(Table(messages, locale), Split(key, '.')) == Some(Str(m))
    ensures Translate(messages, locale, key, Some(v)) == Str(Interpolate(m, v))
  {
  }

  /** In the default locale the fallback table is the locale's own: a message it lacks is the key. */
  lemma DefaultLocaleHasNoOtherFallback(messages: Json, key: string)
    requires Nullish(Walk(Table(messages, DefaultLocale), Split(key, '.')))
    ensures Translate(messages, DefaultLocale, key, None) == Str(key)
  {
  }

  // ------------------------------------------------------------------ state

  /**
   * The module state of i18n.js: the current locale and whether it was
   * initialised, together with the browser state it writes: the stored
   * locale, the document's `lang` attribute and the locale-change events
   * dispatched so far.
   */
  class LocaleState {
    var currentLocale: string
    var initialized: bool
    var stored: Option<string>
    var documentLang: Option<string>
    var events: seq<string>

    /** The current locale is always supported, and once initialised the document carries it. */
    predicate Valid()
      reads this
    {
      Supported(currentLocale) && (initialized ==> documentLang == Some(currentLocale))
    }

    /** Module load: the default locale, not yet initialised; `stored` is what local storage holds. */
    constructor (stored: Option<string>)
      ensures Valid()
      ensures currentLocale == DefaultLocale && !initialized
      ensures this.stored == stored && documentLang == None && events == []
    {
      currentLocale := DefaultLocale;
      initialized := false;
      this.stored := stored;
      documentLang := None;
      events := [];
    }

    /** `initI18n()`: detects the locale on the first call only; later calls return the current locale. */
    method InitI18n(env: Environment) returns (locale: string)
      requires Valid()
      modifies this
      ensures Valid() && initialized
      ensures old(initialized) ==> currentLocale == old(currentLocale) && documentLang == old(documentLang)
      ensures !old(initialized) ==> currentLocale == DetectInitialLocale(env, stored)
      ensures locale == currentLocale
      ensures stored == old(stored) && events == old(events)
    {
      if !initialized {
        var detected := DetectInitialLocale(env, stored);
        assert Supported(detected);
        currentLocale := detected;
        initialized := true;
        documentLang := Some(detected);
      }
      locale := currentLocale;
    }

    /** `getLocale()`: initialises on first use. */
    method GetLocale(env: Environment) returns (locale: string)
      requires Valid()
      modifies this
      ensures Valid() && initialized
      ensures old(initialized) ==> currentLocale == old(currentLocale)
      ensures !old(initialized) ==> currentLocale == DetectInitialLocale(env, stored)
      ensures locale == currentLocale
      ensures stored == old(stored) && events == old(events)
    {
      if !initialized {
        var _ := InitI18n(env);
      }
      return currentLocale;
    }

    /**
     * `setLocale(locale)`: switches to the normalised locale, storing it,
     * updating the document and announcing the change; nothing is stored or
     * announced when it is already the current one.
     */
    method SetLocale(requested: Option<string>, env: Environment)
      requires Valid()
      modifies this
      ensures Valid() && initialized
      ensures currentLocale == NormalizeLocale(requested)
      ensures var before := if old(initialized) then old(currentLocale) else DetectInitialLocale(env, old(stored));
        if before == currentLocale then stored == old(stored) && events == old(events)
        else stored == Some(currentLocale) && events == old(events) + [currentLocale]
    {
      if !initialized {
        var _ := InitI18n(env);
      }
      var next := NormalizeLocale(requested);
      if next != currentLocale {
        Switch(next);
      }
    }

    /** The switch to a new locale: stored, set on the document and announced. */
    method Switch(next: string)
      requires Valid() && initialized && Supported(next)
      modifies this
      ensures Valid() && initialized
      ensures currentLocale == next && stored == Some(next) && events == old(events) + [next]
    {
      currentLocale := next;
      stored := Some(next);
      documentLang := Some(next);
      events := events + [next];
    }

    /** `t(key, vars)`: the translation in the current locale (initialising it on first use). */
    method T(messages: Json, key: string, vars: Option<map<string, string>>, env: Environment) returns (r: Json)
      requires Valid()
      modifies this
      ensures Valid() && initialized
      ensures old(initialized) ==> currentLocale == old(currentLocale)
      ensures r == Translate(messages, currentLocale, key, vars)
      ensures stored == old(stored) && events == old(events)
    {
      var locale := GetLocale(env);
      var fromLocale := DeepGet(Table(messages, locale), key);
      var fromDefault := DeepGet(Table(messages, DefaultLocale), key);
      var resolved := Resolved(fromLocale, fromDefault, key);
      match vars
      case None => r := resolved;
      case Some(v) => r := Str(Interpolate(StringOf(resolved), v));
    }
  }
}
