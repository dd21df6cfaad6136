/**
 * Translation lookup for the user interface: a catalogue of nested
 * translation tables (one per language), a dot-separated key path walked
 * through a table, `{word}` placeholders filled in from a value map, the
 * fallback chain current language -> English -> the key itself, and the
 * guarded current-language setting.
 */
module I18n {
  import opened Text

  /** The languages the catalogue ships, in the order the program lists them. */
  const AvailableLanguages: seq<string> := ["en", "ru"]

  /** A language code the program accepts. */
  type Language = s: string | s == "en" || s == "ru" witness "en"

  const DefaultLanguage: Language := "en"

  /** A translation table: a leaf holds a string, an inner node maps keys to subtables. */
  datatype Translation = Leaf(text: string) | Node(children: map<string, Translation>)

  /** The two bundled tables. Their contents are abstract: any trees will do. */
  datatype Catalog = Catalog(en: Translation, ru: Translation)

  /** `isValidLanguage`: membership in the list of available languages. */
  function IsValidLanguage(s: string): (r: bool)
    ensures r <==> s == "en" || s == "ru"
  {
    s in AvailableLanguages
  }

  /** `loadTranslations`: the table of a language (both languages have one). */
  function LoadTranslations(cat: Catalog, lang: Language): (t: Translation)
    ensures lang == "en" ==> t == cat.en
    ensures lang == "ru" ==> t == cat.ru
  {
    if lang == "en" then cat.en else cat.ru
  }

  // ---------------------------------------------------------------------------
  // System language

  /** `s` has an "r" followed by a "u", ignoring ASCII case. */
  ghost predicate MentionsRu(s: string) {
    exists i :: 0 <= i < |s| - 1 && LowerChar(s[i]) == 'r' && LowerChar(s[i + 1]) == 'u'
  }

  /**
   * `getSystemLanguage`, with the environment variables LANG, LANGUAGE and
   * LC_ALL passed in (an unset variable is passed as ""). The first non-empty
   * one decides: Russian iff its lower-case form contains "ru".
   */
  function GetSystemLanguage(lang: string, language: string, lcAll: string): (r: Language)
    ensures lang != "" ==> (r == "ru" <==> MentionsRu(lang))
    ensures lang == "" && language != "" ==> (r == "ru" <==> MentionsRu(language))
    ensures lang == "" && language == "" ==> (r == "ru" <==> MentionsRu(lcAll))
  {
    var envLang := if lang != "" then lang else if language != "" then language else lcAll;
    LowerIncludesRu(envLang);
    if Includes(ToLower(envLang), "ru") then "ru" else "en"
  }

  lemma LowerIncludesRu(s: string)
    ensures Includes(ToLower(s), "ru") <==> MentionsRu(s)
  {
    var l := ToLower(s);
    if Includes(l, "ru") {
      var i :| OccursAt(l, "ru", i);
      OccursRuAt(l, i);
      assert LowerChar(s[i]) == 'r' && LowerChar(s[i + 1]) == 'u';
    }
    if MentionsRu(s) {
      var i :| 0 <= i < |s| - 1 && LowerChar(s[i]) == 'r' && LowerChar(s[i + 1]) == 'u';
      OccursRuAt(l, i);
    }
  }

  lemma OccursRuAt(l: string, i: int)
    ensures OccursAt(l, "ru", i) <==> 0 <= i && i + 1 < |l| && l[i] == 'r' && l[i + 1] == 'u'
  {
    if 0 <= i && i + 1 < |l| {
      assert l[i..i + 2] == [l[i], l[i + 1]];
    }
  }

  // ---------------------------------------------------------------------------
  // Key paths

  /** `path.split('.')`: always at least one piece, possibly empty ones. */
  function SplitDot(s: string): (parts: seq<string>)
    ensures |parts| >= 1
    ensures forall p :: p in parts ==> '.' !in p
  {
    if s == [] then [""]
    else if s[0] == '.' then [""] + SplitDot(s[1..])
    else
      var rest := SplitDot(s[1..]);
      [[s[0]] + rest[0]] + rest[1..]
  }

  /** The inverse of `SplitDot`: the pieces glued back with dots. */
  function JoinDot(parts: seq<string>): string
    requires |parts| >= 1
  {
    if |parts| == 1 then parts[0] else parts[0] + "." + JoinDot(parts[1..])
  }

  lemma {:induction false} JoinSplit(s: string)
    ensures JoinDot(SplitDot(s)) == s
  {
    if s != [] {
      JoinSplit(s[1..]);
      if s[0] != '.' {
        var rest := SplitDot(s[1..]);
        if |rest| == 1 {
        } else {
          assert JoinDot(rest) == rest[0] + "." + JoinDot(rest[1..]);
          assert ([[s[0]] + rest[0]] + rest[1..])[1..] == rest[1..];
        }
      }
    }
  }

  lemma {:induction false} SplitJoin(parts: seq<string>)
    requires |parts| >= 1
    requires forall p :: p in parts ==> '.' !in p
    ensures SplitDot(JoinDot(parts)) == parts
  {
    if |parts| == 1 {
      SplitNoDot(parts[0]);
    } else {
      SplitJoin(parts[1..]);
      SplitPrefix(parts[0], JoinDot(parts[1..]));
      assert parts == [parts[0]] + parts[1..];
    }
  }

  lemma {:induction false} SplitNoDot(s: string)
    requires '.' !in s
    ensures SplitDot(s) == [s]
  {
    if s != [] {
      assert s[0] != '.' && '.' !in s[1..];
      SplitNoDot(s[1..]);
      assert [s[0]] + s[1..] == s;
    }
  }

  /** Splitting `head + "." + tail`, where `head` has no dot. */
  lemma {:induction false} SplitPrefix(head: string, tail: string)
    requires '.' !in head
    ensures SplitDot(head + "." + tail) == [head] + SplitDot(tail)
  {
    if head == [] {
      assert head + "." + tail == "." + tail;
      assert ("." + tail)[1..] == tail;
    } else {
      var s := head + "." + tail;
      assert s[1..] == head[1..] + "." + tail;
      SplitPrefix(head[1..], tail);
      assert [s[0]] + head[1..] == head;
    }
  }

  // ---------------------------------------------------------------------------
  // Walking a table

  /**
   * One step `current[key]`: a key of an inner node, or, on a string, a
   * canonical index, which gives the one-character string at that index.
   */
  function Child(t: Translation, key: string): Option<Translation>
  {
    match t
    case Node(children) => if key in children then Some(children[key]) else None
    case Leaf(text) =>
      match ArrayIndex(key)
      case Some(n) => if n < |text| then Some(Leaf([text[n]])) else None
      case None => None
  }

  /** The node reached by following `keys` from `t`, or None once a key is missing. */
  function Walk(t: Translation, keys: seq<string>): Option<Translation>
    decreases keys
  {
    if keys == [] then Some(t)
    else match Child(t, keys[0])
      case None => None
      case Some(u) => Walk(u, keys[1..])
  }

  /** The string at the end of `keys`, if the node reached is a leaf. */
  function Lookup(t: Translation, keys: seq<string>): Option<string>
  {
    match Walk(t, keys)
    case Some(Leaf(s)) => Some(s)
    case _ => None
  }

  /** What `getNestedValue(obj, path)` returns. */
  function NestedValue(obj: Translation, path: string): Option<string>
  {
    Lookup(obj, SplitDot(path))
  }

  /** Walking a concatenated path walks the first part, then the second from where it ended. */
  lemma {:induction false} WalkAppend(t: Translation, a: seq<string>, b: seq<string>)
    ensures Walk(t, a + b) == match Walk(t, a) case None => None case Some(u) => Walk(u, b)
    decreases a
  {
    if a != [] {
      assert (a + b)[0] == a[0] && (a + b)[1..] == a[1..] + b;
      match Child(t, a[0])
      case None =>
      case Some(u) => WalkAppend(u, a[1..], b);
    } else {
      assert a + b == b;
    }
  }

  /** A path that runs on past a string leaf with a key that is not an index finds nothing. */
  lemma BelowLeafNotFound(t: Translation, a: seq<string>, b: seq<string>, s: string)
    requires Walk(t, a) == Some(Leaf(s))
    requires b != [] && forall n: nat :: NatToString(n) != b[0]
    ensures Lookup(t, a + b) == None
  {
    WalkAppend(t, a, b);
    assert ArrayIndex(b[0]).None?;
  }

  /** Indexing one step past a string leaf gives the character at that index, if there is one. */
  lemma BelowLeafIndex(t: Translation, a: seq<string>, s: string, n: nat)
    requires Walk(t, a) == Some(Leaf(s))
    ensures n < |s| ==> Lookup(t, a + [NatToString(n)]) == Some([s[n]])
    ensures n >= |s| ==> Lookup(t, a + [NatToString(n)]) == None
  {
    WalkAppend(t, a, [NatToString(n)]);
    ArrayIndexOfNat(n);
  }

  /** A path that stops at an inner node finds nothing. */
  lemma EndOnNodeNotFound(t: Translation, keys: seq<string>, m: map<string, Translation>)
    requires Walk(t, keys) == Some(Node(m))
    ensures Lookup(t, keys) == None
  {
  }

  /** A key written as dot-separated segments looks up exactly those segments. */
  lemma DottedKeyLookup(t: Translation, keys: seq<string>)
    requires |keys| >= 1
    requires forall k :: k in keys ==> '.' !in k
    ensures NestedValue(t, JoinDot(keys)) == Lookup(t, keys)
  {
    SplitJoin(keys);
  }

  /** One more key: one more step from where the walk had got to. */
  lemma WalkStep(t: Translation, keys: seq<string>, i: nat)
    requires i < |keys| && Walk(t, keys[..i]).Some?
    ensures Walk(t, keys[..i + 1]) == Child(Walk(t, keys[..i]).value, keys[i])
  {
    WalkAppend(t, keys[..i], [keys[i]]);
    assert keys[..i + 1] == keys[..i] + [keys[i]];
  }

  /** Once a key is missing, the rest of the path is never consulted. */
  lemma WalkStopped(t: Translation, keys: seq<string>, i: nat)
    requires i <= |keys| && Walk(t, keys[..i]).None?
    ensures Walk(t, keys) == None
  {
    WalkAppend(t, keys[..i], keys[i..]);
    assert keys[..i] + keys[i..] == keys;
  }

  /** `getNestedValue`: split the path, then reassign `current` key by key. */
  method GetNestedValue(obj: Translation, path: string) returns (r: Option<string>)
    ensures r == NestedValue(obj, path)
  {
    var keys := SplitDot(path);
    var current: Option<Translation> := Some(obj);
    var i := 0;
    while i < |keys|
      invariant 0 <= i <= |keys|
      invariant current == Walk(obj, keys[..i])
    {
      if current.None? {
        WalkStopped(obj, keys, i);
        return None;
      }
      WalkStep(obj, keys, i);
      current := Child(current.value, keys[i]);
      i := i + 1;
    }
    assert keys[..i] == keys;
    r := match current case Some(Leaf(s)) => Some(s) case _ => None;
  }

  // ---------------------------------------------------------------------------
  // Interpolation

  /** JavaScript's `\w`: ASCII letters, digits and the underscore. */
  predicate IsWordChar(c: char) {
    'A' <= c <= 'Z' || 'a' <= c <= 'z' || '0' <= c <= '9' || c == '_'
  }

  /** A placeholder name: one or more word characters. */
  ghost predicate IsKey(k: string) {
    |k| > 0 && forall i :: 0 <= i < |k| ==> IsWordChar(k[i])
  }

  /** The length of the run of word characters that starts `s`. */
  function WordRun(s: string): (n: nat)
    ensures n <= |s|
    ensures forall i :: 0 <= i < n ==> IsWordChar(s[i])
    ensures n < |s| ==> !IsWordChar(s[n])
  {
    if s != [] && IsWordChar(s[0]) then 1 + WordRun(s[1..]) else 0
  }

  /** The name `k` when `s` starts with the placeholder `{k}`. */
  function PlaceholderAt(s: string): Option<string>
  {
    if |s| >= 1 && s[0] == '{' then
      var n := WordRun(s[1..]);
      if n > 0 && n + 1 < |s| && s[n + 1] == '}' then Some(s[1..n + 1]) else None
    else None
  }

  /** `PlaceholderAt` recognises exactly the strings that start with `{k}` for a name `k`. */
  lemma PlaceholderAtIff(s: string, k: string)
    ensures PlaceholderAt(s) == Some(k) <==> IsKey(k) && StartsWith(s, "{" + k + "}")
  {
    if IsKey(k) && StartsWith(s, "{" + k + "}") {
      var p := "{" + k + "}";
      assert s[..|p|] == p;
      forall i | 0 <= i < |k| ensures s[1..][i] == k[i] {
        assert s[1 + i] == p[1 + i];
      }
      assert s[1..][|k|] == s[|k| + 1] == p[|k| + 1] == '}';
      WordRunOf(s[1..], k);
      assert s[1..|k| + 1] == k;
    }
  }

  lemma WordRunOf(s: string, k: string)
    requires |k| < |s| && !IsWordChar(s[|k|])
    requires forall i :: 0 <= i < |k| ==> IsWordChar(k[i]) && s[i] == k[i]
    ensures WordRun(s) == |k|
  {
    if k != [] {
      WordRunOf(s[1..], k[1..]);
    }
  }

  /** The single left-to-right pass of `template.replace(/\{(\w+)\}/g, …)`. */
  function Subst(s: string, values: map<string, string>): string
    decreases |s|
  {
    if s == [] then []
    else match PlaceholderAt(s)
      case Some(k) =>
        (if k in values then values[k] else "{" + k + "}") + Subst(s[|k| + 2..], values)
      case None => [s[0]] + Subst(s[1..], values)
  }

  /** `interpolate`: with no value map the template comes back unchanged. */
  function Interpolate(template: string, values: Option<map<string, string>>): (r: string)
    ensures values.None? ==> r == template
  {
    match values
    case None => template
    case Some(v) => Subst(template, v)
  }

  /**
   * A placeholder at the front is replaced by its value, or kept verbatim when
   * its name has no value, and scanning resumes after the placeholder: the
   * inserted value is never scanned again.
   */
  lemma SubstPlaceholder(k: string, rest: string, values: map<string, string>)
    requires IsKey(k)
    ensures Subst("{" + k + "}" + rest, values)
         == (if k in values then values[k] else "{" + k + "}") + Subst(rest, values)
  {
    var s := "{" + k + "}" + rest;
    assert StartsWith(s, "{" + k + "}");
    PlaceholderAtIff(s, k);
    assert s[|k| + 2..] == rest;
  }

  /** Text without an opening brace is copied through unchanged. */
  lemma {:induction false} SubstPlainText(text: string, rest: string, values: map<string, string>)
    requires '{' !in text
    ensures Subst(text + rest, values) == text + Subst(rest, values)
  {
    if text != [] {
      var s := text + rest;
      assert s[0] == text[0] && text[0] != '{';
      assert text == [text[0]] + text[1..];
      assert s[1..] == text[1..] + rest;
      assert PlaceholderAt(s) == None;
      assert Subst(s, values) == [s[0]] + Subst(s[1..], values);
      SubstPlainText(text[1..], rest, values);
    } else {
      assert text + rest == rest;
    }
  }

  /** With an empty value map every placeholder is unknown, so nothing changes. */
  lemma {:induction false} SubstNoValues(s: string)
    ensures Subst(s, map[]) == s
    decreases |s|
  {
    if s != [] {
      match PlaceholderAt(s)
      case Some(k) =>
        PlaceholderAtIff(s, k);
        SubstNoValues(s[|k| + 2..]);
        assert s[..|k| + 2] == "{" + k + "}";
        assert s == s[..|k| + 2] + s[|k| + 2..];
      case None =>
        SubstNoValues(s[1..]);
        assert s == [s[0]] + s[1..];
    }
  }

  /** A value that itself looks like a placeholder is inserted as it is. */
  lemma NoRescan()
    ensures Interpolate("{a}", Some(map["a" := "{b}", "b" := "x"])) == "{b}"
  {
    var values := map["a" := "{b}", "b" := "x"];
    assert IsWordChar("a"[0]);
    SubstPlaceholder("a", "", values);
    assert "{" + "a" + "}" + "" == "{a}";
  }

  // ---------------------------------------------------------------------------
  // The translation function

  /** A lookup result counts as a translation when it is a non-empty string. */
  predicate Found(text: Option<string>) {
    text.Some? && text.value != ""
  }

  /** The language `t` uses: the explicit one, else the current one. */
  function ChosenLanguage(current: Language, lang: Option<Language>): Language
  {
    if lang.Some? then lang.value else current
  }

  /**
   * `t(key, values, lang)`: the chosen language's entry, else (for a language
   * other than English) the English entry, else the key itself; only a found
   * entry is interpolated.
   */
  function Translate(cat: Catalog, current: Language, key: string,
                     values: Option<map<string, string>>, lang: Option<Language>): (r: string)
    ensures var l := ChosenLanguage(current, lang);
            var own := NestedValue(LoadTranslations(cat, l), key);
            var en := NestedValue(cat.en, key);
            && (Found(own) ==> r == Interpolate(own.value, values))
            && (!Found(own) && l != "en" && Found(en) ==> r == Interpolate(en.value, values))
            && (!Found(own) && (l == "en" || !Found(en)) ==> r == key)
  {
    var l := ChosenLanguage(current, lang);
    var text := NestedValue(LoadTranslations(cat, l), key);
    var text' := if !Found(text) && l != "en" then NestedValue(cat.en, key) else text;
    if !Found(text') then key else Interpolate(text'.value, values)
  }

  /** An explicit English request never looks at the Russian table. */
  lemma EnglishIgnoresRussian(en: Translation, ru1: Translation, ru2: Translation, current: Language,
                              key: string, values: Option<map<string, string>>)
    ensures Translate(Catalog(en, ru1), current, key, values, Some("en"))
         == Translate(Catalog(en, ru2), current, key, values, Some("en"))
  {
  }

  /** The module-level language state: only an available language is ever stored. */
  class I18nState {
    const catalog: Catalog
    var currentLanguage: Language

    /** The state starts out in the default language, English. */
    constructor (catalog: Catalog)
      ensures this.catalog == catalog
      ensures currentLanguage == DefaultLanguage
    {
      this.catalog := catalog;
      currentLanguage := DefaultLanguage;
    }

    /** `getCurrentLanguage`. */
    method GetCurrentLanguage() returns (l: Language)
      ensures l == currentLanguage
    {
      l := currentLanguage;
    }

    /**
     * `setCurrentLanguage`: the argument is whatever string the caller has
     * (for instance a language read from the settings file); it is stored only
     * when it is an available language.
     */
    method SetCurrentLanguage(lang: string)
      modifies this
      ensures IsValidLanguage(lang) ==> currentLanguage == lang
      ensures !IsValidLanguage(lang) ==> currentLanguage == old(currentLanguage)
    {
      if lang in AvailableLanguages {
        currentLanguage := lang;
      }
    }

    /** `t` against the current state, walking the tables with `GetNestedValue`. */
    method T(key: string, values: Option<map<string, string>>, lang: Option<Language>)
      returns (r: string)
      ensures r == Translate(catalog, currentLanguage, key, values, lang)
    {
      var l := if lang.Some? then lang.value else currentLanguage;
      var text := GetNestedValue(LoadTranslations(catalog, l), key);
      if !Found(text) && l != "en" {
        text := GetNestedValue(catalog.en, key);
      }
      if !Found(text) {
        return key;
      }
      r := Interpolate(text.value, values);
    }
  }
}
