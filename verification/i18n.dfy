/** The interface translations of frontend/src/contexts/LanguageContext.js:
    the dotted-key lookup `t(key)` with its English fallback, and the
    language switch. */
module I18n {
  import opened Wrappers
  import Text

  /** A translation table: a string, or an object of named entries. */
  datatype Entry = Leaf(text: string) | Branch(children: map<string, Entry>)

  /** `value[k]` when it is defined. Looking a name up in a string gives
      nothing here (the character-index reading of JavaScript is left out). */
  function Child(e: Entry, k: string): (r: Option<Entry>)
    ensures r.Some? <==> e.Branch? && k in e.children
    ensures r.Some? ==> r.value == e.children[k]
  {
    match e
    case Leaf(_) => None
    case Branch(m) => if k in m then Some(m[k]) else None
  }

  /** Following the segments `keys` from `root`, one after the other. */
  function Walk(root: Entry, keys: seq<string>): Option<Entry>
    decreases |keys|
  {
    if |keys| == 0 then Some(root)
    else
      match Walk(root, keys[..|keys| - 1])
      case None => None
      case Some(e) => Child(e, keys[|keys| - 1])
  }

  /** The root of a language's table, when the table has it. */
  function Root(tables: map<string, Entry>, language: string): Option<Entry> {
    if language in tables then Some(tables[language]) else None
  }

  /** What `t(key)` promises: the current language's entry when every
      segment resolves there; else the English entry; else the key itself. */
  function Translate(tables: map<string, Entry>, language: string, key: string): Entry
  {
    var keys := Text.Split(key, '.');
    if language in tables && Walk(tables[language], keys).Some? then Walk(tables[language], keys).value
    else if "en" in tables && Walk(tables["en"], keys).Some? then Walk(tables["en"], keys).value
    else Leaf(key)
  }

  /** `t(key)` as the page runs it: one pass over the segments in the
      current language, and on the first miss a second pass in English that
      gives up with the key. */
  method T(tables: map<string, Entry>, language: string, key: string) returns (r: Entry)
    ensures r == Translate(tables, language, key)
  {
    var keys := Text.Split(key, '.');
    var value := Root(tables, language);
    var i := 0;
    while i < |keys|
      invariant 0 <= i <= |keys|
      invariant value.Some? ==> language in tables && Walk(tables[language], keys[..i]) == value
      invariant value.None? ==> i == 0 && language !in tables
    {
      var next := if value.Some? then Child(value.value, keys[i]) else None;
      if next.None? {
        assert !(language in tables && Walk(tables[language], keys).Some?) by {
          if language in tables {
            assert keys[..i + 1][..i] == keys[..i];
            assert Walk(tables[language], keys[..i + 1]).None?;
            WalkMissStays(tables[language], keys, i + 1);
          }
        }
        r := EnglishPass(tables, keys, key);
        return;
      }
      assert keys[..i + 1][..i] == keys[..i];
      value := next;
      i := i + 1;
    }
    assert keys[..i] == keys;
    r := value.value;
  }

  /** The inner loop of `t`: the lookup restarted from the English root. */
  method EnglishPass(tables: map<string, Entry>, keys: seq<string>, key: string) returns (r: Entry)
    ensures "en" in tables && Walk(tables["en"], keys).Some? ==> r == Walk(tables["en"], keys).value
    ensures !("en" in tables && Walk(tables["en"], keys).Some?) ==> r == Leaf(key)
  {
    var value := Root(tables, "en");
    var j := 0;
    while j < |keys|
      invariant 0 <= j <= |keys|
      invariant value.Some? ==> "en" in tables && Walk(tables["en"], keys[..j]) == value
      invariant value.None? ==> j == 0 && "en" !in tables
    {
      var next := if value.Some? then Child(value.value, keys[j]) else None;
      if next.None? {
        if "en" in tables {
          assert keys[..j + 1][..j] == keys[..j];
          assert Walk(tables["en"], keys[..j + 1]).None?;
          WalkMissStays(tables["en"], keys, j + 1);
        }
        return Leaf(key);
      }
      assert keys[..j + 1][..j] == keys[..j];
      value := next;
      j := j + 1;
    }
    assert keys[..j] == keys;
    if value.None? {
      // `keys` is never empty for a split key; an empty list leaves no English root here
      return Leaf(key);
    }
    r := value.value;
  }

  /** Once a prefix of the segments misses, so does every longer one. */
  lemma {:induction false} WalkMissStays(root: Entry, keys: seq<string>, n: nat)
    requires n <= |keys| && Walk(root, keys[..n]).None?
    ensures Walk(root, keys).None?
    decreases |keys| - n
  {
    if n < |keys| {
      assert keys[..n + 1][..n] == keys[..n];
      WalkMissStays(root, keys, n + 1);
    } else {
      assert keys[..n] == keys;
    }
  }

  /** A key written as dot-free names joined by dots addresses exactly the
      entry those names lead to. */
  lemma DottedKeyFollowsNames(tables: map<string, Entry>, language: string, names: seq<string>)
    requires |names| >= 1 && forall k | 0 <= k < |names| :: '.' !in names[k]
    requires language in tables && Walk(tables[language], names).Some?
    ensures Translate(tables, language, Text.Join(names, ".")) == Walk(tables[language], names).value
  {
    Text.SplitJoin(names, '.');
  }

  /** English is its own fallback: a key missing in English comes back as is. */
  lemma MissingEverywhereGivesKey(tables: map<string, Entry>, language: string, key: string)
    requires !(language in tables && Walk(tables[language], Text.Split(key, '.')).Some?)
    requires "en" in tables && Walk(tables["en"], Text.Split(key, '.')).None?
    ensures Translate(tables, language, key) == Leaf(key)
  {
  }

  /** `toggleLanguage()`. */
  function ToggleLanguage(language: string): (r: string)
    ensures r in {"en", "ru"}
    ensures r == "ru" <==> language == "en"
  {
    if language == "en" then "ru" else "en"
  }

  /** The switch alternates between the two interface languages. */
  lemma ToggleTwiceRestores(language: string)
    requires language in {"en", "ru"}
    ensures ToggleLanguage(ToggleLanguage(language)) == language
  {
  }
}
