/**
 * The translation lookup `t(key)` of the language context: a dotted key is
 * split on '.', the segments are followed through the active language's
 * catalog tree, and a string leaf is returned; in every other case the key
 * itself comes back unchanged. The active language is a single state cell
 * that starts at 'en' and is replaced by `setLanguage`.
 */
module Localization {
  import opened Wrappers
  import opened Text
  import opened Translations

  /** A catalog node: a display string, or a namespace of named child nodes (own keys only). */
  datatype Node = Leaf(text: string) | Namespace(entries: map<string, Node>)

  /**
   * The namespace an object literal of string entries builds, one entry per
   * key in order; as in an object literal, a later key overrides an earlier one.
   */
  function Entries(keys: seq<string>, texts: seq<string>): (m: map<string, Node>)
    requires |keys| == |texts|
    ensures m.Keys == set k | k in keys
    ensures forall k :: k in m ==> m[k].Leaf? && m[k].text in texts
  {
    if keys == [] then map[]
    else
      var n := |keys| - 1;
      var m := Entries(keys[..n], texts[..n]);
      assert forall k :: k in keys <==> k in keys[..n] || k == keys[n];
      m[keys[n] := Leaf(texts[n])]
  }

  /** With distinct keys, each key of the literal maps to its own text. */
  lemma {:induction false} EntriesAt(keys: seq<string>, texts: seq<string>, i: nat)
    requires |keys| == |texts| && Distinct(keys) && i < |keys|
    ensures keys[i] in Entries(keys, texts) && Entries(keys, texts)[keys[i]] == Leaf(texts[i])
  {
    var n := |keys| - 1;
    var m := Entries(keys[..n], texts[..n]);
    assert Entries(keys, texts) == m[keys[n] := Leaf(texts[n])];
    if i < n {
      assert Distinct(keys[..n]);
      EntriesAt(keys[..n], texts[..n], i);
      assert keys[..n][i] == keys[i] != keys[n];
    }
  }

  /** The catalog tree built from a language's texts: the top-level entries, then the `sidebar` namespace. */
  function CatalogOf(top: seq<string>, side: seq<string>): Node
    requires |top| == |TopKeys| && |side| == |SidebarKeys|
  {
    Namespace(Entries(TopKeys, top)[SidebarNamespace := Namespace(Entries(SidebarKeys, side))])
  }

  /** The catalog tree of one language. */
  function Catalog(lang: Language): Node
  {
    CatalogOf(TopTexts(lang), SidebarTexts(lang))
  }

  /** Follows the segments from a node; `None` as soon as a segment is not an own key of a namespace. */
  function Walk(node: Node, path: seq<string>): (r: Option<Node>)
    ensures path == [] ==> r == Some(node)
    ensures path != [] && node.Leaf? ==> r.None?
  {
    if path == [] then Some(node)
    else match node
      case Namespace(entries) =>
        if path[0] in entries then Walk(entries[path[0]], path[1..]) else None
      case Leaf(_) => None
  }

  /** Walking a path in two parts: the second part starts from wherever the first part ends. */
  lemma {:induction false} WalkAppend(node: Node, p: seq<string>, q: seq<string>)
    ensures Walk(node, p + q) == if Walk(node, p).Some? then Walk(Walk(node, p).value, q) else None
  {
    if p == [] {
      assert p + q == q;
    } else if node.Namespace? && p[0] in node.entries {
      assert (p + q)[1..] == p[1..] + q;
      WalkAppend(node.entries[p[0]], p[1..], q);
    }
  }

  /** The text `t` shows for a key in a catalog: the leaf the key's segments lead to, else the key. */
  function Lookup(catalog: Node, key: string): (r: string)
    ensures r == key || Walk(catalog, Split(key, '.')) == Some(Leaf(r))
  {
    match Walk(catalog, Split(key, '.'))
    case Some(Leaf(text)) => text
    case _ => key
  }

  /** `t(key)` under language `lang`. */
  function Translate(lang: Language, key: string): (r: string)
    ensures r == key || Walk(Catalog(lang), Split(key, '.')) == Some(Leaf(r))
  {
    Lookup(Catalog(lang), key)
  }

  /** The segment lists that lead to a string leaf in every catalog. */
  predicate IsLeafPath(path: seq<string>)
  {
    || (|path| == 1 && path[0] in TopKeys)
    || (|path| == 2 && path[0] == SidebarNamespace && path[1] in SidebarKeys)
  }

  predicate LeadsToLeaf(catalog: Node, path: seq<string>)
  {
    Walk(catalog, path).Some? && Walk(catalog, path).value.Leaf?
  }

  /**
   * The shape shared by every catalog: a path leads to a string exactly when it is a
   * leaf path, and the string is then one of the language's texts.
   */
  lemma CatalogLeafPaths(top: seq<string>, side: seq<string>, path: seq<string>)
    requires |top| == |TopKeys| && |side| == |SidebarKeys|
    ensures LeadsToLeaf(CatalogOf(top, side), path) <==> IsLeafPath(path)
    ensures LeadsToLeaf(CatalogOf(top, side), path) ==>
      Walk(CatalogOf(top, side), path).value.text in top + side
  {
    SidebarNotTopKey();
    var catalog := CatalogOf(top, side);
    var entries := catalog.entries;
    if |path| >= 1 && path[0] in entries {
      var child := entries[path[0]];
      assert Walk(catalog, path) == Walk(child, path[1..]);
      if path[0] == SidebarNamespace {
        var side' := child.entries;
        assert side' == Entries(SidebarKeys, side);
        if |path| >= 2 && path[1] in side' {
          assert side'[path[1]].Leaf?;
          assert Walk(child, path[1..]) == Walk(side'[path[1]], path[2..]);
        }
      } else {
        assert child == Entries(TopKeys, top)[path[0]];
        assert child.Leaf?;
      }
    }
  }

  /** The six catalogs share one key tree: a key resolves under one language iff it resolves under any other. */
  lemma SameKeyTree(lang: Language, other: Language, key: string)
    ensures LeadsToLeaf(Catalog(lang), Split(key, '.')) <==> LeadsToLeaf(Catalog(other), Split(key, '.'))
  {
    CatalogLeafPaths(TopTexts(lang), SidebarTexts(lang), Split(key, '.'));
    CatalogLeafPaths(TopTexts(other), SidebarTexts(other), Split(key, '.'));
  }

  /** Lookup in any catalog of this shape: a text for a leaf path, the key for every other key. */
  lemma LookupTotal(top: seq<string>, side: seq<string>, key: string)
    requires |top| == |TopKeys| && |side| == |SidebarKeys|
    ensures var r := Lookup(CatalogOf(top, side), key);
      if IsLeafPath(Split(key, '.')) then r in top + side else r == key
  {
    CatalogLeafPaths(top, side, Split(key, '.'));
  }

  /**
   * `t` never fails: for a leaf path it yields one of the texts of the active catalog,
   * for any other key (absent segment, a segment below a string, a namespace) the key itself.
   */
  lemma TranslateTotal(lang: Language, key: string)
    ensures var r := Translate(lang, key);
      if IsLeafPath(Split(key, '.')) then r in TopTexts(lang) + SidebarTexts(lang) else r == key
  {
    LookupTotal(TopTexts(lang), SidebarTexts(lang), key);
  }

  /** A top-level key returns its own text, e.g. "welcomeBack" is "Welcome back" in 'en'. */
  lemma LookupTopKey(top: seq<string>, side: seq<string>, i: nat)
    requires |top| == |TopKeys| && |side| == |SidebarKeys| && i < |TopKeys|
    ensures Lookup(CatalogOf(top, side), TopKeys[i]) == top[i]
  {
    var key := TopKeys[i];
    var entries := Entries(TopKeys, top);
    assert Split(key, '.') == [key] by {
      TopKeysUndotted();
      SplitNoSep(key, '.');
    }
    assert entries[key] == Leaf(top[i]) by {
      TopKeysDistinct();
      EntriesAt(TopKeys, top, i);
    }
    assert key != SidebarNamespace by {
      SidebarNotTopKey();
    }
    assert Walk(CatalogOf(top, side), [key]) == Walk(Leaf(top[i]), []);
  }

  /** "sidebar.<k>" returns the sidebar text of k, e.g. "sidebar.dashboard" is "Dashboard" in 'en'. */
  lemma LookupSidebarKey(top: seq<string>, side: seq<string>, i: nat)
    requires |top| == |TopKeys| && |side| == |SidebarKeys| && i < |SidebarKeys|
    ensures Lookup(CatalogOf(top, side), SidebarNamespace + "." + SidebarKeys[i]) == side[i]
  {
    var key := SidebarNamespace + "." + SidebarKeys[i];
    var entries := Entries(SidebarKeys, side);
    assert Split(key, '.') == [SidebarNamespace, SidebarKeys[i]] by {
      SidebarKeysUndotted();
      SplitPrefix(SidebarNamespace, SidebarKeys[i], '.');
      SplitNoSep(SidebarKeys[i], '.');
    }
    assert entries[SidebarKeys[i]] == Leaf(side[i]) by {
      SidebarKeysDistinct();
      EntriesAt(SidebarKeys, side, i);
    }
    var catalog := CatalogOf(top, side);
    assert Walk(catalog, [SidebarNamespace, SidebarKeys[i]])
        == Walk(Namespace(entries), [SidebarKeys[i]])
        == Walk(Leaf(side[i]), []);
  }

  /** Every top-level key translates to its text in every language. */
  lemma TranslateTopKey(lang: Language, i: nat)
    requires i < |TopKeys|
    ensures Translate(lang, TopKeys[i]) == TopTexts(lang)[i]
  {
    LookupTopKey(TopTexts(lang), SidebarTexts(lang), i);
  }

  /** Every "sidebar.<k>" key translates to the sidebar text of k in every language. */
  lemma TranslateSidebarKey(lang: Language, i: nat)
    requires i < |SidebarKeys|
    ensures Translate(lang, SidebarNamespace + "." + SidebarKeys[i]) == SidebarTexts(lang)[i]
  {
    LookupSidebarKey(TopTexts(lang), SidebarTexts(lang), i);
  }

  /** "sidebar.dashboard" is "Dashboard" in 'en'. */
  lemma TranslateNestedLeafExample(key: string)
    requires key == "sidebar.dashboard"
    ensures Translate(En, key) == "Dashboard"
  {
    assert key == SidebarNamespace + "." + SidebarKeys[0];
    TranslateSidebarKey(En, 0);
    assert SidebarTexts(En)[0] == "Dashboard";
  }

  /** "welcomeBack" is "Welcome back" in 'en'. */
  lemma TranslateTopLeafExample(key: string)
    requires key == "welcomeBack"
    ensures Translate(En, key) == "Welcome back"
  {
    assert key == TopKeys[0];
    TranslateTopKey(En, 0);
    assert TopTexts(En)[0] == "Welcome back";
  }

  /** A key that stops at the `sidebar` namespace falls back to the key. */
  lemma LookupNamespace(top: seq<string>, side: seq<string>)
    requires |top| == |TopKeys| && |side| == |SidebarKeys|
    ensures Lookup(CatalogOf(top, side), SidebarNamespace) == SidebarNamespace
  {
    assert Split(SidebarNamespace, '.') == [SidebarNamespace] by {
      SplitNoSep(SidebarNamespace, '.');
    }
    SidebarNotTopKey();
    LookupTotal(top, side, SidebarNamespace);
  }

  /** "sidebar" names a namespace, not a string, so it comes back unchanged in every language. */
  lemma TranslateNamespaceExample(lang: Language)
    ensures Translate(lang, "sidebar") == "sidebar"
  {
    LookupNamespace(TopTexts(lang), SidebarTexts(lang));
  }

  lemma SplitTwo(a: string, b: string)
    requires '.' !in a && '.' !in b
    ensures Split(a + "." + b, '.') == [a, b]
  {
    SplitPrefix(a, b, '.');
    SplitNoSep(b, '.');
  }

  /** A segment below a string leaf falls back to the key: "<top key>.<anything>". */
  lemma LookupPastLeaf(top: seq<string>, side: seq<string>, i: nat, k: string)
    requires |top| == |TopKeys| && |side| == |SidebarKeys| && i < |TopKeys| && '.' !in k
    ensures Lookup(CatalogOf(top, side), TopKeys[i] + "." + k) == TopKeys[i] + "." + k
  {
    assert '.' !in TopKeys[i] by {
      TopKeysUndotted();
    }
    SplitTwo(TopKeys[i], k);
    LookupTotal(top, side, TopKeys[i] + "." + k);
  }

  /** "welcomeBack.x" goes below the string "welcomeBack" and comes back unchanged in every language. */
  lemma TranslatePastLeafExample(lang: Language, key: string)
    requires key == "welcomeBack.x"
    ensures Translate(lang, key) == key
  {
    assert key == TopKeys[0] + "." + "x";
    LookupPastLeaf(TopTexts(lang), SidebarTexts(lang), 0, "x");
  }

  /** A key whose first segment names no entry of the catalog comes back unchanged. */
  lemma LookupUnknownNamespace(top: seq<string>, side: seq<string>, ns: string, k: string)
    requires |top| == |TopKeys| && |side| == |SidebarKeys|
    requires '.' !in ns && '.' !in k
    requires ns != SidebarNamespace && forall i :: 0 <= i < |TopKeys| ==> TopKeys[i] != ns
    ensures Lookup(CatalogOf(top, side), ns + "." + k) == ns + "." + k
  {
    SplitTwo(ns, k);
    LookupTotal(top, side, ns + "." + k);
  }

  /** A key whose first segment names no top-level entry comes back unchanged in every language. */
  lemma UnknownNamespaceFallsBack(lang: Language, ns: string, k: string)
    requires '.' !in ns && '.' !in k
    requires ns != SidebarNamespace && forall i :: 0 <= i < |TopKeys| ==> TopKeys[i] != ns
    ensures Translate(lang, ns + "." + k) == ns + "." + k
  {
    LookupUnknownNamespace(TopTexts(lang), SidebarTexts(lang), ns, k);
  }

  /** "nonexistent.key" is absent from every catalog and comes back unchanged. */
  lemma TranslateMissingExample(lang: Language)
    ensures Translate(lang, "nonexistent.key") == "nonexistent.key"
  {
    assert forall i :: 0 <= i < |TopKeys| ==> TopKeys[i] != "nonexistent";
    assert "nonexistent.key" == "nonexistent" + "." + "key";
    UnknownNamespaceFallsBack(lang, "nonexistent", "key");
  }

  /** The language context: the active language and the `t` it closes over. */
  class LanguageProvider {
    var language: Language

    /** A provider mounts with the default language. */
    constructor ()
      ensures language == DefaultLanguage
    {
      language := DefaultLanguage;
    }

    /** `setLanguage(lang)`: replaces the active language; setting the same language again changes nothing. */
    method SetLanguage(lang: Language)
      modifies this
      ensures language == lang
    {
      language := lang;
    }

    /** `t(key)`: walks the active catalog segment by segment, returning the key on the first miss. */
    method T(key: string) returns (r: string)
      ensures r == Translate(language, key)
    {
      var keys := Split(key, '.');
      var value := Catalog(language);
      for i := 0 to |keys|
        invariant Walk(Catalog(language), keys) == Walk(value, keys[i..])
      {
        if value.Namespace? && keys[i] in value.entries {
          value := value.entries[keys[i]];
        } else {
          return key;
        }
      }
      r := if value.Leaf? then value.text else key;
    }
  }

  /** Setting a language twice leaves the same `t` as setting it once. */
  method SetLanguageTwice(p: LanguageProvider, lang: Language, key: string) returns (once: string, twice: string)
    modifies p
    ensures once == twice == Translate(lang, key)
  {
    p.SetLanguage(lang);
    once := p.T(key);
    p.SetLanguage(lang);
    twice := p.T(key);
  }
}
