/** Resolving the active locale from the `lang` query parameter, its layer key,
    the ordered fallback chain of layer keys, and the text layer chosen by it. */
module Locale {
  import opened JsValue

  const DefaultLocale: string := "de-CH"
  const SupportedLocales: seq<string> := ["de-CH", "fr-CH", "it-CH", "en", "es", "pt"]
  const LocaleToLayerKey: map<string, string> :=
    map["de-CH" := "de", "fr-CH" := "fr", "it-CH" := "it", "en" := "en", "es" := "es", "pt" := "pt"]

  /** The active locale, from the value of the `lang` query parameter
      (`None` when the parameter is absent). */
  function LocaleFromQuery(lang: Option<string>): (locale: string)
    ensures locale in SupportedLocales
    ensures lang.Some? && lang.value in SupportedLocales ==> locale == lang.value
    ensures !(lang.Some? && lang.value in SupportedLocales) ==> locale == DefaultLocale
  {
    if lang.Some? && lang.value != "" && lang.value in SupportedLocales then lang.value else DefaultLocale
  }

  /** The two-letter key under which a locale's texts are stored. */
  function LayerKey(locale: string): (key: string)
    ensures locale in LocaleToLayerKey ==> key == LocaleToLayerKey[locale]
    ensures locale !in LocaleToLayerKey ==> key == "de"
    ensures locale in SupportedLocales ==> key == locale[..2]
    ensures key in LocaleToLayerKey.Values
  {
    if locale in LocaleToLayerKey && LocaleToLayerKey[locale] != "" then LocaleToLayerKey[locale]
    else assert LocaleToLayerKey["de-CH"] == "de"; "de"
  }

  /** The layer keys tried, in order, when looking up a text layer. */
  function FallbackChain(key: string): (chain: seq<string>)
    ensures 1 <= |chain| <= 3 && chain[0] == key
    ensures forall i, j :: 0 <= i < j < |chain| ==> chain[i] != chain[j]
    ensures "de" in chain
    ensures "en" in chain <==> key != "de"
  {
    if key == "de" then ["de"]
    else if key == "en" then ["en", "de"]
    else [key, "de", "en"]
  }

  /** Builds the fallback chain by appending `de` and `en` where missing. */
  method FallbackLayerKeys(locale: string) returns (keys: seq<string>)
    ensures keys == FallbackChain(LayerKey(locale))
  {
    var layerKey := LayerKey(locale);
    keys := [layerKey];
    if layerKey != "de" {
      keys := keys + ["de"];
    }
    if layerKey != "en" && layerKey != "de" {
      keys := keys + ["en"];
    }
  }

  /** The empty text layer `{}` that stands in when no layer matches. */
  const EmptyLayer: Value := Val(EmptyObject)

  /** The layer under the first key of `chain` whose entry is truthy, else `{}`. */
  function SelectLayer(layers: Value, chain: seq<string>): (layer: Value)
    ensures Truthy(layer)
    ensures layer == EmptyLayer || exists i :: 0 <= i < |chain| && layer == Field(layers, chain[i])
  {
    if chain == [] then EmptyLayer
    else if Truthy(Field(layers, chain[0])) then Field(layers, chain[0])
    else
      var rest := SelectLayer(layers, chain[1..]);
      assert rest == EmptyLayer || exists i :: 1 <= i < |chain| && rest == Field(layers, chain[i]) by {
        if rest != EmptyLayer {
          var i :| 0 <= i < |chain[1..]| && rest == Field(layers, chain[1..][i]);
          assert chain[1..][i] == chain[i + 1];
        }
      }
      rest
  }

  lemma {:induction false} SelectLayerFirstMatch(layers: Value, chain: seq<string>, i: nat)
    requires i < |chain|
    ensures Truthy(Field(layers, chain[i])) && (forall j :: 0 <= j < i ==> !Truthy(Field(layers, chain[j]))) ==>
              SelectLayer(layers, chain) == Field(layers, chain[i])
  {
    if i > 0 && Truthy(Field(layers, chain[i])) && (forall j :: 0 <= j < i ==> !Truthy(Field(layers, chain[j]))) {
      assert chain[1..][i - 1] == chain[i];
      assert forall j :: 0 <= j < i - 1 ==> chain[1..][j] == chain[j + 1];
      SelectLayerFirstMatch(layers, chain[1..], i - 1);
    }
  }

  lemma {:induction false} SelectLayerNoMatch(layers: Value, chain: seq<string>)
    requires forall j :: 0 <= j < |chain| ==> !Truthy(Field(layers, chain[j]))
    ensures SelectLayer(layers, chain) == EmptyLayer
  {
    if chain != [] {
      SelectLayerNoMatch(layers, chain[1..]);
    }
  }

  /** The text layer of a document for a locale: always an object-like truthy
      value, `{}` without `text_layers`, otherwise `{}` or the layer under one
      of the fallback keys. */
  function TextLayerOf(doc: Json, locale: string): (layer: Value)
    ensures Truthy(layer)
    ensures !Truthy(Field(Val(doc), "text_layers")) ==> layer == EmptyLayer
    ensures layer == EmptyLayer ||
            exists k :: k in FallbackChain(LayerKey(locale)) && layer == Field(Field(Val(doc), "text_layers"), k)
  {
    var layers := Field(Val(doc), "text_layers");
    if !Truthy(layers) then EmptyLayer else SelectLayer(layers, FallbackChain(LayerKey(locale)))
  }

  /** The text layer is the entry of the first chain key that is truthy, and
      `{}` when there is no `text_layers` or no key matches: it is never absent. */
  lemma TextLayerIsFirstAvailable(doc: Json, locale: string, i: nat)
    requires var chain := FallbackChain(LayerKey(locale));
      && i < |chain|
      && Truthy(Field(Field(Val(doc), "text_layers"), chain[i]))
      && forall j :: 0 <= j < i ==> !Truthy(Field(Field(Val(doc), "text_layers"), chain[j]))
    ensures TextLayerOf(doc, locale) == Field(Field(Val(doc), "text_layers"), FallbackChain(LayerKey(locale))[i])
  {
    SelectLayerFirstMatch(Field(Val(doc), "text_layers"), FallbackChain(LayerKey(locale)), i);
  }

  lemma TextLayerDefaultsToEmpty(doc: Json, locale: string)
    requires forall k :: k in FallbackChain(LayerKey(locale)) ==> !Truthy(Field(Field(Val(doc), "text_layers"), k))
    ensures TextLayerOf(doc, locale) == EmptyLayer
  {
    var chain := FallbackChain(LayerKey(locale));
    assert forall j :: 0 <= j < |chain| ==> chain[j] in chain;
    SelectLayerNoMatch(Field(Val(doc), "text_layers"), chain);
  }

  /** Scans the fallback chain and returns the first truthy layer. */
  method TextLayer(doc: Json, locale: string) returns (layer: Value)
    ensures layer == TextLayerOf(doc, locale)
  {
    var layers := Field(Val(doc), "text_layers");
    if !Truthy(layers) {
      return EmptyLayer;
    }
    var keys := FallbackLayerKeys(locale);
    var i := 0;
    while i < |keys|
      invariant 0 <= i <= |keys|
      invariant SelectLayer(layers, keys[i..]) == SelectLayer(layers, keys)
    {
      var candidate := Field(layers, keys[i]);
      if Truthy(candidate) {
        return candidate;
      }
      assert keys[i..][1..] == keys[i + 1..];
      i := i + 1;
    }
    return EmptyLayer;
  }
}
