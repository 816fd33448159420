/** Media items classified by role, the hero image, and what the media area
    shows: a notice for no media, otherwise the hero and the links to floor
    plans and documents. */
module Media {
  import opened JsValue

  /** `m.role === role`: exact, case-sensitive string equality. */
  predicate HasRole(item: Json, role: string) {
    IsString(Field(Val(item), "role"), role)
  }

  /** The items with the given role, in their original order. */
  function ByRole(media: seq<Json>, role: string): (items: seq<Json>)
    ensures |items| <= |media|
    ensures forall m :: m in items <==> m in media && HasRole(m, role)
  {
    if media == [] then []
    else (if HasRole(media[0], role) then [media[0]] else []) + ByRole(media[1..], role)
  }

  /** Selection by role distributes over concatenation, so it keeps the
      relative order of the items. */
  lemma {:induction false} ByRoleAppend(a: seq<Json>, b: seq<Json>, role: string)
    ensures ByRole(a + b, role) == ByRole(a, role) + ByRole(b, role)
  {
    if a == [] {
      assert a + b == b;
    } else {
      assert (a + b)[0] == a[0];
      assert (a + b)[1..] == a[1..] + b;
      ByRoleAppend(a[1..], b, role);
    }
  }

  /** The first item selected is the first item in the list with that role. */
  lemma {:induction false} ByRoleFirst(media: seq<Json>, role: string, i: nat)
    requires i < |media| && HasRole(media[i], role)
    requires forall j :: 0 <= j < i ==> !HasRole(media[j], role)
    ensures |ByRole(media, role)| > 0 && ByRole(media, role)[0] == media[i]
  {
    if i > 0 {
      assert media[1..][i - 1] == media[i];
      ByRoleFirst(media[1..], role, i - 1);
    }
  }

  /** `getHeroImage`: the first `hero` item, else the first item, else nothing. */
  function HeroImage(media: seq<Json>): (hero: Option<Json>)
    ensures hero.None? <==> media == []
    ensures hero.Some? ==> hero.value in media
    ensures (forall m :: m in media ==> !HasRole(m, "hero")) && media != [] ==> hero == Some(media[0])
  {
    var heroes := ByRole(media, "hero");
    if |heroes| > 0 then
      assert heroes[0] in heroes;
      Some(heroes[0])
    else if |media| > 0 then Some(media[0])
    else None
  }

  lemma HeroIsFirstHero(media: seq<Json>, i: nat)
    requires i < |media| && HasRole(media[i], "hero")
    requires forall j :: 0 <= j < i ==> !HasRole(media[j], "hero")
    ensures HeroImage(media) == Some(media[i])
  {
    ByRoleFirst(media, "hero", i);
  }

  /** `if (hero)`: a hero item was found and is truthy. */
  predicate HeroShown(hero: Option<Json>) {
    hero.Some? && Truthy(Val(hero.value))
  }

  datatype Figure = Figure(src: string, alt: string)
  datatype Link = Link(href: string, text: string)  // opened in a new window

  /** The content of the media area: the template's own content before any
      rendering, the notice for no media, or a grid of the hero image and the
      links container (absent when it would be empty). */
  datatype MediaArea = Template | Notice(text: string) | Grid(hero: Option<Figure>, links: Option<seq<Link>>)

  const NoMediaNotice: string := "Keine Medien verfügbar."
  const DefaultAlt: string := "Hauptbild"
  const FloorplanLinkText: string := "Grundriss anzeigen"
  const DocumentLinkText: string := "Dokument öffnen"

  /** `hero.text_refs && hero.text_refs[0] || 'Hauptbild'`. */
  function AltText(hero: Json): (alt: string)
    ensures var refs := Field(Val(hero), "text_refs");
      if Truthy(refs) && Truthy(Index0(refs)) then alt == ToStr(Index0(refs)) else alt == DefaultAlt
  {
    var refs := Field(Val(hero), "text_refs");
    TextOr(if Truthy(refs) then Index0(refs) else refs, DefaultAlt)
  }

  /** The hero image: its source is the hero's URI, its alt text `AltText`. */
  function HeroFigure(hero: Json): (figure: Figure)
    ensures figure.src == ToStr(Field(Val(hero), "uri")) && figure.alt == AltText(hero)
  {
    Figure(ToStr(Field(Val(hero), "uri")), AltText(hero))
  }

  /** A link to an item's URI. */
  function LinkTo(item: Json, text: string): Link {
    Link(ToStr(Field(Val(item), "uri")), text)
  }

  function LinksTo(items: seq<Json>, text: string): (links: seq<Link>)
    ensures |links| == |items|
    ensures forall i :: 0 <= i < |items| ==> links[i].href == ToStr(Field(Val(items[i]), "uri")) && links[i].text == text
  {
    seq(|items|, i requires 0 <= i < |items| => LinkTo(items[i], text))
  }

  /** The floor plan links followed by the document links. */
  function MediaLinks(media: seq<Json>): (links: seq<Link>)
    ensures var n := |ByRole(media, "floorplan")|;
      && n <= |links|
      && links[..n] == LinksTo(ByRole(media, "floorplan"), FloorplanLinkText)
      && links[n..] == LinksTo(ByRole(media, "document"), DocumentLinkText)
  {
    var fpLinks := LinksTo(ByRole(media, "floorplan"), FloorplanLinkText);
    var docLinks := LinksTo(ByRole(media, "document"), DocumentLinkText);
    assert (fpLinks + docLinks)[..|fpLinks|] == fpLinks;
    assert (fpLinks + docLinks)[|fpLinks|..] == docLinks;
    fpLinks + docLinks
  }

  predicate Linkable(m: Json) {
    HasRole(m, "floorplan") || HasRole(m, "document")
  }

  lemma LinksIffLinkable(media: seq<Json>)
    ensures |MediaLinks(media)| > 0 <==> exists m :: m in media && Linkable(m)
  {
    var fp, docs := ByRole(media, "floorplan"), ByRole(media, "document");
    if |MediaLinks(media)| > 0 {
      if |fp| > 0 { assert fp[0] in fp; } else { assert docs[0] in docs; }
    }
  }

  /** What `renderMedia` shows for a media list. */
  function MediaAreaOf(media: seq<Json>): (area: MediaArea)
    ensures media == [] <==> area == Notice(NoMediaNotice)
    ensures media != [] ==> area.Grid?
    ensures area.Grid? ==> (area.hero.Some? <==> HeroShown(HeroImage(media)))
    ensures area.Grid? && area.hero.Some? ==> area.hero.value.src == ToStr(Field(Val(HeroImage(media).value), "uri"))
    ensures area.Grid? ==> (area.links.Some? <==> exists m :: m in media && Linkable(m))
    ensures area.Grid? && area.links.Some? ==>
              |area.links.value| == |ByRole(media, "floorplan")| + |ByRole(media, "document")|
  {
    if media == [] then Notice(NoMediaNotice)
    else
      var hero := HeroImage(media);
      var links := MediaLinks(media);
      LinksIffLinkable(media);
      Grid(if HeroShown(hero) then Some(HeroFigure(hero.value)) else None,
           if |links| > 0 then Some(links) else None)
  }
}
