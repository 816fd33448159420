/** The listing page: the output slots of the static template and the six
    renderers that fill them from one listing document. */
module PageModel {
  import opened JsValue
  import opened Locale
  import opened Format
  import opened Listing
  import opened Media
  import opened Facts
  import opened Extensions
  import opened JsonLd

  /** A section of the page that is hidden until something is rendered into it. */
  datatype Section<T> = Section(content: T, visible: bool)

  /** The address line of the key facts: the present fields pushed in order,
      joined with ", ", or "-" when none is present. */
  method AddressLine(address: Value) returns (text: string)
    ensures text == AddressText(address)
  {
    var parts: seq<string> := [];
    if Truthy(Field(address, "street")) {
      parts := parts + [ToStr(Field(address, "street"))];
    }
    assert parts == Part(address, "street");
    if Truthy(Field(address, "postal_code")) {
      parts := parts + [ToStr(Field(address, "postal_code"))];
    }
    assert parts == Part(address, "street") + Part(address, "postal_code");
    if Truthy(Field(address, "locality")) {
      parts := parts + [ToStr(Field(address, "locality"))];
    }
    assert parts == Part(address, "street") + Part(address, "postal_code") + Part(address, "locality");
    if Truthy(Field(address, "region")) {
      parts := parts + [ToStr(Field(address, "region"))];
    }
    assert parts == Part(address, "street") + Part(address, "postal_code") + Part(address, "locality") + Part(address, "region");
    if Truthy(Field(address, "country")) {
      parts := parts + [ToStr(Field(address, "country"))];
    }
    assert parts == Part(address, "street") + Part(address, "postal_code") + Part(address, "locality") + Part(address, "region") + Part(address, "country");
    AddressPartsInOrder(address);
    assert parts == PresentParts(address, AddressFields);
    text := if |parts| > 0 then Join(parts, ", ") else Missing;
  }

  /** The room breakdown list, one line per room in order. */
  method RoomLines(rooms: seq<Json>) returns (lines: seq<string>)
    ensures lines == BreakdownLines(rooms)
  {
    lines := [];
    var i := 0;
    while i < |rooms|
      invariant 0 <= i <= |rooms|
      invariant lines == BreakdownLines(rooms[..i])
    {
      lines := lines + [BreakdownLine(rooms[i])];
      i := i + 1;
    }
    assert rooms[..i] == rooms;
  }

  /** The categories appended to the features container, in order. */
  method FeatureContent(f: Value) returns (content: seq<FeatureCategory>)
    ensures content == FeatureCategories(f)
  {
    content := [];
    var amenities := AsList(Field(f, "amenities"));
    if |amenities| > 0 {
      var items: seq<string> := [];
      var j := 0;
      while j < |amenities|
        invariant 0 <= j <= |amenities|
        invariant items == AmenityTexts(amenities[..j])
      {
        items := items + [TextContent(Val(amenities[j]))];
        j := j + 1;
      }
      assert amenities[..j] == amenities;
      content := [FeatureList("Amenities", items)];
    }
    assert content == AmenityItems(f);
    if Truthy(Field(f, "parking")) {
      content := content + [FeatureText("Parkplatz", ToStr(Field(f, "parking")))];
    }
    assert content == AmenityItems(f) + TextCategory(f, "parking", "Parkplatz");
    if Truthy(Field(f, "outdoor")) {
      content := content + [FeatureText("Aussenbereich", ToStr(Field(f, "outdoor")))];
    }
    assert content == AmenityItems(f) + TextCategory(f, "parking", "Parkplatz") + TextCategory(f, "outdoor", "Aussenbereich");
    if Truthy(Field(f, "storage")) {
      content := content + [FeatureText("Lager", ToStr(Field(f, "storage")))];
    }
  }

  /** Appends one link per item, each to the item's URI. */
  method AppendLinks(links: seq<Link>, items: seq<Json>, text: string) returns (appended: seq<Link>)
    ensures appended == links + LinksTo(items, text)
  {
    appended := links;
    var i := 0;
    while i < |items|
      invariant 0 <= i <= |items| && |appended| == |links| + i
      invariant forall k :: 0 <= k < |links| ==> appended[k] == links[k]
      invariant forall k :: 0 <= k < i ==> appended[|links| + k] == LinkTo(items[k], text)
    {
      appended := appended + [LinkTo(items[i], text)];
      i := i + 1;
    }
  }

  /** The links container: a link per floor plan, then a link per document. */
  method LinksOf(media: seq<Json>) returns (links: seq<Link>)
    ensures links == MediaLinks(media)
  {
    links := AppendLinks([], ByRole(media, "floorplan"), FloorplanLinkText);
    assert links == LinksTo(ByRole(media, "floorplan"), FloorplanLinkText);
    links := AppendLinks(links, ByRole(media, "document"), DocumentLinkText);
  }

  class Page {
    var facts: KeyFacts
    var roomBreakdown: Section<seq<string>>
    var features: Section<seq<FeatureCategory>>
    var featuresGrid: bool                   // the grid layout class of the features content
    var mediaContent: MediaArea
    var provenance: Section<seq<Term>>
    var extensions: Section<seq<Entry>>
    // The document head; a meta tag or script is `None` when the template has none.
    var lang: string
    var documentTitle: string
    var metaDescription: Option<string>
    var ogTitle: Option<string>
    var ogDescription: Option<string>
    var ogImages: seq<string>                // the og:image tags, in document order
    var jsonLd: Option<string>

    /** The features grid is switched on together with its section, and the
        room breakdown is never shown empty. */
    ghost predicate Valid()
      reads this
    {
      && featuresGrid == features.visible
      && (roomBreakdown.visible ==> roomBreakdown.content != [])
    }

    /** The template before any rendering: every optional section hidden, the
        head holding the given tags. */
    constructor (metaDescription: Option<string>, ogTitle: Option<string>, ogDescription: Option<string>,
                 ogImages: seq<string>, jsonLd: Option<string>)
      ensures Valid()
      ensures !roomBreakdown.visible && !features.visible && !provenance.visible && !extensions.visible
      ensures mediaContent == Template
      ensures this.metaDescription == metaDescription && this.ogTitle == ogTitle && this.ogDescription == ogDescription
      ensures this.ogImages == ogImages && this.jsonLd == jsonLd
    {
      facts := KeyFacts("", "", "", "", "", "", "", "");
      roomBreakdown := Section([], false);
      features := Section([], false);
      featuresGrid := false;
      mediaContent := Template;
      provenance := Section([], false);
      extensions := Section([], false);
      lang := "";
      documentTitle := "";
      this.metaDescription := metaDescription;
      this.ogTitle := ogTitle;
      this.ogDescription := ogDescription;
      this.ogImages := ogImages;
      this.jsonLd := jsonLd;
    }

    /** `renderKeyFacts`: the eight fact slots, the room breakdown (only when the
        list is non-empty) and the features section (only when `features` is
        present; shown only when a category was appended). */
    method RenderKeyFacts(doc: Json, host: Host)
      requires Valid()
      modifies this`facts, this`roomBreakdown, this`features, this`featuresGrid
      ensures Valid()
      ensures var locale := LocaleFromQuery(host.lang);
        facts == KeyFactsOf(doc, TextLayerOf(doc, locale), locale, host)
      ensures var rooms := AsList(Field(Attributes(doc), "room_breakdown"));
        roomBreakdown == if |rooms| > 0 then Section(BreakdownLines(rooms), true) else old(roomBreakdown)
      ensures var f := Field(Attributes(doc), "features");
        features == if Truthy(f) then Section(FeatureCategories(f), old(features.visible) || FeatureCategories(f) != [])
                    else old(features)
    {
      var locale := LocaleFromQuery(host.lang);
      var layer := TextLayer(doc, locale);
      var usage, pricing, attrs, address := Usage(doc), Pricing(doc), Attributes(doc), Address(doc);
      var addressLine := AddressLine(address);

      facts := KeyFacts(
        TitleText(layer),
        DescriptionText(layer),
        TransactionText(usage),
        FormatPrice(Field(pricing, "price"), Field(pricing, "currency"), locale, host),
        RoomCountText(attrs),
        LivingAreaText(attrs),
        YearText(attrs),
        addressLine);
      assert facts == KeyFactsOf(doc, layer, locale, host);
      ShowRoomBreakdown(AsList(Field(attrs, "room_breakdown")));
      ShowFeatures(Field(attrs, "features"));
    }

    /** Fills and shows the room breakdown list when there are rooms. */
    method ShowRoomBreakdown(rooms: seq<Json>)
      modifies this`roomBreakdown
      ensures roomBreakdown == if |rooms| > 0 then Section(BreakdownLines(rooms), true) else old(roomBreakdown)
    {
      if |rooms| > 0 {
        var lines := RoomLines(rooms);
        roomBreakdown := Section(lines, true);
      }
    }

    /** Refills the features container when `features` is present, and shows
        it with the grid layout once it holds a category. */
    method ShowFeatures(f: Value)
      requires featuresGrid == features.visible
      modifies this`features, this`featuresGrid
      ensures featuresGrid == features.visible
      ensures features == if Truthy(f) then Section(FeatureCategories(f), old(features.visible) || FeatureCategories(f) != [])
                          else old(features)
    {
      if Truthy(f) {
        var content := FeatureContent(f);
        features := features.(content := content);
        if |content| > 0 {
          featuresGrid := true;
          features := features.(visible := true);
        }
      }
    }

    /** `renderMedia`: the no-media notice, or the hero image and the links
        container, the latter only when it holds a link. */
    method RenderMedia(doc: Json)
      modifies this`mediaContent
      ensures mediaContent == MediaAreaOf(MediaList(doc))
    {
      var media := MediaList(doc);
      if |media| == 0 {
        mediaContent := Notice(NoMediaNotice);
        return;
      }
      var hero := HeroImage(media);
      var figure: Option<Figure> := None;
      if HeroShown(hero) {
        figure := Some(HeroFigure(hero.value));
      }
      var links := LinksOf(media);
      mediaContent := Grid(figure, if |links| > 0 then Some(links) else None);
    }

    /** `renderProvenance`: up to two term/description pairs; the section is
        shown when at least one was rendered. */
    method RenderProvenance(doc: Json, host: Host)
      modifies this`provenance
      ensures provenance.content == ProvenanceTerms(Provenance(doc), LocaleFromQuery(host.lang), host)
      ensures provenance.visible == (old(provenance.visible) || provenance.content != [])
    {
      var locale := LocaleFromQuery(host.lang);
      var source := Provenance(doc);
      var list: seq<Term> := [];
      var updated := Field(source, "updated_at");
      if Truthy(updated) {
        list := list + [Term("Aktualisiert", FormatDate(updated, locale, host))];
      }
      var confidence := Field(source, "data_confidence");
      if Truthy(confidence) {
        list := list + [Term("Datenqualität", ConfidenceLabel(confidence))];
      }
      provenance := provenance.(content := list);
      if |list| > 0 {
        provenance := provenance.(visible := true);
      }
    }

    /** `renderExtensions`: nothing when `extensions` has no keys; otherwise the
        rendered tree, and the section is shown even if every value was null. */
    method RenderExtensions(doc: Json, host: Host)
      modifies this`extensions
      ensures var members := Entries(Listing.Extensions(doc));
        extensions == if members == [] then old(extensions) else Section(Rendered(members, 0, host.stringify), true)
    {
      var members := Entries(Listing.Extensions(doc));
      if |members| == 0 {
        return;
      }
      var content := RenderObject(members, 0, host.stringify);
      extensions := Section(content, true);
    }

    /** `updateMetaTags`: the language, title and description tags from the
        same text layer as the facts, and og:image from the hero, created
        only when the head has none. */
    method UpdateMetaTags(doc: Json, host: Host)
      modifies this`lang, this`documentTitle, this`metaDescription, this`ogTitle, this`ogDescription, this`ogImages
      ensures var locale := LocaleFromQuery(host.lang);
        var layer := TextLayerOf(doc, locale);
        && lang == locale
        && documentTitle == TitleText(layer)
        && metaDescription == (if old(metaDescription).Some? then Some(DescriptionText(layer)) else None)
        && ogTitle == (if old(ogTitle).Some? then Some(TitleText(layer)) else None)
        && ogDescription == (if old(ogDescription).Some? then Some(DescriptionText(layer)) else None)
      ensures var hero := HeroImage(MediaList(doc));
        if HeroShown(hero) then
          var uri := ToStr(Field(Val(hero.value), "uri"));
          ogImages == if old(ogImages) == [] then [uri] else old(ogImages)[0 := uri]
        else ogImages == old(ogImages)
    {
      var locale := LocaleFromQuery(host.lang);
      var layer := TextLayer(doc, locale);
      var hero := HeroImage(MediaList(doc));
      lang := locale;
      documentTitle := TitleText(layer);
      if metaDescription.Some? {
        metaDescription := Some(DescriptionText(layer));
      }
      if ogTitle.Some? {
        ogTitle := Some(TitleText(layer));
      }
      if ogDescription.Some? {
        ogDescription := Some(DescriptionText(layer));
      }
      if HeroShown(hero) {
        var uri := ToStr(Field(Val(hero.value), "uri"));
        if ogImages == [] {
          ogImages := [uri];
        } else {
          ogImages := ogImages[0 := uri];
        }
      }
    }

    /** `updateJSONLD`: overwrites the JSON-LD script when the head has one. */
    method UpdateJsonLd(doc: Json, host: Host)
      modifies this`jsonLd
      ensures var locale := LocaleFromQuery(host.lang);
        var data := StructuredDataOf(doc, TextLayerOf(doc, locale), locale, host.basePath);
        jsonLd == if old(jsonLd).Some? then Some(host.stringify(ToJson(data))) else None
    {
      var locale := LocaleFromQuery(host.lang);
      var layer := TextLayer(doc, locale);
      var data := StructuredDataOf(doc, layer, locale, host.basePath);
      if jsonLd.Some? {
        jsonLd := Some(host.stringify(ToJson(data)));
      }
    }
  }
}
