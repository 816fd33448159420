/** The display texts of the key facts, the room breakdown, the feature
    categories and the provenance entries, each with its fallback for missing
    data. */
module Facts {
  import opened JsValue
  import opened Format
  import opened Listing

  const DefaultTitle: string := "Objekt"
  const DefaultDescription: string := "Immobilienobjekt"

  function TitleText(layer: Value): string { TextOr(Field(layer, "title"), DefaultTitle) }
  function DescriptionText(layer: Value): string { TextOr(Field(layer, "short_description"), DefaultDescription) }

  /** The transaction type label: `sale` and `rent` are translated, a missing
      type shows "-", any other value is shown as it is. */
  function TransactionText(usage: Value): (text: string)
    ensures var t := Field(usage, "transaction_type");
      && (IsString(t, "sale") ==> text == "Kauf")
      && (IsString(t, "rent") ==> text == "Miete")
      && (!Truthy(t) ==> text == Missing)
      && (Truthy(t) && !IsString(t, "sale") && !IsString(t, "rent") ==> text == ToStr(t))
  {
    var t := Or(Field(usage, "transaction_type"), JString(Missing));
    if IsString(t, "sale") then "Kauf" else if IsString(t, "rent") then "Miete" else ToStr(t)
  }

  /** A fact shown with a unit suffix when it is present, "-" otherwise. */
  function WithUnit(v: Value, suffix: string): (text: string)
    ensures Truthy(v) ==> text == ToStr(v) + suffix
    ensures !Truthy(v) ==> text == Missing
  {
    if Truthy(v) then ToStr(v) + suffix else Missing
  }

  function RoomCountText(attrs: Value): string { WithUnit(Field(attrs, "room_count"), " Zimmer") }
  function LivingAreaText(attrs: Value): string { WithUnit(Field(attrs, "living_area_sqm"), " m²") }

  /** Year built, with the renovation year in parentheses when both are present. */
  function YearText(attrs: Value): (text: string)
    ensures var built, renovated := Field(attrs, "year_built"), Field(attrs, "year_renovated");
      && (Truthy(built) && Truthy(renovated) ==> text == ToStr(built) + " (renoviert " + ToStr(renovated) + ")")
      && (Truthy(built) && !Truthy(renovated) ==> text == ToStr(built))
      && (!Truthy(built) ==> text == Missing)
  {
    var built, renovated := Field(attrs, "year_built"), Field(attrs, "year_renovated");
    if Truthy(built) && Truthy(renovated) then ToStr(built) + " (renoviert " + ToStr(renovated) + ")"
    else if Truthy(built) then ToStr(built)
    else Missing
  }

  const AddressFields: seq<string> := ["street", "postal_code", "locality", "region", "country"]

  /** The text a field contributes to the address: its value when truthy. */
  function Part(address: Value, f: string): (part: seq<string>)
    ensures Truthy(Field(address, f)) ==> part == [ToStr(Field(address, f))]
    ensures !Truthy(Field(address, f)) ==> part == []
  {
    if Truthy(Field(address, f)) then [ToStr(Field(address, f))] else []
  }

  /** The texts of the truthy fields among `fields`, in the order of `fields`. */
  function PresentParts(address: Value, fields: seq<string>): (parts: seq<string>)
    ensures |parts| <= |fields|
  {
    if fields == [] then []
    else PresentParts(address, fields[..|fields| - 1]) + Part(address, fields[|fields| - 1])
  }

  lemma PresentPartsPrefix(address: Value, fields: seq<string>, k: nat)
    requires k < |fields|
    ensures PresentParts(address, fields[..k + 1]) == PresentParts(address, fields[..k]) + Part(address, fields[k])
  {
    assert fields[..k + 1][..k] == fields[..k];
  }

  /** Five fields contribute their parts in their order. */
  lemma {:induction false} PresentPartsOfFive(address: Value, f: seq<string>)
    requires |f| == 5
    ensures PresentParts(address, f) ==
            Part(address, f[0]) + Part(address, f[1]) + Part(address, f[2]) + Part(address, f[3]) + Part(address, f[4])
  {
    var p0, p1, p2, p3, p4 := Part(address, f[0]), Part(address, f[1]), Part(address, f[2]), Part(address, f[3]), Part(address, f[4]);
    assert f[..0] == [];
    PresentPartsPrefix(address, f, 0);
    assert PresentParts(address, f[..1]) == p0;
    PresentPartsPrefix(address, f, 1);
    assert PresentParts(address, f[..2]) == p0 + p1;
    PresentPartsPrefix(address, f, 2);
    assert PresentParts(address, f[..3]) == p0 + p1 + p2;
    PresentPartsPrefix(address, f, 3);
    assert PresentParts(address, f[..4]) == p0 + p1 + p2 + p3;
    PresentPartsPrefix(address, f, 4);
    assert f[..5] == f;
  }

  /** The address parts: street, postal code, locality, region, country. */
  lemma AddressPartsInOrder(address: Value)
    ensures PresentParts(address, AddressFields) ==
            Part(address, "street") + Part(address, "postal_code") + Part(address, "locality") +
            Part(address, "region") + Part(address, "country")
  {
    PresentPartsOfFive(address, AddressFields);
  }

  /** No part is present exactly when no field is truthy. */
  lemma {:induction false} PresentPartsEmpty(address: Value, fields: seq<string>)
    ensures PresentParts(address, fields) == [] <==> forall f :: f in fields ==> !Truthy(Field(address, f))
  {
    if fields != [] {
      var n := |fields| - 1;
      assert forall g :: g in fields <==> g in fields[..n] || g == fields[n];
      PresentPartsEmpty(address, fields[..n]);
    }
  }

  /** The parts of two field lists one after the other are the parts of the
      first list followed by those of the second. */
  lemma {:induction false} PresentPartsAppend(address: Value, a: seq<string>, b: seq<string>)
    ensures PresentParts(address, a + b) == PresentParts(address, a) + PresentParts(address, b)
    decreases |b|
  {
    if b == [] {
      assert a + b == a;
    } else {
      var n := |b| - 1;
      assert (a + b)[..|a + b| - 1] == a + b[..n];
      assert (a + b)[|a + b| - 1] == b[n];
      PresentPartsAppend(address, a, b[..n]);
    }
  }

  /** Every truthy field contributes its text. */
  lemma PresentPartsText(address: Value, fields: seq<string>, i: nat)
    requires i < |fields|
    ensures Truthy(Field(address, fields[i])) ==> ToStr(Field(address, fields[i])) in PresentParts(address, fields)
  {
    var pre, f, post := fields[..i], fields[i], fields[i + 1..];
    assert fields[..i + 1] == pre + [f];
    assert fields == fields[..i + 1] + post;
    PresentPartsAppend(address, pre + [f], post);
    PresentPartsAppend(address, pre, [f]);
    assert [f][..0] == [];
    assert PresentParts(address, [f]) == Part(address, f);
  }

  /** The address line: the present parts joined with ", ", or "-". */
  function AddressText(address: Value): (text: string)
    ensures (forall f :: f in AddressFields ==> !Truthy(Field(address, f))) ==> text == Missing
    ensures (exists f :: f in AddressFields && Truthy(Field(address, f))) ==>
              text == Join(PresentParts(address, AddressFields), ", ")
  {
    var parts := PresentParts(address, AddressFields);
    PresentPartsEmpty(address, AddressFields);
    if |parts| > 0 then Join(parts, ", ") else Missing
  }

  /** The room type label: three known types are translated, any other value
      is shown as it is. */
  function RoomLabel(roomType: Value): (shown: string)
    ensures IsString(roomType, "living_room") ==> shown == "Wohnzimmer"
    ensures IsString(roomType, "bedroom") ==> shown == "Schlafzimmer"
    ensures IsString(roomType, "kitchen") ==> shown == "Küche"
    ensures !IsString(roomType, "living_room") && !IsString(roomType, "bedroom") && !IsString(roomType, "kitchen") ==>
              shown == ToStr(roomType)
  {
    if IsString(roomType, "living_room") then "Wohnzimmer"
    else if IsString(roomType, "bedroom") then "Schlafzimmer"
    else if IsString(roomType, "kitchen") then "Küche"
    else ToStr(roomType)
  }

  /** One room of the breakdown: the room type label and count, then the
      area when the room has one. */
  function BreakdownLine(room: Json): string {
    var text := RoomLabel(Field(Val(room), "type")) + " (" + ToStr(Field(Val(room), "count")) + ")";
    var area := Field(Val(room), "area_sqm");
    if Truthy(area) then text + (" - " + ToStr(area) + " m²") else text
  }

  lemma SplitConcat(a: string, b: string)
    ensures |a + b| >= |a| && (a + b)[..|a|] == a && (a + b)[|a|..] == b
    ensures b == "" ==> a + b == a
  {
  }

  /** A breakdown line starts with "{label} ({count})" and goes on with
      " - {area} m²" exactly when the room has an area. */
  lemma BreakdownLineShape(room: Json)
    ensures var head := RoomLabel(Field(Val(room), "type")) + " (" + ToStr(Field(Val(room), "count")) + ")";
      var area := Field(Val(room), "area_sqm");
      var line := BreakdownLine(room);
      && |line| >= |head| && line[..|head|] == head
      && (Truthy(area) ==> line[|head|..] == " - " + ToStr(area) + " m²")
      && (!Truthy(area) ==> line == head)
  {
    var head := RoomLabel(Field(Val(room), "type")) + " (" + ToStr(Field(Val(room), "count")) + ")";
    var area := Field(Val(room), "area_sqm");
    var suffix := if Truthy(area) then " - " + ToStr(area) + " m²" else "";
    assert BreakdownLine(room) == head + suffix;
    SplitConcat(head, suffix);
  }

  function BreakdownLines(rooms: seq<Json>): (lines: seq<string>)
    ensures |lines| == |rooms|
    ensures forall i :: 0 <= i < |rooms| ==> lines[i] == BreakdownLine(rooms[i])
  {
    seq(|rooms|, i requires 0 <= i < |rooms| => BreakdownLine(rooms[i]))
  }

  /** The eight key-fact slots. */
  datatype KeyFacts = KeyFacts(
    title: string,
    shortDescription: string,
    transactionType: string,
    price: string,
    roomCount: string,
    livingArea: string,
    yearBuilt: string,
    address: string)

  /** The key facts of a document, given the text layer and the locale. */
  function KeyFactsOf(doc: Json, layer: Value, locale: string, host: Host): (facts: KeyFacts)
    ensures Truthy(Field(layer, "title")) ==> facts.title == ToStr(Field(layer, "title"))
    ensures !Truthy(Field(layer, "title")) ==> facts.title == DefaultTitle
    ensures Truthy(Field(layer, "short_description")) ==> facts.shortDescription == ToStr(Field(layer, "short_description"))
    ensures !Truthy(Field(layer, "short_description")) ==> facts.shortDescription == DefaultDescription
    ensures facts.transactionType == TransactionText(Usage(doc))
    ensures facts.price == FormatPrice(Field(Pricing(doc), "price"), Field(Pricing(doc), "currency"), locale, host)
    ensures facts.roomCount == WithUnit(Field(Attributes(doc), "room_count"), " Zimmer")
    ensures facts.livingArea == WithUnit(Field(Attributes(doc), "living_area_sqm"), " m²")
    ensures facts.yearBuilt == YearText(Attributes(doc)) && facts.address == AddressText(Address(doc))
  {
    var pricing, attrs := Pricing(doc), Attributes(doc);
    KeyFacts(
      TitleText(layer),
      DescriptionText(layer),
      TransactionText(Usage(doc)),
      FormatPrice(Field(pricing, "price"), Field(pricing, "currency"), locale, host),
      RoomCountText(attrs),
      LivingAreaText(attrs),
      YearText(attrs),
      AddressText(Address(doc)))
  }

  /** A category of the features section. */
  datatype FeatureCategory =
    | FeatureList(heading: string, items: seq<string>)
    | FeatureText(heading: string, text: string)

  /** The amenity list items, one per element, as `textContent` shows them. */
  function AmenityTexts(amenities: seq<Json>): (items: seq<string>)
    ensures |items| == |amenities|
    ensures forall i :: 0 <= i < |amenities| ==> items[i] == (if amenities[i].JNull? then "" else JsonText(amenities[i]))
  {
    seq(|amenities|, i requires 0 <= i < |amenities| => TextContent(Val(amenities[i])))
  }

  function AmenityItems(features: Value): seq<FeatureCategory> {
    var amenities := AsList(Field(features, "amenities"));
    if |amenities| > 0 then [FeatureList("Amenities", AmenityTexts(amenities))] else []
  }

  function TextCategory(features: Value, key: string, heading: string): seq<FeatureCategory> {
    if Truthy(Field(features, key)) then [FeatureText(heading, ToStr(Field(features, key)))] else []
  }

  /** The order of the categories in the features section. */
  function HeadingRank(heading: string): nat {
    if heading == "Amenities" then 0
    else if heading == "Parkplatz" then 1
    else if heading == "Aussenbereich" then 2
    else 3
  }

  /** The categories the features section holds: amenities when the list is
      non-empty, then parking, outdoor space and storage when present. */
  function FeatureCategories(features: Value): (cats: seq<FeatureCategory>)
    ensures |cats| <= 4
    ensures cats == [] <==>
      && |AsList(Field(features, "amenities"))| == 0
      && !Truthy(Field(features, "parking"))
      && !Truthy(Field(features, "outdoor"))
      && !Truthy(Field(features, "storage"))
    ensures var amenities := AsList(Field(features, "amenities"));
      |amenities| > 0 ==> cats[0] == FeatureList("Amenities", AmenityTexts(amenities))
    ensures forall i, j :: 0 <= i < j < |cats| ==> HeadingRank(cats[i].heading) < HeadingRank(cats[j].heading)
  {
    var a := AmenityItems(features);
    var p := TextCategory(features, "parking", "Parkplatz");
    var o := TextCategory(features, "outdoor", "Aussenbereich");
    var l := TextCategory(features, "storage", "Lager");
    CategoriesInOrder(a, p, o, l);
    a + p + o + l
  }

  /** Parking, outdoor space and storage each appear, under their heading and
      with their text, exactly when they are present. */
  lemma FeatureTextsPresent(features: Value)
    ensures var cats := FeatureCategories(features);
      && (FeatureText("Parkplatz", ToStr(Field(features, "parking"))) in cats <==> Truthy(Field(features, "parking")))
      && (FeatureText("Aussenbereich", ToStr(Field(features, "outdoor"))) in cats <==> Truthy(Field(features, "outdoor")))
      && (FeatureText("Lager", ToStr(Field(features, "storage"))) in cats <==> Truthy(Field(features, "storage")))
  {
    var a := AmenityItems(features);
    var p := TextCategory(features, "parking", "Parkplatz");
    var o := TextCategory(features, "outdoor", "Aussenbereich");
    var l := TextCategory(features, "storage", "Lager");
    assert FeatureCategories(features) == a + p + o + l;
    assert forall c :: c in a + p + o + l <==> c in a || c in p || c in o || c in l;
  }

  lemma CategoriesInOrder(a: seq<FeatureCategory>, p: seq<FeatureCategory>, o: seq<FeatureCategory>, l: seq<FeatureCategory>)
    requires |a| <= 1 && |p| <= 1 && |o| <= 1 && |l| <= 1
    requires forall c :: c in a ==> HeadingRank(c.heading) == 0
    requires forall c :: c in p ==> HeadingRank(c.heading) == 1
    requires forall c :: c in o ==> HeadingRank(c.heading) == 2
    requires forall c :: c in l ==> HeadingRank(c.heading) == 3
    ensures var cats := a + p + o + l;
      forall i, j :: 0 <= i < j < |cats| ==> HeadingRank(cats[i].heading) < HeadingRank(cats[j].heading)
  {
    var cats := a + p + o + l;
    var na, np, no := |a|, |a| + |p|, |a| + |p| + |o|;
    forall k | 0 <= k < |cats|
      ensures HeadingRank(cats[k].heading) == if k < na then 0 else if k < np then 1 else if k < no then 2 else 3
    {
      if k < na { assert cats[k] == a[k]; }
      else if k < np { assert cats[k] == p[k - na]; }
      else if k < no { assert cats[k] == o[k - np]; }
      else { assert cats[k] == l[k - no]; }
    }
  }

  /** A definition term and its description in the provenance list. */
  datatype Term = Term(term: string, description: string)

  const ConfidenceLabels: map<string, string> := map["low" := "Niedrig", "medium" := "Mittel", "high" := "Hoch"]

  /** The data-confidence label: three known levels are translated, any other
      value is shown as it is. */
  function ConfidenceLabel(confidence: Value): (shown: string)
    ensures ToStr(confidence) in ConfidenceLabels ==> shown == ConfidenceLabels[ToStr(confidence)]
    ensures ToStr(confidence) !in ConfidenceLabels ==> shown == ToStr(confidence)
  {
    var key := ToStr(confidence);
    if key == "low" then "Niedrig"
    else if key == "medium" then "Mittel"
    else if key == "high" then "Hoch"
    else key
  }

  /** The provenance entries: the update date, then the data confidence. */
  function ProvenanceTerms(provenance: Value, locale: string, host: Host): (terms: seq<Term>)
    ensures |terms| <= 2
    ensures terms != [] <==> Truthy(Field(provenance, "updated_at")) || Truthy(Field(provenance, "data_confidence"))
    ensures Truthy(Field(provenance, "updated_at")) ==>
              terms[0] == Term("Aktualisiert", FormatDate(Field(provenance, "updated_at"), locale, host))
    ensures Truthy(Field(provenance, "data_confidence")) ==>
              terms[|terms| - 1] == Term("Datenqualität", ConfidenceLabel(Field(provenance, "data_confidence")))
  {
    var updated, confidence := Field(provenance, "updated_at"), Field(provenance, "data_confidence");
    (if Truthy(updated) then [Term("Aktualisiert", FormatDate(updated, locale, host))] else [])
    + (if Truthy(confidence) then [Term("Datenqualität", ConfidenceLabel(confidence))] else [])
  }
}
