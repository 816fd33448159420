/** Worked examples: what the page shows for small concrete documents. */
module Examples {
  import opened JsValue
  import opened Locale
  import opened Format
  import opened Listing
  import opened Media
  import opened Facts
  import opened Extensions
  import opened JsonLd

  function Obj1(key: string, value: Json): Json {
    JObject([Member(key, value)])
  }

  lemma DecimalExamples()
    ensures NatToDecimal(2000) == "2000" && NatToDecimal(2010) == "2010" && NatToDecimal(3) == "3"
  {
    assert NatToDecimal(20) == "20";
    assert NatToDecimal(200) == "200";
    assert NatToDecimal(201) == "201";
  }

  function BuiltAndRenovated(): Value {
    Val(JObject([Member("year_built", JNumber(2000)), Member("year_renovated", JNumber(2010))]))
  }

  /** Year built and renovated; then year built only, and neither. */
  lemma YearBothExample()
    ensures YearText(BuiltAndRenovated()) == "2000" + " (renoviert " + "2010" + ")"
  {
    DecimalExamples();
    assert ToStr(Field(BuiltAndRenovated(), "year_built")) == "2000";
    assert ToStr(Field(BuiltAndRenovated(), "year_renovated")) == "2010";
  }

  lemma YearBuiltOnlyExample()
    ensures YearText(Val(Obj1("year_built", JNumber(2000)))) == "2000"
    ensures YearText(Val(EmptyObject)) == Missing
  {
    DecimalExamples();
    assert ToStr(Field(Val(Obj1("year_built", JNumber(2000))), "year_built")) == "2000";
  }

  /** Street "A" and country "CH" give "A, CH"; no field gives "-". */
  lemma AddressExample()
    ensures AddressText(Val(JObject([Member("street", JString("A")), Member("country", JString("CH"))]))) == "A, CH"
    ensures AddressText(Val(EmptyObject)) == Missing
  {
    var a := Val(JObject([Member("street", JString("A")), Member("country", JString("CH"))]));
    StreetAndCountryParts(a);
    assert Join(["A", "CH"], ", ") == Join(["A"], ", ") + ", " + "CH";
  }

  lemma StreetAndCountryParts(a: Value)
    requires a == Val(JObject([Member("street", JString("A")), Member("country", JString("CH"))]))
    ensures PresentParts(a, AddressFields) == ["A", "CH"]
  {
    AddressPartsInOrder(a);
    assert Field(a, "postal_code") == Undefined && Field(a, "locality") == Undefined && Field(a, "region") == Undefined;
  }

  /** A falsy price, missing or zero, is shown as "-" whatever the currency. */
  lemma PriceGuardExamples(currency: Value, locale: string, host: Host)
    ensures FormatPrice(Undefined, currency, locale, host) == Missing
    ensures FormatPrice(Val(JNumber(0)), currency, locale, host) == Missing
  {
  }

  function Role(role: string): Json {
    Obj1("role", JString(role))
  }

  /** The hero item wins regardless of position; without one the first item
      is taken; an empty list shows only the notice. */
  lemma HeroExamples()
    ensures HeroImage([Role("exterior"), Role("hero"), Role("floorplan")]) == Some(Role("hero"))
    ensures HeroImage([Role("exterior"), Role("floorplan")]) == Some(Role("exterior"))
    ensures MediaAreaOf([]) == Notice(NoMediaNotice)
  {
    var media := [Role("exterior"), Role("hero"), Role("floorplan")];
    assert !HasRole(media[0], "hero");
    HeroIsFirstHero(media, 1);
  }

  /** `{}` leaves the extensions section hidden; `{"a": 1}` shows one entry. */
  lemma ExtensionsExamples(stringify: Json -> string)
    ensures Entries(Val(EmptyObject)) == []
    ensures Rendered(Entries(Val(Obj1("a", JNumber(1)))), 0, stringify) == [ScalarEntry(0, "a", "1")]
  {
    var ms := [Member("a", JNumber(1))];
    assert ms[..0] == [];
  }

  /** Only an `occupied` status is in stock. */
  lemma AvailabilityExamples()
    ensures Availability(Val(Obj1("availability", Obj1("status", JString("occupied"))))) == InStock
    ensures Availability(Val(Obj1("availability", Obj1("status", JString("vacant"))))) == PreOrder
    ensures Availability(Val(EmptyObject)) == PreOrder
  {
  }

  /** The document that has nothing but `{structure: {attributes: {room_count: 3}}}`. */
  function RoomCountOnly(): Json {
    Obj1("structure", Obj1("attributes", Obj1("room_count", JNumber(3))))
  }

  lemma RoomCountOnlyParts(doc: Json)
    requires doc == RoomCountOnly()
    ensures Field(Val(doc), "text_layers") == Undefined
    ensures Usage(doc) == Val(EmptyObject) && Pricing(doc) == Val(EmptyObject)
    ensures Attributes(doc) == Val(Obj1("room_count", JNumber(3)))
    ensures Address(doc) == Val(EmptyObject) && Provenance(doc) == Val(EmptyObject)
    ensures Listing.Extensions(doc) == Val(EmptyObject) && MediaList(doc) == []
  {
  }

  lemma RoomCountThree()
    ensures RoomCountText(Val(Obj1("room_count", JNumber(3)))) == "3 Zimmer"
  {
    DecimalExamples();
    var attrs := Val(Obj1("room_count", JNumber(3)));
    assert ToStr(Field(attrs, "room_count")) == "3";
    assert RoomCountText(attrs) == "3" + " Zimmer";
  }

  lemma OtherAttributesMissing()
    ensures var attrs := Val(Obj1("room_count", JNumber(3)));
      LivingAreaText(attrs) == Missing && YearText(attrs) == Missing
  {
    var attrs := Val(Obj1("room_count", JNumber(3)));
    assert Field(attrs, "living_area_sqm") == Undefined && Field(attrs, "year_built") == Undefined;
  }

  /** End to end: the room count reads "3 Zimmer", every other fact shows its
      default, and no optional section has anything to show. */
  lemma RoomCountOnlyFacts(host: Host)
    ensures var doc, locale := RoomCountOnly(), LocaleFromQuery(host.lang);
      KeyFactsOf(doc, TextLayerOf(doc, locale), locale, host)
      == KeyFacts(DefaultTitle, DefaultDescription, Missing, Missing, "3 Zimmer", Missing, Missing, Missing)
  {
    var doc := RoomCountOnly();
    RoomCountOnlyParts(doc);
    RoomCountThree();
    OtherAttributesMissing();
    PresentPartsEmpty(Address(doc), AddressFields);
    var layer := TextLayerOf(doc, LocaleFromQuery(host.lang));
    assert layer == EmptyLayer;
    assert TitleText(layer) == DefaultTitle && DescriptionText(layer) == DefaultDescription;
    assert TransactionText(Usage(doc)) == Missing;
    assert AddressText(Address(doc)) == Missing;
  }

  lemma RoomCountOnlySections(host: Host)
    ensures var doc, locale := RoomCountOnly(), LocaleFromQuery(host.lang);
      && AsList(Field(Attributes(doc), "room_breakdown")) == []
      && !Truthy(Field(Attributes(doc), "features"))
      && ProvenanceTerms(Provenance(doc), locale, host) == []
      && Entries(Listing.Extensions(doc)) == []
      && MediaAreaOf(MediaList(doc)) == Notice(NoMediaNotice)
  {
    RoomCountOnlyParts(RoomCountOnly());
  }
}
