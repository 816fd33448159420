/** The schema.org structured data the page publishes in its JSON-LD block. */
module JsonLd {
  import opened JsValue
  import opened Listing
  import opened Media

  const SchemaContext: string := "https://schema.org"
  const InStock: string := "https://schema.org/InStock"
  const PreOrder: string := "https://schema.org/PreOrder"

  datatype PostalAddress = PostalAddress(
    streetAddress: Json, addressLocality: Json, postalCode: Json, addressRegion: Json, addressCountry: Json)

  datatype Offer = Offer(price: Json, priceCurrency: Json, availability: string, url: string)

  /** The JSON-LD object; `image` is `None` when the property is left out. */
  datatype StructuredData = StructuredData(
    schemaType: string,
    name: Json,
    description: Json,
    inLanguage: string,
    url: string,
    address: PostalAddress,
    offers: Offer,
    image: Option<seq<Value>>)

  /** `Apartment` unless the property type is present and something other
      than `apartment`. */
  function SchemaType(attrs: Value): (schemaType: string)
    ensures var propertyType := Field(attrs, "property_type");
      schemaType == "Apartment" <==> !Truthy(propertyType) || IsString(propertyType, "apartment")
    ensures schemaType == "Apartment" || schemaType == "Residence"
  {
    var propertyType := Or(Field(attrs, "property_type"), JString("apartment"));
    if IsString(propertyType, "apartment") then "Apartment" else "Residence"
  }

  /** `j` is what `v || d` puts into the JSON-LD object. */
  predicate Defaulted(j: Json, v: Value, d: Json) {
    if Truthy(v) then j == v.json else j == d
  }

  function OrElse(v: Value, d: Json): (j: Json)
    ensures Defaulted(j, v, d)
  {
    Or(v, d).json
  }

  /** The postal address: each of the five fields, or "" when missing. */
  function PostalAddressOf(address: Value): (a: PostalAddress)
    ensures Defaulted(a.streetAddress, Field(address, "street"), JString(""))
    ensures Defaulted(a.addressLocality, Field(address, "locality"), JString(""))
    ensures Defaulted(a.postalCode, Field(address, "postal_code"), JString(""))
    ensures Defaulted(a.addressRegion, Field(address, "region"), JString(""))
    ensures Defaulted(a.addressCountry, Field(address, "country"), JString(""))
  {
    PostalAddress(
      OrElse(Field(address, "street"), JString("")),
      OrElse(Field(address, "locality"), JString("")),
      OrElse(Field(address, "postal_code"), JString("")),
      OrElse(Field(address, "region"), JString("")),
      OrElse(Field(address, "country"), JString("")))
  }

  /** In stock exactly when the availability status is `occupied`. */
  function Availability(usage: Value): (url: string)
    ensures url == InStock <==> IsString(Field(Field(usage, "availability"), "status"), "occupied")
    ensures url == InStock || url == PreOrder
  {
    var availability := Field(usage, "availability");
    if Truthy(availability) && IsString(Field(availability, "status"), "occupied") then InStock else PreOrder
  }

  /** The offer: price or "", currency or CHF, the availability URL, the page URL. */
  function OfferOf(usage: Value, pricing: Value, basePath: string): (offer: Offer)
    ensures Defaulted(offer.price, Field(pricing, "price"), JString(""))
    ensures Defaulted(offer.priceCurrency, Field(pricing, "currency"), JString("CHF"))
    ensures offer.availability == Availability(usage) && offer.url == basePath
  {
    Offer(
      OrElse(Field(pricing, "price"), JString("")),
      OrElse(Field(pricing, "currency"), JString("CHF")),
      Availability(usage),
      basePath)
  }

  predicate IsImage(m: Json) {
    HasRole(m, "hero") || HasRole(m, "exterior") || HasRole(m, "interior")
  }

  /** The hero, exterior and interior items, in media order. */
  function ImageItems(media: seq<Json>): (items: seq<Json>)
    ensures |items| <= |media|
    ensures forall m :: m in items <==> m in media && IsImage(m)
  {
    if media == [] then []
    else (if IsImage(media[0]) then [media[0]] else []) + ImageItems(media[1..])
  }

  /** Selecting the image items distributes over concatenation, so they keep
      their media order. */
  lemma {:induction false} ImageItemsAppend(a: seq<Json>, b: seq<Json>)
    ensures ImageItems(a + b) == ImageItems(a) + ImageItems(b)
  {
    if a == [] {
      assert a + b == b;
    } else {
      assert (a + b)[0] == a[0];
      assert (a + b)[1..] == a[1..] + b;
      ImageItemsAppend(a[1..], b);
    }
  }

  /** The image items are exactly the items of the three roles, each once. */
  lemma {:induction false} ImageItemsAreTheThreeRoles(media: seq<Json>)
    ensures multiset(ImageItems(media)) ==
            multiset(ByRole(media, "hero")) + multiset(ByRole(media, "exterior")) + multiset(ByRole(media, "interior"))
  {
    if media != [] {
      ImageItemsAreTheThreeRoles(media[1..]);
    }
  }

  function ImageUris(media: seq<Json>): (uris: seq<Value>)
    ensures |uris| == |ImageItems(media)|
    ensures forall i :: 0 <= i < |uris| ==> uris[i] == Field(Val(ImageItems(media)[i]), "uri")
  {
    var items := ImageItems(media);
    seq(|items|, i requires 0 <= i < |items| => Field(Val(items[i]), "uri"))
  }

  /** The structured data of a document, given the text layer its page shows. */
  function StructuredDataOf(doc: Json, layer: Value, locale: string, basePath: string): (sd: StructuredData)
    ensures sd.image.None? <==> forall m :: m in MediaList(doc) ==> !IsImage(m)
    ensures sd.image.Some? ==> sd.image.value == ImageUris(MediaList(doc))
    ensures sd.inLanguage == locale && sd.url == basePath
    ensures sd.schemaType == SchemaType(Attributes(doc))
    ensures sd.address == PostalAddressOf(Address(doc))
    ensures sd.offers == OfferOf(Usage(doc), Pricing(doc), basePath)
    ensures Defaulted(sd.name, Field(layer, "title"), JString("Objekt"))
    ensures Defaulted(sd.description, Field(layer, "short_description"), JString(""))
  {
    var uris := ImageUris(MediaList(doc));
    assert |uris| > 0 ==> ImageItems(MediaList(doc))[0] in ImageItems(MediaList(doc));
    StructuredData(
      SchemaType(Attributes(doc)),
      OrElse(Field(layer, "title"), JString("Objekt")),
      OrElse(Field(layer, "short_description"), JString("")),
      locale,
      basePath,
      PostalAddressOf(Address(doc)),
      OfferOf(Usage(doc), Pricing(doc), basePath),
      if |uris| > 0 then Some(uris) else None)
  }

  /** An `undefined` array element is written as `null` by `JSON.stringify`. */
  function ElementJson(v: Value): Json {
    if v.Undefined? then JNull else v.json
  }

  /** The object handed to `JSON.stringify`, members in source order; the
      `image` member is left out when there are no images. */
  function ToJson(sd: StructuredData): (j: Json)
    ensures j.JObject? && |j.members| == if sd.image.Some? then 9 else 8
    ensures j.members[0] == Member("@context", JString(SchemaContext))
    ensures j.members[1] == Member("@type", JString(sd.schemaType))
    ensures sd.image.Some? ==>
              && j.members[8].key == "image" && j.members[8].value.JArray?
              && |j.members[8].value.items| == |sd.image.value|
              && forall i :: 0 <= i < |sd.image.value| ==> j.members[8].value.items[i] == ElementJson(sd.image.value[i])
    ensures forall i :: 0 <= i < 8 ==> j.members[i].key != "image"
  {
    var address := JObject([
      Member("@type", JString("PostalAddress")),
      Member("streetAddress", sd.address.streetAddress),
      Member("addressLocality", sd.address.addressLocality),
      Member("postalCode", sd.address.postalCode),
      Member("addressRegion", sd.address.addressRegion),
      Member("addressCountry", sd.address.addressCountry)]);
    var offers := JObject([
      Member("@type", JString("Offer")),
      Member("price", sd.offers.price),
      Member("priceCurrency", sd.offers.priceCurrency),
      Member("availability", JString(sd.offers.availability)),
      Member("url", JString(sd.offers.url))]);
    var image := match sd.image
      case None => []
      case Some(uris) => [Member("image", JArray(seq(|uris|, i requires 0 <= i < |uris| => ElementJson(uris[i]))))];
    JObject([
      Member("@context", JString(SchemaContext)),
      Member("@type", JString(sd.schemaType)),
      Member("name", sd.name),
      Member("description", sd.description),
      Member("inLanguage", JString(sd.inLanguage)),
      Member("url", JString(sd.url)),
      Member("address", address),
      Member("offers", offers)] + image)
  }
}
