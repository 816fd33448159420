# Listing page model

A Dafny model of the script behind a single real-estate listing page
(`site/assets/app.js`). The page loads one listing document (JSON), resolves
the active locale from the `lang` query parameter, picks the localised text
layer through a fallback chain of layer keys, and fills the slots of a static
template: the key facts, the room breakdown, the features, the media area,
the provenance list, a generic rendering of the free-form `extensions` data,
the document head (language, title, description and Open Graph tags) and a
schema.org JSON-LD block.

The model follows the script's structure:

- `JsValue` — the parsed document as a `Json` datatype, `undefined` as
  `Value.Undefined`, and the JavaScript conversions the page relies on:
  truthiness, property access, `v || d`, `String(v)`, `textContent`
  assignment, `Object.entries` and `Array.prototype.join`.
- `Locale` — `getLocaleFromUrl`, `getLayerKey`, `getFallbackLayerKeys` (a
  method that pushes, proved against the function `FallbackChain`) and
  `getTextLayer` (a method whose loop exits early, proved against
  `TextLayerOf`).
- `Format` — the falsy guards of `formatPrice` and `formatDate`. The `Host`
  datatype carries what the page takes from the browser: the `lang`
  parameter, the base path, the `Intl` formatters and `JSON.stringify`, each
  an opaque function.
- `Listing` — the `data.usage || {}`-style defaulting of the document's parts.
- `Media` — `getMediaByRole`, `getHeroImage` and what `renderMedia` shows.
- `Facts` — the key-fact texts, the address join, the room breakdown lines,
  the feature categories and the provenance entries.
- `Extensions` — `renderObject`, as the function `Rendered` and as the
  recursive method `RenderObject` proved equal to it, with the depth cap,
  null skipping and flat arrays proved as lemmas.
- `JsonLd` — the structured data built by `updateJSONLD` and the JSON
  object handed to `JSON.stringify`.
- `PageModel` — the page as a class `Page` with one field per output slot
  and visibility flag. The six renderers are methods with frames naming the
  slots they write. The loops that build lists by appending are methods
  proved against the specification functions above.
- `Examples` — what the page shows for small concrete documents: the year and
  address texts, hero selection, the availability rule, extensions
  visibility, and a document holding only a room count.

The script's numbers are modelled as integers. An object's members are
listed in JavaScript's property-enumeration order.

The schema type is `Apartment` when `property_type` is missing, falsy or
`apartment`, because the script defaults a falsy attribute to `apartment`
before comparing (site/assets/app.js:389-390); it is `Residence` otherwise.

## Model

| member | source | states |
|---|---|---|
| Locale.LocaleFromQuery | site/assets/app.js:19-26 | the locale is `lang` when `lang` is one of the six supported locales, `de-CH` otherwise, and always a supported locale |
| Locale.LayerKey | site/assets/app.js:28-30 | the key is the mapped layer key of a known locale and `de` for any other string; for a supported locale it is the locale's first two letters (the page only passes a locale from `LocaleFromQuery`) |
| Locale.FallbackChain | site/assets/app.js:32-47 | the chain starts with the layer key, has one to three distinct keys, always contains `de`, and contains `en` exactly when the key is not `de` |
| Locale.FallbackLayerKeys | site/assets/app.js:32-47 | the conditional pushes build exactly the fallback chain of the locale's layer key |
| Locale.SelectLayer | site/assets/app.js:57-64 | the selected layer is truthy, and is either `{}` or the layer under one of the chain's keys |
| Locale.SelectLayerFirstMatch | site/assets/app.js:57-62 | when key `i` is the first chain key with a truthy layer, that layer is selected |
| Locale.SelectLayerNoMatch | site/assets/app.js:64 | when no chain key has a truthy layer, `{}` is selected |
| Locale.TextLayerIsFirstAvailable | site/assets/app.js:49-65 | the document's text layer is the layer under the first fallback key whose entry is truthy |
| Locale.TextLayerDefaultsToEmpty | site/assets/app.js:49-65 | the text layer is `{}` when no fallback key has a truthy entry, so it is never absent |
| Locale.TextLayerOf | site/assets/app.js:49-65 | the text layer is always truthy, `{}` without `text_layers`, and otherwise `{}` or the layer under one of the fallback keys |
| Locale.TextLayer | site/assets/app.js:49-65 | the early-exit scan returns the text layer of the document for the locale |
| Format.CurrencyCode | site/assets/app.js:72 | the currency handed to the formatter is the given currency when truthy, `CHF` otherwise |
| Format.FormatPrice | site/assets/app.js:67-68 | a falsy price gives `-`; a truthy one is formatted in the locale and currency |
| Format.FormatDate | site/assets/app.js:76-77 | a falsy date gives `-`; a truthy one is formatted in the locale |
| JsValue.Lookup | site/assets/app.js:59 | a property is `undefined` exactly when the object has no member of that name, and otherwise the first such member's value |
| JsValue.Or | site/assets/app.js:101-105 | `v \|\| d` is `v` when `v` is truthy and `d` otherwise |
| JsValue.Entries | site/assets/app.js:287 | `Object.entries` gives an object's members; for an array or a string, entry `i` has the decimal key `i` and element or character `i`; nothing for other values |
| JsValue.NatToDecimal | site/assets/app.js:116 | the decimal text of a count is one or more digits with no leading zero |
| JsValue.NatToDecimalValue | site/assets/app.js:116 | the decimal text of `n` denotes `n`: reading its digits back gives `n` |
| JsValue.TextContent | site/assets/app.js:166 | assigning null or undefined to `textContent` leaves an empty text, any other value its `String` text |
| JsValue.TextOr | site/assets/app.js:107-108 | the text of `v \|\| d` is the text of `v` when it is truthy and `d` otherwise |
| Media.ByRole | site/assets/app.js:87-89 | the result holds exactly the items whose role equals the given role, and is no longer than the list |
| Media.ByRoleAppend | site/assets/app.js:87-89 | selection by role distributes over concatenation, so it keeps the items' relative order |
| Media.ByRoleFirst | site/assets/app.js:87-89 | the first selected item is the first item of the list with that role |
| Media.HeroImage | site/assets/app.js:91-96 | there is no hero exactly when the list is empty; the hero is an item of the list; without a `hero` item it is the first item |
| Media.HeroIsFirstHero | site/assets/app.js:92-93 | the hero is the first item whose role is `hero`, wherever it stands |
| Media.AltText | site/assets/app.js:219 | the alt text is the first text reference when there is a truthy one, `Hauptbild` otherwise |
| Media.HeroFigure | site/assets/app.js:215-219 | the hero image's source is the hero's URI and its alt text is `AltText` |
| Media.LinksTo | site/assets/app.js:227-243 | one link per item; link `i` points to item `i`'s URI and carries the given text |
| Media.MediaLinks | site/assets/app.js:224-243 | the floor plan links come first, in media order, and the document links follow them, in media order |
| Media.LinksIffLinkable | site/assets/app.js:224-247 | there is at least one link exactly when some item is a floor plan or a document |
| Media.MediaAreaOf | site/assets/app.js:200-250 | an empty list shows only the notice; otherwise the hero figure is shown iff the hero is truthy, its source is the hero's URI, and the links container is present iff some floor plan or document exists, holding one link for each |
| Facts.TransactionText | site/assets/app.js:110-111 | `sale` shows `Kauf`, `rent` shows `Miete`, a falsy type shows `-` and any other value is shown as it is |
| Facts.WithUnit | site/assets/app.js:115-119 | a truthy value is shown with its unit suffix, a falsy one as `-` |
| Facts.YearText | site/assets/app.js:121-129 | year built and renovated give `{built} (renoviert {renovated})`, year built alone gives the bare year, otherwise `-` |
| Facts.Part | site/assets/app.js:132-136 | a field contributes its text exactly when it is truthy |
| Facts.PresentParts | site/assets/app.js:131-136 | there are no more parts than fields |
| Facts.PresentPartsPrefix | site/assets/app.js:131-136 | each further field appends its own part after those of the fields before it |
| Facts.PresentPartsOfFive | site/assets/app.js:131-136 | five fields give their five parts in their order |
| Facts.AddressPartsInOrder | site/assets/app.js:132-136 | the address parts are street, postal code, locality, region and country, in that order |
| Facts.PresentPartsEmpty | site/assets/app.js:137 | there are no parts exactly when no field is truthy |
| Facts.PresentPartsAppend | site/assets/app.js:131-136 | the parts of two field lists in sequence are the parts of the first followed by those of the second |
| Facts.PresentPartsText | site/assets/app.js:131-136 | every truthy field's text is among the parts |
| Facts.AddressText | site/assets/app.js:131-137 | the address is `-` when no field is truthy and otherwise the present parts joined with `, ` |
| Facts.KeyFactsOf | site/assets/app.js:107-137 | title and description from the text layer with defaults `Objekt` and `Immobilienobjekt`; transaction type, price, room count, living area, year and address from the document's parts |
| Facts.RoomLabel | site/assets/app.js:144 | the three known room types are translated, any other value is shown as it is |
| Facts.BreakdownLine | site/assets/app.js:144-147 | one room's line: label and count, then the area when present (stated by `Facts.BreakdownLineShape`) |
| Facts.BreakdownLineShape | site/assets/app.js:144-147 | a line starts with `{label} ({count})` and goes on with ` - {area} m²` exactly when the room has an area |
| Facts.BreakdownLines | site/assets/app.js:142-150 | one line per room, line `i` being the breakdown line of room `i` |
| Facts.AmenityTexts | site/assets/app.js:164-168 | one item per amenity; item `i` is empty for a null amenity and the `String` text of amenity `i` otherwise |
| Facts.FeatureCategories | site/assets/app.js:159-191 | at most four categories; none exactly when there are no amenities and parking, outdoor space and storage are all falsy; the amenities list comes first when present; the categories appear in the order amenities, parking, outdoor space, storage |
| Facts.FeatureTextsPresent | site/assets/app.js:172-191 | the `Parkplatz`, `Aussenbereich` and `Lager` categories, each with the field's text, appear exactly when `parking`, `outdoor` and `storage` are truthy |
| Facts.ConfidenceLabel | site/assets/app.js:270-275 | `low`, `medium` and `high` show `Niedrig`, `Mittel` and `Hoch`, any other value is shown as it is |
| Facts.ProvenanceTerms | site/assets/app.js:257-278 | at most two entries; some entry exactly when the update date or the data confidence is truthy; the `Aktualisiert` entry with the formatted date comes first when the update date is truthy; the `Datenqualität` entry comes last when the confidence is truthy |
| Extensions.ItemTexts | site/assets/app.js:312-320 | one bullet per array element; an object or array element shows its serialisation, any other element its `String` text |
| Extensions.RenderMember | site/assets/app.js:305-334 | a null member adds nothing; any other adds one entry at that level under its key: a list for an array, a nested rendering one level deeper for an object, the `String` text otherwise |
| Extensions.Rendered | site/assets/app.js:297-336 | no more entries than members, and nothing below the depth cap |
| Extensions.RenderObject | site/assets/app.js:297-336 | the recursive walk appends exactly the entries of `Rendered` for the members at that level |
| Extensions.NestedAppend | site/assets/app.js:300-335 | entries at one level stay at that level when appended |
| Extensions.RenderedIsNested | site/assets/app.js:297-326 | no entry is deeper than level 3, and the entries of a nested object sit exactly one level below it |
| Extensions.MemberIsNested | site/assets/app.js:322-326 | an object member's entries sit one level below it |
| Extensions.BelowCapRendersNothing | site/assets/app.js:298 | nothing is rendered below level 3 |
| Extensions.NonNullKeysSnoc | site/assets/app.js:305-306 | a null member adds no key, any other member adds its own key |
| Extensions.RenderedKeys | site/assets/app.js:300-335 | null members leave no entry and every other member leaves one entry under its key, in member order |
| Extensions.NoNullKeys | site/assets/app.js:305-306 | all-null members have no keys |
| Extensions.AllNullRendersNothing | site/assets/app.js:305-306 | an object whose members are all null renders no entry |
| Extensions.ArrayMemberIsFlat | site/assets/app.js:307-321 | an array becomes one bullet list and an object or array element appears as its serialisation, not walked |
| JsonLd.SchemaType | site/assets/app.js:389-390 | `Apartment` exactly when `property_type` is absent or `apartment`, `Residence` otherwise |
| JsonLd.OrElse | site/assets/app.js:394-404 | the value put into the JSON-LD object is the field when truthy and the default otherwise |
| JsonLd.PostalAddressOf | site/assets/app.js:392-399 | each of the five address fields is its value or `''` |
| JsonLd.Availability | site/assets/app.js:405 | `InStock` exactly when the availability status is `occupied`, `PreOrder` otherwise |
| JsonLd.OfferOf | site/assets/app.js:401-407 | the price or `''`, the currency or `CHF`, the availability and the page URL |
| JsonLd.ImageItems | site/assets/app.js:409-410 | the image items are no more than the media items, and are exactly the hero, exterior and interior items |
| JsonLd.ImageItemsAppend | site/assets/app.js:409-410 | selecting the image items distributes over concatenation, so they keep their media order |
| JsonLd.ImageItemsAreTheThreeRoles | site/assets/app.js:409-410 | the image items are the items of the three roles, each taken once |
| JsonLd.ImageUris | site/assets/app.js:411 | one URI per image item, URI `i` being the `uri` of image item `i` |
| JsonLd.StructuredDataOf | site/assets/app.js:379-423 | `image` is left out exactly when no item is an image and is otherwise their URIs; language, URL, name (default `Objekt`) and description (default `''`); the schema type, postal address and offer of the document |
| JsonLd.ToJson | site/assets/app.js:413-423 | the serialised object starts with `@context` and `@type`, has the `image` member only when there are images, and then one array element per URI, `undefined` written as `null` |
| Listing.SubObject | site/assets/app.js:101-105 | `parent.key \|\| {}` is truthy: the part when it is truthy, `{}` otherwise |
| Listing.MediaList | site/assets/app.js:201 | `data.media \|\| []` gives the elements of the `media` array and no items for any other value |
| Listing.Usage | site/assets/app.js:101 | the document's `usage`, defaulted |
| Listing.Pricing | site/assets/app.js:102 | the usage's `pricing`, defaulted |
| Listing.Structure | site/assets/app.js:103 | the document's `structure`, defaulted |
| Listing.Attributes | site/assets/app.js:104 | the structure's `attributes`, defaulted |
| Listing.Address | site/assets/app.js:105 | the structure's `address`, defaulted |
| Listing.Provenance | site/assets/app.js:253 | the document's `provenance`, defaulted |
| Listing.Extensions | site/assets/app.js:286 | the document's `extensions`, defaulted |
| PageModel.AddressLine | site/assets/app.js:131-137 | the five guarded pushes and the join give the address text |
| PageModel.RoomLines | site/assets/app.js:142-150 | the `forEach` appends the breakdown line of every room, in order |
| PageModel.FeatureContent | site/assets/app.js:155-191 | the appends fill the container with exactly the feature categories |
| PageModel.AppendLinks | site/assets/app.js:227-243 | the `forEach` appends one link per item, to the item's URI, after the links already there |
| PageModel.LinksOf | site/assets/app.js:224-243 | the appends give the floor plan links, then the document links |
| PageModel.Page.RenderKeyFacts | site/assets/app.js:98-198 | the fact slots hold the key facts of the document's text layer; the features grid goes on together with the features section; the room breakdown is filled and shown only when there are rooms |
| PageModel.Page.ShowRoomBreakdown | site/assets/app.js:139-152 | a non-empty breakdown replaces the list and shows it; otherwise nothing changes |
| PageModel.Page.ShowFeatures | site/assets/app.js:154-197 | a present `features` refills the container, which is shown with the grid layout only once it holds a category |
| PageModel.Page.RenderMedia | site/assets/app.js:200-250 | the media area shows exactly what `MediaAreaOf` gives for the document's media |
| PageModel.Page.RenderProvenance | site/assets/app.js:252-283 | the list holds the provenance entries, and the section is shown once an entry was appended |
| PageModel.Page.RenderExtensions | site/assets/app.js:285-340 | with no keys nothing changes; otherwise the rendered tree is shown, even if every value is null |
| PageModel.Page.UpdateMetaTags | site/assets/app.js:342-377 | language, title and the present description tags from the same text layer as the facts; og:image set to the hero's URI only when a hero is shown, created only when the head has none |
| PageModel.Page.UpdateJsonLd | site/assets/app.js:379-429 | an existing JSON-LD script receives the serialised structured data; none is created |
| Examples.DecimalExamples | site/assets/app.js:125 | 2000, 2010 and 3 are written as `2000`, `2010` and `3` |
| Examples.YearBothExample | site/assets/app.js:124-125 | built 2000 and renovated 2010 give `2000 (renoviert 2010)` |
| Examples.YearBuiltOnlyExample | site/assets/app.js:123-128 | built 2000 alone gives `2000`; no year gives `-` |
| Examples.AddressExample | site/assets/app.js:131-137 | street `A` and country `CH` give `A, CH`; no field gives `-` |
| Examples.StreetAndCountryParts | site/assets/app.js:131-136 | street `A` and country `CH` give the parts `A` and `CH` |
| Examples.PriceGuardExamples | site/assets/app.js:67-68 | a missing price and a zero price both give `-` |
| Examples.HeroExamples | site/assets/app.js:91-96 | the `hero` item wins from the second position; without one the first item is the hero; no media shows only the notice |
| Examples.ExtensionsExamples | site/assets/app.js:285-340 | `{}` has no keys; `{"a": 1}` renders one scalar entry `a` with text `1` |
| Examples.AvailabilityExamples | site/assets/app.js:405 | `occupied` is in stock; `vacant` and a missing status are pre-order |
| Examples.RoomCountOnlyParts | site/assets/app.js:101-105 | the parts of a document holding only a room count all default to `{}` or `[]` |
| Examples.RoomCountThree | site/assets/app.js:115-116 | a room count of 3 reads `3 Zimmer` |
| Examples.OtherAttributesMissing | site/assets/app.js:118-129 | without living area or year built both read `-` |
| Examples.RoomCountOnlyFacts | site/assets/app.js:98-137 | for a document holding only a room count of 3, the room count reads `3 Zimmer` and every other fact its default |
| Examples.RoomCountOnlySections | site/assets/app.js:139-290 | for that document no room breakdown, no features, no provenance entry, no extensions and only the no-media notice |

## Left out

- Fetching the document, the promise chain, `init`, the `DOMContentLoaded` wiring and the error message on a failed load (site/assets/app.js:431-457) are not modelled; each renderer is modelled on its own, and the order in which `init` calls them is not.
- The text produced by `Intl.NumberFormat`, `Intl.DateTimeFormat` and `new Date` is an opaque function of the `Host`; only the `-` guards are modelled. A `RangeError` from an invalid currency code is not modelled.
- The date formatter of `Host` always returns a text: a truthy `updated_at` that does not parse as a date makes `Intl.DateTimeFormat.format` throw a `RangeError` (site/assets/app.js:78-84), which aborts `renderProvenance`; the catch in `init` then overwrites the media area, and the extensions, meta tags and JSON-LD block are never written. The model does not capture that abort.
- The text produced by `JSON.stringify` is an opaque function of the `Host`.
- The base path (the page's pathname without a trailing slash) and the `lang` query parameter are inputs in `Host`; the regular expression and `URLSearchParams` are not modelled.
- DOM primitives are replaced by the fields of `Page`: element creation, `innerHTML` parsing of the feature texts (the text is kept as it is), the `target` of links, `img.src` URL resolution, the `marginTop` and `marginLeft` styles and the label text (`key: ` or `key:`) of the extensions entries; an entry keeps its level instead.
- Numbers are integers; fractional and non-finite numbers are not modelled, nor the exponent form `String` gives integers of 10^21 and above (`1e+21`).
- The keys of an object are assumed distinct: `Lookup` takes the first member of a name, while `JSON.parse` keeps the last value of a repeated key.
- Strings are sequences of Unicode scalar values, not UTF-16 code units, so `Entries` and `Index0` on a string with characters outside the Basic Multilingual Plane count differently from the script.
- `Object.entries` lists integer-like keys first in JavaScript; the model takes an object's members in the order given, assuming it is that enumeration order.
- Locale.LayerKey: for an inherited property name such as `constructor` the script finds a truthy inherited member where the model gives `de`; the page never passes such a name, because the locale always comes from `Locale.LocaleFromQuery`.
- Facts.ConfidenceLabel: an inherited property name such as `constructor` or `toString` is shown as it is; in the script it finds the inherited member of the confidence map.
- Where the script would throw a `TypeError`, the model reads the value leniently: a null media item or room is read as an item without properties, a truthy non-array `media`, `room_breakdown` or `amenities` is read as an empty list.
- Media.ByRole: the contract states membership and length; the order is stated by `Media.ByRoleAppend` and `Media.ByRoleFirst`.
