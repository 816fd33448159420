/** The parts of a listing document that the renderers read, each defaulted
    to `{}` (or `[]`) when it is missing or falsy. Every renderer reads them the
    same way, so the facts, the metadata and the JSON-LD block agree. */
module Listing {
  import opened JsValue

  /** `parent.key || {}`: the part when it is truthy, `{}` otherwise. */
  function SubObject(parent: Value, key: string): (part: Value)
    ensures Truthy(part)
    ensures Truthy(Field(parent, key)) ==> part == Field(parent, key)
    ensures !Truthy(Field(parent, key)) ==> part == Val(EmptyObject)
  {
    Or(Field(parent, key), EmptyObject)
  }

  function Usage(doc: Json): Value { SubObject(Val(doc), "usage") }
  function Pricing(doc: Json): Value { SubObject(Usage(doc), "pricing") }
  function Structure(doc: Json): Value { SubObject(Val(doc), "structure") }
  function Attributes(doc: Json): Value { SubObject(Structure(doc), "attributes") }
  function Address(doc: Json): Value { SubObject(Structure(doc), "address") }
  function Provenance(doc: Json): Value { SubObject(Val(doc), "provenance") }
  function Extensions(doc: Json): Value { SubObject(Val(doc), "extensions") }

  /** `data.media || []`, as a list of items: the array's elements when
      `media` is an array, no items otherwise. */
  function MediaList(doc: Json): (media: seq<Json>)
    ensures Field(Val(doc), "media").Val? && Field(Val(doc), "media").json.JArray? ==>
              media == Field(Val(doc), "media").json.items
    ensures !(Field(Val(doc), "media").Val? && Field(Val(doc), "media").json.JArray?) ==> media == []
  {
    AsList(Or(Field(Val(doc), "media"), JArray([])))
  }
}
