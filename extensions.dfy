/** The generic renderer for the free-form `extensions` data: a walk over the
    members of an object that stops below level 3, skips null members, shows
    arrays as bullet lists of flat texts and descends into nested objects one
    level deeper. */
module Extensions {
  import opened JsValue

  /** The deepest level that is rendered; level 0 is the `extensions` object. */
  const MaxLevel: nat := 3

  /** One rendered `div`: the member's key as a label, then its content. */
  datatype Entry =
    | ListEntry(level: nat, key: string, items: seq<string>)       // an array: one bullet per element
    | ObjectEntry(level: nat, key: string, children: seq<Entry>)   // an object: its members, one level deeper
    | ScalarEntry(level: nat, key: string, text: string)           // anything else: its text

  /** An array element: objects and arrays are shown as their serialisation,
      anything else as its text. */
  function ItemText(item: Json, stringify: Json -> string): string {
    if item.JArray? || item.JObject? then stringify(item) else ToStr(Val(item))
  }

  function ItemTexts(items: seq<Json>, stringify: Json -> string): (texts: seq<string>)
    ensures |texts| == |items|
    ensures forall i :: 0 <= i < |items| ==>
              texts[i] == if items[i].JArray? || items[i].JObject? then stringify(items[i]) else JsonText(items[i])
  {
    seq(|items|, i requires 0 <= i < |items| => ItemText(items[i], stringify))
  }

  /** What one member adds to its parent at `level`: nothing for null, else
      one entry under its key whose kind follows the value's type. */
  function RenderMember(m: Member, level: nat, stringify: Json -> string): (r: seq<Entry>)
    requires level <= MaxLevel
    ensures r == [] <==> m.value.JNull?
    ensures r != [] ==> |r| == 1 && r[0].level == level && r[0].key == m.key
    ensures r != [] ==> (r[0].ListEntry? <==> m.value.JArray?) && (r[0].ObjectEntry? <==> m.value.JObject?)
    ensures m.value.JObject? ==> r[0].children == Rendered(m.value.members, level + 1, stringify)
    ensures !m.value.JNull? && !m.value.JArray? && !m.value.JObject? ==> r[0].text == JsonText(m.value)
    decreases MaxLevel + 1 - level, 0
  {
    match m.value
    case JNull => []
    case JArray(items) => [ListEntry(level, m.key, ItemTexts(items, stringify))]
    case JObject(ms) => [ObjectEntry(level, m.key, Rendered(ms, level + 1, stringify))]
    case _ => [ScalarEntry(level, m.key, ToStr(Val(m.value)))]
  }

  /** What `renderObject` appends to its parent for the members `ms` at `level`:
      nothing below the cap, otherwise the entries of the members in order. */
  function Rendered(ms: seq<Member>, level: nat, stringify: Json -> string): (r: seq<Entry>)
    ensures |r| <= |ms|
    ensures level > MaxLevel ==> r == []
    decreases if level <= MaxLevel then MaxLevel + 1 - level else 0, |ms| + 1
  {
    if level > MaxLevel || ms == [] then []
    else Rendered(ms[..|ms| - 1], level, stringify) + RenderMember(ms[|ms| - 1], level, stringify)
  }

  /** Walks the members in order, appending one entry per non-null member and
      recursing into object members one level deeper. */
  method RenderObject(ms: seq<Member>, level: nat, stringify: Json -> string) returns (appended: seq<Entry>)
    ensures appended == Rendered(ms, level, stringify)
    decreases if level <= MaxLevel then MaxLevel + 1 - level else 0
  {
    if level > MaxLevel {
      return [];
    }
    appended := [];
    var i := 0;
    while i < |ms|
      invariant 0 <= i <= |ms|
      invariant appended == Rendered(ms[..i], level, stringify)
    {
      var m := ms[i];
      match m.value {
        case JNull =>
        case JArray(items) =>
          var texts: seq<string> := [];
          var j := 0;
          while j < |items|
            invariant 0 <= j <= |items|
            invariant texts == ItemTexts(items[..j], stringify)
          {
            texts := texts + [ItemText(items[j], stringify)];
            j := j + 1;
          }
          assert items[..j] == items;
          appended := appended + [ListEntry(level, m.key, texts)];
        case JObject(children) =>
          var nested := RenderObject(children, level + 1, stringify);
          appended := appended + [ObjectEntry(level, m.key, nested)];
        case _ =>
          appended := appended + [ScalarEntry(level, m.key, ToStr(Val(m.value)))];
      }
      assert ms[..i + 1][..i] == ms[..i];
      i := i + 1;
    }
    assert ms[..i] == ms;
  }

  /** Every entry of `es` sits at `level`, no entry is deeper than the cap, and
      the children of an object entry sit exactly one level deeper. */
  ghost predicate Nested(es: seq<Entry>, level: nat)
    decreases es
  {
    forall i :: 0 <= i < |es| ==>
      && es[i].level == level
      && level <= MaxLevel
      && (es[i].ObjectEntry? ==> Nested(es[i].children, level + 1))
  }

  lemma NestedAppend(a: seq<Entry>, b: seq<Entry>, level: nat)
    requires Nested(a, level) && Nested(b, level)
    ensures Nested(a + b, level)
  {
    forall i | 0 <= i < |a + b|
      ensures (a + b)[i].level == level && level <= MaxLevel
      ensures (a + b)[i].ObjectEntry? ==> Nested((a + b)[i].children, level + 1)
    {
      if i < |a| { assert (a + b)[i] == a[i]; } else { assert (a + b)[i] == b[i - |a|]; }
    }
  }

  /** The depth cap: the rendered tree has no entry below level 3, and each
      nested object's entries are exactly one level below their parent. */
  lemma {:induction false} RenderedIsNested(ms: seq<Member>, level: nat, stringify: Json -> string)
    ensures Nested(Rendered(ms, level, stringify), level)
    decreases if level <= MaxLevel then MaxLevel + 1 - level else 0, |ms| + 1
  {
    if level <= MaxLevel && ms != [] {
      RenderedIsNested(ms[..|ms| - 1], level, stringify);
      MemberIsNested(ms[|ms| - 1], level, stringify);
      NestedAppend(Rendered(ms[..|ms| - 1], level, stringify), RenderMember(ms[|ms| - 1], level, stringify), level);
    }
  }

  lemma {:induction false} MemberIsNested(m: Member, level: nat, stringify: Json -> string)
    requires level <= MaxLevel
    ensures Nested(RenderMember(m, level, stringify), level)
    decreases MaxLevel + 1 - level, 0
  {
    if m.value.JObject? {
      RenderedIsNested(m.value.members, level + 1, stringify);
    }
  }

  /** Nothing at all is rendered below the cap. */
  lemma BelowCapRendersNothing(ms: seq<Member>, level: nat, stringify: Json -> string)
    requires level > MaxLevel
    ensures Rendered(ms, level, stringify) == []
  {
  }

  function Keys(es: seq<Entry>): seq<string> {
    seq(|es|, i requires 0 <= i < |es| => es[i].key)
  }

  /** The keys of the members that are not null, in order. */
  function NonNullKeys(ms: seq<Member>): seq<string> {
    if ms == [] then []
    else (if ms[0].value.JNull? then [] else [ms[0].key]) + NonNullKeys(ms[1..])
  }

  lemma {:induction false} NonNullKeysSnoc(ms: seq<Member>, m: Member)
    ensures NonNullKeys(ms + [m]) == NonNullKeys(ms) + (if m.value.JNull? then [] else [m.key])
  {
    if ms == [] {
      assert ms + [m] == [m];
    } else {
      assert (ms + [m])[1..] == ms[1..] + [m];
      NonNullKeysSnoc(ms[1..], m);
    }
  }

  /** Null members leave no entry, and every other member leaves exactly one
      entry under its own key, in member order. */
  lemma {:induction false} RenderedKeys(ms: seq<Member>, level: nat, stringify: Json -> string)
    requires level <= MaxLevel
    ensures Keys(Rendered(ms, level, stringify)) == NonNullKeys(ms)
  {
    if ms != [] {
      var init, last := ms[..|ms| - 1], ms[|ms| - 1];
      RenderedKeys(init, level, stringify);
      assert init + [last] == ms;
      NonNullKeysSnoc(init, last);
      var a, b := Rendered(init, level, stringify), RenderMember(last, level, stringify);
      assert Keys(a + b) == Keys(a) + Keys(b);
    }
  }

  lemma {:induction false} NoNullKeys(ms: seq<Member>)
    requires forall i :: 0 <= i < |ms| ==> ms[i].value.JNull?
    ensures NonNullKeys(ms) == []
  {
    if ms != [] {
      NoNullKeys(ms[1..]);
    }
  }

  /** An object whose members are all null renders no entry. */
  lemma AllNullRendersNothing(ms: seq<Member>, level: nat, stringify: Json -> string)
    requires level <= MaxLevel
    requires forall i :: 0 <= i < |ms| ==> ms[i].value.JNull?
    ensures Rendered(ms, level, stringify) == []
  {
    RenderedKeys(ms, level, stringify);
    NoNullKeys(ms);
  }

  /** An array member becomes one flat bullet list: each element that is an
      object or an array appears as its serialisation and is not walked. */
  lemma ArrayMemberIsFlat(m: Member, level: nat, stringify: Json -> string, i: nat)
    requires level <= MaxLevel && m.value.JArray? && i < |m.value.items|
    requires m.value.items[i].JObject? || m.value.items[i].JArray?
    ensures var r := RenderMember(m, level, stringify);
      |r| == 1 && r[0].ListEntry? && |r[0].items| == |m.value.items| && r[0].items[i] == stringify(m.value.items[i])
  {
  }
}
