/**
  The generic response renderer of the API explorer (script.js): the type
  icon of a value, how one `(key, value)` pair is displayed, and how a whole
  response becomes an ordered list of display nodes plus a raw JSON view.
  DOM elements are replaced by node records; styling is left out.
*/
module Renderer {
  import opened Text
  import opened Json

  // ---------------------------------------------------------------------
  // getTypeIcon
  // ---------------------------------------------------------------------

  /** The kinds `getTypeIcon` tells apart, in the order it tests for them. */
  datatype Kind = UrlText | PlainText | Number | Boolean | List | Record

  /**
    `typeof`/`Array.isArray` sniffing as `getTypeIcon` does it: a string
    starting with `http` is a URL before it is text, an array is a list
    before it is an object, and `null` is an object (`typeof null`).
  */
  function Classify(v: Value): Kind {
    match v
    case Str(s) => if StartsWith(s, "http") then UrlText else PlainText
    case Num(_) => Number
    case Bool(_) => Boolean
    case Arr(_) => List
    case Obj(_) => Record
    case Null => Record
  }

  const LinkIcon := "🔗"
  const TextIcon := "📝"
  const NumberIcon := "🔢"
  const BooleanIcon := "✓"
  const ListIcon := "📋"
  const RecordIcon := "📦"

  function Icon(k: Kind): string {
    match k
    case UrlText => LinkIcon
    case PlainText => TextIcon
    case Number => NumberIcon
    case Boolean => BooleanIcon
    case List => ListIcon
    case Record => RecordIcon
  }

  /** `getTypeIcon(value)`. */
  function TypeIcon(v: Value): string {
    Icon(Classify(v))
  }

  /** The icons are pairwise different, so the icon names the kind. */
  lemma IconNamesKind(k1: Kind, k2: Kind)
    requires Icon(k1) == Icon(k2)
    ensures k1 == k2
  {
  }

  /**
    The order of `getTypeIcon`'s tests: URL strings get the link icon even
    though they are strings, arrays the list icon even though they are
    objects, and `null` shares the object icon with plain objects.
  */
  lemma TypeIconCases(v: Value)
    ensures TypeIcon(v) == LinkIcon <==> v.Str? && StartsWith(v.s, "http")
    ensures TypeIcon(v) == TextIcon <==> v.Str? && !StartsWith(v.s, "http")
    ensures TypeIcon(v) == ListIcon <==> v.Arr?
    ensures TypeIcon(v) == RecordIcon <==> v.Obj? || v.Null?
  {
    if TypeIcon(v) == ListIcon { IconNamesKind(Classify(v), List); }
    if TypeIcon(v) == RecordIcon { IconNamesKind(Classify(v), Record); }
    if TypeIcon(v) == TextIcon { IconNamesKind(Classify(v), PlainText); }
    if TypeIcon(v) == LinkIcon { IconNamesKind(Classify(v), UrlText); }
  }

  // ---------------------------------------------------------------------
  // renderDataItem
  // ---------------------------------------------------------------------

  /** The placeholder shown for an empty array ("no data yet"). */
  const EmptyArrayText := "Chưa có dữ liệu"

  /** What the value part of an item shows. */
  datatype View =
    | Link(href: string, text: string)          // an anchor opening `href`, showing `text` and then the arrow marker
    | Placeholder(text: string)                 // the empty-array placeholder
    | ArraySummary(text: string, json: string)  // `Array (N items)` above the array's JSON
    | ObjectSummary(text: string, json: string) // `Object` above the object's JSON
    | Plain(text: string)                       // the value as text

  /** One display node: a section header, or a labelled item. */
  datatype Node =
    | Header(title: string)
    | Item(caption: string, large: bool, view: View)

  /** The key is shown large exactly when it reads `title` once lower-cased. */
  predicate IsTitleKey(key: string) {
    Lower(key) == "title"
  }

  function ViewOf(v: Value): View {
    match v
    case Str(s) => if StartsWith(s, "http") then Link(s, s) else Plain(s)
    case Arr(items) =>
      if items == [] then Placeholder(EmptyArrayText)
      else ArraySummary("Array (" + NatText(|items|) + " items)", Stringify(v))
    case Obj(_) => ObjectSummary("Object", Stringify(v))
    case _ => Plain(TextContent(Defined(v)))
  }

  /** `renderDataItem(key, value)`. */
  function RenderItem(key: string, v: Value): Node {
    Item(TypeIcon(v) + " " + key, IsTitleKey(key), ViewOf(v))
  }

  /**
    Emphasis depends on the key alone: it is on exactly for the five-letter
    keys that spell `title` in any mix of upper and lower case.
  */
  lemma TitleEmphasis(key: string, v: Value)
    ensures RenderItem(key, v).large <==>
      |key| == 5 && forall i :: 0 <= i < 5 ==> key[i] == "title"[i] || key[i] == "TITLE"[i]
  {
    var low := Lower(key);
    if low == "title" {
      forall i | 0 <= i < 5 ensures key[i] == "title"[i] || key[i] == "TITLE"[i] {
        assert LowerChar(key[i]) == "title"[i];
      }
    }
    if |key| == 5 && forall i :: 0 <= i < 5 ==> key[i] == "title"[i] || key[i] == "TITLE"[i] {
      assert forall i :: 0 <= i < 5 ==> low[i] == "title"[i];
    }
  }

  /**
    The view agrees with the icon, with one exception: `null` carries the
    object icon but is shown as plain (empty) text.
  */
  lemma ViewAgreesWithIcon(key: string, v: Value)
    ensures RenderItem(key, v).view.Link? <==> TypeIcon(v) == LinkIcon
    ensures RenderItem(key, v).view.Placeholder? || RenderItem(key, v).view.ArraySummary? <==> TypeIcon(v) == ListIcon
    ensures RenderItem(key, v).view.ObjectSummary? <==> TypeIcon(v) == RecordIcon && !v.Null?
    ensures RenderItem(key, v).view.Plain? <==>
      TypeIcon(v) == TextIcon || TypeIcon(v) == NumberIcon || TypeIcon(v) == BooleanIcon || v.Null?
    ensures v.Null? ==> TypeIcon(v) == RecordIcon && RenderItem(key, v).view == Plain("")
  {
    TypeIconCases(v);
    if TypeIcon(v) == LinkIcon { IconNamesKind(Classify(v), UrlText); }
    if TypeIcon(v) == NumberIcon { IconNamesKind(Classify(v), Number); }
    if TypeIcon(v) == BooleanIcon { IconNamesKind(Classify(v), Boolean); }
  }

  /** A URL string is shown as a link to itself whose visible text is exactly the string. */
  lemma UrlShownAsLink(key: string, s: string)
    requires StartsWith(s, "http")
    ensures RenderItem(key, Str(s)).view == Link(s, s)
    ensures RenderItem(key, Str(s)).caption == LinkIcon + " " + key
  {
  }

  /**
    An array shows the placeholder exactly when it is empty; otherwise its
    summary is `Array (N items)` where N reads back as its length, followed
    by its JSON.
  */
  lemma ArrayView(key: string, items: seq<Value>)
    ensures RenderItem(key, Arr(items)).view.Placeholder? <==> items == []
    ensures items != [] ==>
      exists n: string :: && (forall k :: 0 <= k < |n| ==> IsDigit(n[k]))
                          && DigitsValue(n) == |items|
                          && RenderItem(key, Arr(items)).view
                             == ArraySummary("Array (" + n + " items)", Stringify(Arr(items)))
  {
    if items != [] {
      NatTextRoundTrip(|items|);
      var n := NatText(|items|);
      assert RenderItem(key, Arr(items)).view == ArraySummary("Array (" + n + " items)", Stringify(Arr(items)));
    }
  }

  // ---------------------------------------------------------------------
  // renderData
  // ---------------------------------------------------------------------

  /** Why `renderData` throws: reading `.data` of `null`, or `Object.entries(null)` on a `null` element. */
  datatype RenderError = NullRead | NullEntries

  /**
    The outcome of `renderData`: the nodes left in the result area and the
    raw JSON text, or the nodes appended before it threw (the raw view is
    then not updated).
  */
  datatype Outcome =
    | Rendered(nodes: seq<Node>, raw: string)
    | Failed(partial: seq<Node>, error: RenderError)

  /** The single-level unwrap: `data.data` when it is truthy, otherwise `data` itself. */
  function Unwrap(data: Value): Value
    requires !data.Null?
  {
    var inner := Get(data, "data");
    if PropTruthy(inner) then inner.value else data
  }

  /** `Item ${index + 1}`. */
  function ItemLabel(i: nat): string {
    "Item " + NatText(i + 1)
  }

  /** One item per `Object.entries` pair of an object, in entry order. */
  function EntryItems(fields: seq<Field>): (r: seq<Node>)
    ensures |r| == |fields|
  {
    seq(|fields|, k requires 0 <= k < |fields| => RenderItem(fields[k].key, fields[k].value))
  }

  /** `Object.entries` of an array pairs each element with its index as a key: "0", "1", ... */
  function IndexItems(items: seq<Value>): (r: seq<Node>)
    ensures |r| == |items|
  {
    seq(|items|, k requires 0 <= k < |items| => RenderItem(NatText(k), items[k]))
  }

  /** The items under the header of array element `i` (any element but `null`). */
  function ElementItems(i: nat, x: Value): seq<Node>
    requires !x.Null?
  {
    match x
    case Obj(fields) => EntryItems(fields)
    case Arr(ys) => IndexItems(ys)
    case _ => [RenderItem(ItemLabel(i), x)]
  }

  /** The header and items for array element `i`. */
  function Section(i: nat, x: Value): seq<Node>
    requires !x.Null?
  {
    [Header(ItemLabel(i))] + ElementItems(i, x)
  }

  predicate NoNulls(xs: seq<Value>) {
    forall k :: 0 <= k < |xs| ==> !xs[k].Null?
  }

  /** The sections of a null-free array, element by element. */
  function Sections(xs: seq<Value>): seq<Node>
    requires NoNulls(xs)
  {
    if xs == [] then [] else Sections(xs[..|xs| - 1]) + Section(|xs| - 1, xs[|xs| - 1])
  }

  /** The position of the first `null` element, or the length when there is none. */
  function NullIndex(xs: seq<Value>): (r: nat)
    ensures r <= |xs| && NoNulls(xs[..r])
    ensures r < |xs| ==> xs[r].Null?
  {
    if xs == [] then 0
    else if xs[0].Null? then 0
    else
      var r := 1 + NullIndex(xs[1..]);
      assert forall k :: 1 <= k < r ==> xs[..r][k] == xs[1..][..r - 1][k - 1];
      r
  }

  /** NullIndex finds the first `null`, wherever it is. */
  lemma {:induction false} NullIndexAt(xs: seq<Value>, i: nat)
    requires i <= |xs| && NoNulls(xs[..i])
    requires i < |xs| ==> xs[i].Null?
    ensures NullIndex(xs) == i
  {
    if xs != [] && i > 0 {
      assert xs[..i][0] == xs[0];
      assert xs[1..][..i - 1] == xs[..i][1..];
      NullIndexAt(xs[1..], i - 1);
    }
  }

  /** What `renderData(data)` leaves behind. */
  function RenderSpec(data: Value): Outcome {
    if data.Null? then Failed([], NullRead)
    else
      var target := Unwrap(data);
      match target
      case Arr(xs) =>
        var k := NullIndex(xs);
        if k == |xs| then Rendered(Sections(xs), Stringify(data))
        else Failed(Sections(xs[..k]) + [Header(ItemLabel(k))], NullEntries)
      case Obj(fields) => Rendered(EntryItems(fields), Stringify(data))
      case _ => Rendered([RenderItem("Result", target)], Stringify(data))
  }

  lemma SectionsSnoc(xs: seq<Value>, i: nat)
    requires i < |xs| && NoNulls(xs[..i]) && !xs[i].Null?
    ensures NoNulls(xs[..i + 1])
    ensures Sections(xs[..i + 1]) == Sections(xs[..i]) + Section(i, xs[i])
  {
    assert xs[..i + 1][..i] == xs[..i];
    assert forall k :: 0 <= k < i ==> xs[..i][k] == xs[..i + 1][k];
  }

  /** The entries of one object-typed element, appended one by one (the inner `forEach`). */
  method AppendEntries(nodes: seq<Node>, entries: seq<Node>) returns (out: seq<Node>)
    ensures out == nodes + entries
  {
    out := nodes;
    var j := 0;
    while j < |entries|
      invariant 0 <= j <= |entries|
      invariant out == nodes + entries[..j]
    {
      out := out + [entries[j]];
      j := j + 1;
    }
    assert entries[..j] == entries;
  }

  /** The items of element `i`: its entries when it is object-typed, else the element itself. */
  method AppendElement(nodes: seq<Node>, i: nat, x: Value) returns (out: seq<Node>)
    requires !x.Null?
    ensures out == nodes + ElementItems(i, x)
  {
    if x.Obj? {
      out := AppendEntries(nodes, EntryItems(x.fields));
    } else if x.Arr? {
      out := AppendEntries(nodes, IndexItems(x.items));
    } else {
      out := nodes + [RenderItem(ItemLabel(i), x)];
    }
  }

  /**
    The `forEach` over an array to render: header, then the element's
    items, element by element; it stops at the header of a `null` element,
    where `Object.entries` throws.
  */
  method AppendSections(xs: seq<Value>) returns (nodes: seq<Node>, complete: bool)
    ensures complete <==> NullIndex(xs) == |xs|
    ensures complete ==> nodes == Sections(xs)
    ensures !complete ==> nodes == Sections(xs[..NullIndex(xs)]) + [Header(ItemLabel(NullIndex(xs)))]
  {
    nodes := [];
    var i := 0;
    while i < |xs|
      invariant 0 <= i <= |xs|
      invariant NoNulls(xs[..i])
      invariant nodes == Sections(xs[..i])
    {
      var x := xs[i];
      ghost var before := nodes;
      nodes := nodes + [Header(ItemLabel(i))];
      if x.Null? {
        NullIndexAt(xs, i);
        assert nodes == Sections(xs[..NullIndex(xs)]) + [Header(ItemLabel(NullIndex(xs)))];
        return nodes, false;
      }
      nodes := AppendElement(nodes, i, x);
      SectionsSnoc(xs, i);
      assert nodes == (before + [Header(ItemLabel(i))]) + ElementItems(i, x);
      assert Section(i, x) == [Header(ItemLabel(i))] + ElementItems(i, x);
      assert nodes == before + Section(i, x);
      i := i + 1;
    }
    assert xs[..i] == xs;
    NullIndexAt(xs, |xs|);
    complete := true;
  }

  /** `renderData(data)`: clears the result area, then appends nodes element by element and entry by entry. */
  method RenderData(data: Value) returns (out: Outcome)
    ensures out == RenderSpec(data)
  {
    if data.Null? {
      return Failed([], NullRead);
    }
    var target := Unwrap(data);
    if target.Arr? {
      var nodes, complete := AppendSections(target.items);
      if complete {
        out := Rendered(nodes, Stringify(data));
      } else {
        out := Failed(nodes, NullEntries);
      }
    } else if target.Obj? {
      var nodes := AppendEntries([], EntryItems(target.fields));
      out := Rendered(nodes, Stringify(data));
    } else {
      out := Rendered([RenderItem("Result", target)], Stringify(data));
    }
  }

  // ---------------------------------------------------------------------
  // Properties of renderData
  // ---------------------------------------------------------------------

  /** The header titles among `nodes`, in order. */
  function Headers(nodes: seq<Node>): seq<string> {
    if nodes == [] then []
    else Headers(nodes[..|nodes| - 1]) + (if nodes[|nodes| - 1].Header? then [nodes[|nodes| - 1].title] else [])
  }

  lemma {:induction false} HeadersAppend(a: seq<Node>, b: seq<Node>)
    ensures Headers(a + b) == Headers(a) + Headers(b)
    decreases |b|
  {
    if b != [] {
      assert (a + b)[..|a + b| - 1] == a + b[..|b| - 1];
      HeadersAppend(a, b[..|b| - 1]);
    } else {
      assert a + b == a;
    }
  }

  lemma {:induction false} NoHeadersAmongItems(nodes: seq<Node>)
    requires forall k :: 0 <= k < |nodes| ==> nodes[k].Item?
    ensures Headers(nodes) == []
    decreases |nodes|
  {
    if nodes != [] {
      NoHeadersAmongItems(nodes[..|nodes| - 1]);
    }
  }

  /** `Item 1` .. `Item n`. */
  function ItemLabels(n: nat): (r: seq<string>)
    ensures |r| == n
  {
    if n == 0 then [] else ItemLabels(n - 1) + [ItemLabel(n - 1)]
  }

  lemma HeaderOfSection(i: nat, x: Value)
    requires !x.Null?
    ensures Headers(Section(i, x)) == [ItemLabel(i)]
  {
    HeadersAppend([Header(ItemLabel(i))], ElementItems(i, x));
    NoHeadersAmongItems(ElementItems(i, x));
    assert [Header(ItemLabel(i))][..0] == [];
  }

  /** A rendered array shows one header per element, `Item 1`, `Item 2`, ..., in element order. */
  lemma {:induction false} SectionHeaders(xs: seq<Value>)
    requires NoNulls(xs)
    ensures Headers(Sections(xs)) == ItemLabels(|xs|)
    decreases |xs|
  {
    if xs != [] {
      var n := |xs| - 1;
      var x := xs[n];
      assert NoNulls(xs[..n]);
      assert Sections(xs) == Sections(xs[..n]) + Section(n, x);
      SectionHeaders(xs[..n]);
      HeadersAppend(Sections(xs[..n]), Section(n, x));
      HeaderOfSection(n, x);
      assert ItemLabels(n + 1) == ItemLabels(n) + [ItemLabel(n)];
    }
  }

  /** Rendering a whole array: one section per element, each header followed by that element's items. */
  lemma RenderArray(data: Value, xs: seq<Value>)
    requires !data.Null? && Unwrap(data) == Arr(xs) && NoNulls(xs)
    ensures RenderSpec(data).Rendered?
    ensures Headers(RenderSpec(data).nodes) == ItemLabels(|xs|)
  {
    assert xs[..|xs|] == xs;
    NullIndexAt(xs, |xs|);
    SectionHeaders(xs);
  }

  /**
    A `null` element makes `renderData` throw after writing the header of
    that element: the result area then holds exactly the headers
    `Item 1` .. `Item k+1` and no raw view is produced.
  */
  lemma NullElementAborts(data: Value, xs: seq<Value>, k: nat)
    requires !data.Null? && Unwrap(data) == Arr(xs)
    requires k < |xs| && xs[k].Null? && NoNulls(xs[..k])
    ensures RenderSpec(data).Failed? && RenderSpec(data).error == NullEntries
    ensures Headers(RenderSpec(data).partial) == ItemLabels(k + 1)
  {
    NullIndexAt(xs, k);
    var pre := xs[..k];
    assert RenderSpec(data) == Failed(Sections(pre) + [Header(ItemLabel(k))], NullEntries);
    assert |pre| == k;
    SectionHeaders(pre);
    HeadersAppend(Sections(pre), [Header(ItemLabel(k))]);
    assert Headers([Header(ItemLabel(k))]) == [ItemLabel(k)] by {
      assert [Header(ItemLabel(k))][..0] == [];
    }
    assert ItemLabels(k + 1) == ItemLabels(k) + [ItemLabel(k)];
  }

  /**
    The unwrap tests truthiness and goes one level only: a wrapper whose
    `data` entry is truthy shows that entry's own properties (even if it has
    a `data` entry of its own), while the raw view keeps the whole wrapper.
  */
  lemma UnwrapOneLevel(fields: seq<Field>, inner: seq<Field>)
    requires Lookup(fields, "data") == Defined(Obj(inner))
    ensures RenderSpec(Obj(fields)) == Rendered(EntryItems(inner), Stringify(Obj(fields)))
  {
  }

  /** A falsy `data` entry (`0`, `""`, `false`, `null`) is not unwrapped: the wrapper's own entries are shown. */
  lemma FalsyDataNotUnwrapped(fields: seq<Field>)
    requires !PropTruthy(Lookup(fields, "data"))
    ensures RenderSpec(Obj(fields)) == Rendered(EntryItems(fields), Stringify(Obj(fields)))
  {
  }

  /** A scalar to render gives exactly one item, labelled `Result`. */
  lemma ScalarGivesResult(data: Value)
    requires !data.Null? && !Unwrap(data).Arr? && !Unwrap(data).Obj?
    ensures RenderSpec(data) == Rendered([RenderItem("Result", Unwrap(data))], Stringify(data))
    ensures RenderSpec(data).nodes[0].caption == TypeIcon(Unwrap(data)) + " Result"
  {
  }

  /** Whenever `renderData` completes, its raw view serialises the value it was given, before unwrapping. */
  lemma RawViewIsOriginal(data: Value)
    requires RenderSpec(data).Rendered?
    ensures RenderSpec(data).raw == Stringify(data)
  {
  }

  /** `JSON.stringify({a: 1}, null, 2)` is the two-space-indented text of the object. */
  lemma SmallObjectJson()
    ensures Stringify(Obj([Field("a", Num(1))])) == "{\n  \"a\": 1\n}"
  {
    assert Serialize(Num(1), 1) == "1";
    assert Quote("a") == "\"a\"" by {
      assert EscapeText("a") == "a";
    }
  }

  /**
    The wrapped example: `{success: true, data: {title, url, tags: [], meta: {a: 1}}}`
    renders four items; `title` is emphasised, `url` is a link, `tags` shows
    the placeholder and `meta` the word `Object` with its indented JSON.
  */
  lemma WrappedExample()
    ensures var meta := Obj([Field("a", Num(1))]);
      var inner := [Field("title", Str("X")), Field("url", Str("http://a/b")),
                    Field("tags", Arr([])), Field("meta", meta)];
      var out := RenderSpec(Obj([Field("success", Bool(true)), Field("data", Obj(inner))]));
      && out.Rendered? && |out.nodes| == 4
      && out.nodes[0].large && !out.nodes[1].large
      && out.nodes[1].view == Link("http://a/b", "http://a/b")
      && out.nodes[2].view == Placeholder(EmptyArrayText)
      && out.nodes[3].view == ObjectSummary("Object", "{\n  \"a\": 1\n}")
  {
    var meta := Obj([Field("a", Num(1))]);
    var inner := [Field("title", Str("X")), Field("url", Str("http://a/b")),
                  Field("tags", Arr([])), Field("meta", meta)];
    var fields := [Field("success", Bool(true)), Field("data", Obj(inner))];
    UnwrapOneLevel(fields, inner);
    ExampleItems();
    var nodes := EntryItems(inner);
    assert nodes[0] == RenderItem("title", Str("X"));
    assert nodes[1] == RenderItem("url", Str("http://a/b"));
    assert nodes[2] == RenderItem("tags", Arr([]));
    assert nodes[3] == RenderItem("meta", meta);
  }

  /** The four items of the wrapped example, one at a time. */
  lemma ExampleItems()
    ensures RenderItem("title", Str("X")).large
    ensures !RenderItem("url", Str("http://a/b")).large
    ensures RenderItem("url", Str("http://a/b")).view == Link("http://a/b", "http://a/b")
    ensures RenderItem("tags", Arr([])).view == Placeholder(EmptyArrayText)
    ensures RenderItem("meta", Obj([Field("a", Num(1))])).view == ObjectSummary("Object", "{\n  \"a\": 1\n}")
  {
    assert Lower("title") == "title";
    assert Lower("url") != "title" by {
      assert |Lower("url")| == 3;
    }
    SmallObjectJson();
  }

  /** The bare-array example `[{x: 1}, {x: 2}]` renders two sections, each with the single item `x`. */
  lemma BareArrayExample()
    ensures RenderSpec(Arr([Obj([Field("x", Num(1))]), Obj([Field("x", Num(2))])])).nodes
      == [Header("Item 1"), RenderItem("x", Num(1)), Header("Item 2"), RenderItem("x", Num(2))]
  {
    var xs := [Obj([Field("x", Num(1))]), Obj([Field("x", Num(2))])];
    assert Unwrap(Arr(xs)) == Arr(xs);
    NullIndexAt(xs, 2);
    assert ItemLabel(0) == "Item 1" && ItemLabel(1) == "Item 2";
    assert Section(0, xs[0]) == [Header("Item 1"), RenderItem("x", Num(1))];
    assert Section(1, xs[1]) == [Header("Item 2"), RenderItem("x", Num(2))];
    assert xs[..1][..0] == [];
    assert Sections(xs[..1]) == Section(0, xs[0]);
    assert xs[..2] == xs && xs[..1] == xs[..|xs| - 1];
    assert Sections(xs) == Sections(xs[..1]) + Section(1, xs[1]);
  }
}
