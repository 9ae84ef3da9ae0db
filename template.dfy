/**
 * The Mustache-like placeholder engine of the generator (`replaceTemplateVars`):
 * a scalar pass that replaces every `{{key}}` of the data record, followed by a
 * block pass that expands every non-greedy `{{#key}}...{{/key}}` of an array-valued
 * key once per element.
 */
module Template {
  import opened Wrappers
  import opened Strings

  /** The values a data record holds, as the generator receives them from parsed JSON. */
  datatype Value =
    | Str(s: string)
    | Num(n: int)
    | Bool(b: bool)
    | Null
    | List(items: seq<Record>)
    | Obj(fields: Record)

  datatype Entry = Entry(key: string, value: Value)

  /** A plain object; `entries` is in `Object.keys` order. */
  datatype Record = Record(entries: seq<Entry>)

  /** The keys of a plain object are distinct. */
  predicate DistinctKeys(es: seq<Entry>)
  {
    forall i, j :: 0 <= i < j < |es| ==> es[i].key != es[j].key
  }

  /** The values `||` treats as false. */
  predicate Falsy(v: Value)
  {
    v == Str("") || v == Num(0) || v == Bool(false) || v == Null
  }

  /** `String(v)` for the values the engine substitutes. */
  function ToText(v: Value): string
  {
    match v
    case Str(s) => s
    case Num(n) => IntToString(n)
    case Bool(b) => if b then "true" else "false"
    case Null => "null"
    case List(items) => Join(seq(|items|, _ => "[object Object]"), ",")
    case Obj(_) => "[object Object]"
  }

  /** The text that replaces a placeholder: `String(v || '')`. */
  function Shown(v: Value): (t: string)
    ensures Falsy(v) ==> t == ""
    ensures !Falsy(v) ==> t == ToText(v)
    ensures v.Str? ==> t == v.s
  {
    if Falsy(v) then "" else ToText(v)
  }

  /** The value of the first entry named `k` (`data[k]`; object keys are unique). */
  function Lookup(es: seq<Entry>, k: string): (r: Option<Value>)
    ensures r.None? <==> forall i :: 0 <= i < |es| ==> es[i].key != k
    ensures r.Some? ==> exists i :: 0 <= i < |es| && es[i].key == k && es[i].value == r.value
  {
    if es == [] then None
    else if es[0].key == k then Some(es[0].value)
    else Lookup(es[1..], k)
  }

  function VarTag(k: string): string { "{{" + k + "}}" }
  function OpenTag(k: string): string { "{{#" + k + "}}" }
  function CloseTag(k: string): string { "{{/" + k + "}}" }

  /**
   * The scalar pass: for each key in order, every `{{key}}` of the text so far is
   * replaced by the key's shown value.
   */
  function ScalarPass(t: string, es: seq<Entry>): string
    decreases |es|
  {
    if es == [] then t
    else ScalarPass(ReplaceAll(t, VarTag(es[0].key), Shown(es[0].value)), es[1..])
  }

  /** The body rendered once per element, in order, concatenated (`map(...).join('')`). */
  function RenderItems(body: string, items: seq<Record>): string
    decreases |items|
  {
    if items == [] then ""
    else ScalarPass(body, items[0].entries) + RenderItems(body, items[1..])
  }

  /** A block match at the start of `s`: the open tag, and a close tag somewhere after it. */
  predicate BlockAt(s: string, k: string)
  {
    StartsWith(s, OpenTag(k)) && IndexOf(s[|OpenTag(k)|..], CloseTag(k)).Some?
  }

  /**
   * `s.replace(/{{#k}}([\s\S]*?){{\/k}}/g, ...)`: scanning left to right, each open tag
   * followed by a close tag is replaced, together with the body up to the first such
   * close tag, by the rendered items; scanning resumes after that close tag.
   */
  function ExpandBlocks(s: string, k: string, render: string -> string): string
    decreases |s|
  {
    if s == [] then []
    else if !StartsWith(s, OpenTag(k)) then [s[0]] + ExpandBlocks(s[1..], k, render)
    else
      var b := s[|OpenTag(k)|..];
      match IndexOf(b, CloseTag(k))
      case None => [s[0]] + ExpandBlocks(s[1..], k, render)
      case Some(j) => render(b[..j]) + ExpandBlocks(b[j + |CloseTag(k)|..], k, render)
  }

  /** The callback the block pass hands to `replace`: the captured body rendered once per element. */
  function Renderer(items: seq<Record>): string -> string
  {
    body => RenderItems(body, items)
  }

  /** The block pass: for each array-valued key in order, its blocks are expanded. */
  function BlockPass(t: string, es: seq<Entry>): string
    decreases |es|
  {
    if es == [] then t
    else if es[0].value.List? then BlockPass(ExpandBlocks(t, es[0].key, Renderer(es[0].value.items)), es[1..])
    else BlockPass(t, es[1..])
  }

  /** `replaceTemplateVars(template, data)`; `None` is a missing (`null`/`undefined`) record. */
  function Render(t: string, data: Option<Record>): (r: string)
    ensures data.None? ==> r == t
  {
    match data
    case None => t
    case Some(d) => BlockPass(ScalarPass(t, d.entries), d.entries)
  }

  /** A key whose tag does not occur is skipped by the scalar pass. */
  lemma {:induction false} ScalarPassAbsent(t: string, es: seq<Entry>)
    requires forall i :: 0 <= i < |es| ==> !Contains(t, VarTag(es[i].key))
    ensures ScalarPass(t, es) == t
    decreases |es|
  {
    if es != [] {
      ReplaceAbsent(t, VarTag(es[0].key), Shown(es[0].value));
      ScalarPassAbsent(t, es[1..]);
    }
  }

  /** Text without an open tag is left alone by block expansion. */
  lemma {:induction false} ExpandBlocksAbsent(s: string, k: string, render: string -> string)
    requires !Contains(s, OpenTag(k))
    ensures ExpandBlocks(s, k, render) == s
    decreases |s|
  {
    if s != [] {
      assert s[0..] == s;
      assert !OccursAt(s, OpenTag(k), 0);
      assert !Contains(s[1..], OpenTag(k)) by {
        forall i: nat ensures !OccursAt(s[1..], OpenTag(k), i) {
          if i <= |s[1..]| {
            assert s[1..][i..] == s[i + 1..];
            assert !OccursAt(s, OpenTag(k), i + 1);
          }
        }
      }
      ExpandBlocksAbsent(s[1..], k, render);
    }
  }

  lemma {:induction false} BlockPassAbsent(t: string, es: seq<Entry>)
    requires forall i :: 0 <= i < |es| ==> !Contains(t, OpenTag(es[i].key))
    ensures BlockPass(t, es) == t
    decreases |es|
  {
    if es != [] {
      if es[0].value.List? {
        ExpandBlocksAbsent(t, es[0].key, Renderer(es[0].value.items));
      }
      BlockPassAbsent(t, es[1..]);
    }
  }

  /**
   * Markup that mentions none of the record's keys, neither as `{{key}}` nor as an
   * open tag, comes back unchanged.
   */
  lemma {:induction false} RenderUntouched(t: string, d: Record)
    requires forall i :: 0 <= i < |d.entries| ==> !Contains(t, VarTag(d.entries[i].key))
    requires forall i :: 0 <= i < |d.entries| ==> !Contains(t, OpenTag(d.entries[i].key))
    ensures Render(t, Some(d)) == t
  {
    ScalarPassAbsent(t, d.entries);
    BlockPassAbsent(t, d.entries);
  }

  /** An array with no elements expands a block to nothing. */
  lemma {:induction false} RenderItemsEmpty(body: string)
    ensures RenderItems(body, []) == ""
  {
  }

  /** `replaceTemplateVars` as the source runs it: two passes over the keys of `data`. */
  method ReplaceTemplateVars(template: string, data: Option<Record>) returns (result: string)
    ensures result == Render(template, data)
  {
    if data.None? {
      return template;
    }
    var es := data.value.entries;
    result := ScalarPassLoop(template, es);
    var scalars := result;
    var i := 0;
    while i < |es|
      invariant 0 <= i <= |es|
      invariant BlockPass(result, es[i..]) == BlockPass(scalars, es)
    {
      assert es[i..][1..] == es[i + 1..];
      if es[i].value.List? {
        result := ExpandBlocksLoop(result, es[i].key, es[i].value.items);
      }
      i := i + 1;
    }
    assert es[i..] == [];
  }

  /** The `forEach` over the keys of a record that replaces every `{{key}}` by its value. */
  method ScalarPassLoop(template: string, es: seq<Entry>) returns (result: string)
    ensures result == ScalarPass(template, es)
  {
    result := template;
    var i := 0;
    while i < |es|
      invariant 0 <= i <= |es|
      invariant ScalarPass(result, es[i..]) == ScalarPass(template, es)
    {
      assert es[i..][1..] == es[i + 1..];
      result := ReplaceAll(result, VarTag(es[i].key), Shown(es[i].value));
      i := i + 1;
    }
    assert es[i..] == [];
  }

  lemma {:induction false} Regroup3(a: string, b: string, c: string)
    ensures (a + b) + c == a + (b + c)
  {
  }

  /**
   * The lazy `([\s\S]*?)`: at a block, the body handed to the callback is everything up
   * to the first close marker, so it holds no close marker itself, and the scan goes on
   * right after that marker.
   */
  lemma {:induction false} ExpandBlocksAtBlock(s: string, k: string, render: string -> string, b: string, j: nat)
    requires StartsWith(s, OpenTag(k)) && b == s[|OpenTag(k)|..] && IndexOf(b, CloseTag(k)) == Some(j)
    ensures OccursAt(b, CloseTag(k), j) && !Contains(b[..j], CloseTag(k))
    ensures ExpandBlocks(s, k, render) == render(b[..j]) + ExpandBlocks(b[j + |CloseTag(k)|..], k, render)
  {
    ExpandAtMatch(s, k, render, b, j);
    BodyBeforeClose(b, k, j);
  }

  lemma {:induction false} ExpandAtMatch(s: string, k: string, render: string -> string, b: string, j: nat)
    requires StartsWith(s, OpenTag(k)) && b == s[|OpenTag(k)|..] && IndexOf(b, CloseTag(k)) == Some(j)
    ensures ExpandBlocks(s, k, render) == render(b[..j]) + ExpandBlocks(b[j + |CloseTag(k)|..], k, render)
  {
    assert s != [];
  }

  lemma {:induction false} BodyBeforeClose(b: string, k: string, j: nat)
    requires IndexOf(b, CloseTag(k)) == Some(j)
    ensures OccursAt(b, CloseTag(k), j) && !Contains(b[..j], CloseTag(k))
  {
    IndexOfFirst(b, CloseTag(k));
    CleanBeforeFirst(b, CloseTag(k), j);
  }

  /** One step of the block scan elsewhere. */
  lemma {:induction false} ExpandBlocksElsewhere(s: string, k: string, render: string -> string)
    requires s != [] && !BlockAt(s, k)
    ensures ExpandBlocks(s, k, render) == [s[0]] + ExpandBlocks(s[1..], k, render)
  {
  }

  /** The global block replacement, scanning the text from left to right. */
  method ExpandBlocksLoop(s: string, k: string, items: seq<Record>) returns (out: string)
    ensures out == ExpandBlocks(s, k, Renderer(items))
  {
    out := "";
    var rest := s;
    while rest != []
      invariant out + ExpandBlocks(rest, k, Renderer(items)) == ExpandBlocks(s, k, Renderer(items))
      decreases |rest|
    {
      var found := None;
      if StartsWith(rest, OpenTag(k)) {
        found := IndexOf(rest[|OpenTag(k)|..], CloseTag(k));
      }
      if found.Some? {
        var b := rest[|OpenTag(k)|..];
        var j := found.value;
        var rendered := RenderItemsLoop(b[..j], items);
        var after := b[j + |CloseTag(k)|..];
        ExpandBlocksAtBlock(rest, k, Renderer(items), b, j);
        Regroup3(out, rendered, ExpandBlocks(after, k, Renderer(items)));
        out := out + rendered;
        rest := after;
      } else {
        ExpandBlocksElsewhere(rest, k, Renderer(items));
        Regroup3(out, [rest[0]], ExpandBlocks(rest[1..], k, Renderer(items)));
        out := out + [rest[0]];
        rest := rest[1..];
      }
    }
    assert out + [] == out;
  }

  /** The first element's rendering, then the rest. */
  lemma {:induction false} RenderItemsStep(body: string, items: seq<Record>, n: nat)
    requires n < |items|
    ensures RenderItems(body, items[n..]) == ScalarPass(body, items[n].entries) + RenderItems(body, items[n + 1..])
  {
    assert items[n..][0] == items[n];
    assert items[n..][1..] == items[n + 1..];
  }

  /** The replacement callback: one copy of the body per element, each with its own scalar pass. */
  method RenderItemsLoop(body: string, items: seq<Record>) returns (out: string)
    ensures out == RenderItems(body, items)
  {
    out := "";
    var n := 0;
    while n < |items|
      invariant 0 <= n <= |items|
      invariant out + RenderItems(body, items[n..]) == RenderItems(body, items)
    {
      var itemHtml := ScalarPassLoop(body, items[n].entries);
      RenderItemsStep(body, items, n);
      Regroup3(out, itemHtml, RenderItems(body, items[n + 1..]));
      out := out + itemHtml;
      n := n + 1;
    }
    assert items[n..] == [];
    assert out + "" == out;
  }
}
