/**
 * Fragment markup seen as a sequence of pieces: literal text, `{{key}}` slots and
 * `{{#key}}` / `{{/key}}` block markers. On markup whose literal text has no opening
 * brace, and whose substituted values have none either, the string-level engine of
 * `Template` is exactly a rewrite of the pieces; this module proves that and states
 * on pieces what the engine does.
 */
module Pieces {
  import opened Wrappers
  import opened Strings
  import opened Template

  /** Literal markup between placeholders: it never contains an opening brace. */
  type LitText = s: string | '{' !in s witness ""

  datatype Piece = Lit(text: LitText) | Slot(key: string) | Open(key: string) | Close(key: string)

  function TagText(p: Piece): string
  {
    match p
    case Lit(t) => t
    case Slot(k) => VarTag(k)
    case Open(k) => OpenTag(k)
    case Close(k) => CloseTag(k)
  }

  /** The markup the pieces spell. */
  function Flatten(ps: seq<Piece>): string
  {
    if ps == [] then "" else TagText(ps[0]) + Flatten(ps[1..])
  }

  /** A key that cannot be confused with a marker: no braces, and no leading `#` or `/`. */
  predicate GoodKey(k: string)
  {
    |k| > 0 && '{' !in k && '}' !in k && k[0] != '#' && k[0] != '/'
  }

  predicate GoodPieces(ps: seq<Piece>)
  {
    forall i :: 0 <= i < |ps| ==> !ps[i].Lit? ==> GoodKey(ps[i].key)
  }

  /** What the engine needs of a record's own entries: good keys, and no opening brace in a string value. */
  predicate FlatGood(es: seq<Entry>)
  {
    forall i :: 0 <= i < |es| ==> GoodKey(es[i].key) && (es[i].value.Str? ==> '{' !in es[i].value.s)
  }

  /** A data record fit for the pieces model: itself and every element of its arrays. */
  predicate GoodData(es: seq<Entry>)
  {
    FlatGood(es) &&
    forall i :: 0 <= i < |es| ==> es[i].value.List? ==>
      forall j :: 0 <= j < |es[i].value.items| ==> FlatGood(es[i].value.items[j].entries)
  }

  lemma {:induction false} JoinNoBrace(parts: seq<string>, sep: string)
    requires '{' !in sep
    requires forall i :: 0 <= i < |parts| ==> '{' !in parts[i]
    ensures '{' !in Join(parts, sep)
  {
    if |parts| > 1 {
      JoinNoBrace(parts[1..], sep);
    }
  }

  lemma {:induction false} ShownNoBrace(v: Value)
    requires v.Str? ==> '{' !in v.s
    ensures '{' !in Shown(v)
  {
    if !Falsy(v) && v.List? {
      JoinNoBrace(seq(|v.items|, _ => "[object Object]"), ",");
    }
  }

  /** The shown value of a key, as literal text. */
  function LookupText(es: seq<Entry>, k: string): (t: LitText)
    requires FlatGood(es) && Lookup(es, k).Some?
    ensures t == Shown(Lookup(es, k).value)
  {
    var v := Lookup(es, k).value;
    ShownNoBrace(v);
    Shown(v)
  }

  /** One piece after the scalar pass of record `es`. */
  function Subst(p: Piece, es: seq<Entry>): (q: Piece)
    requires FlatGood(es)
    ensures p.Slot? && Lookup(es, p.key).Some? ==> q == Lit(LookupText(es, p.key))
    ensures !(p.Slot? && Lookup(es, p.key).Some?) ==> q == p
  {
    if p.Slot? && Lookup(es, p.key).Some? then Lit(LookupText(es, p.key)) else p
  }

  /** The scalar pass on pieces: each slot whose key the record has becomes its shown value. */
  function PScalar(ps: seq<Piece>, es: seq<Entry>): (qs: seq<Piece>)
    requires FlatGood(es)
    ensures |qs| == |ps|
    ensures forall i :: 0 <= i < |ps| ==> qs[i] == Subst(ps[i], es)
  {
    seq(|ps|, i requires 0 <= i < |ps| => Subst(ps[i], es))
  }

  /** The index of the first piece equal to `q`. */
  function PFind(ps: seq<Piece>, q: Piece): (r: Option<nat>)
    ensures r.Some? ==> r.value < |ps| && ps[r.value] == q
    ensures r.Some? ==> forall i :: 0 <= i < r.value ==> ps[i] != q
    ensures r.None? ==> forall i :: 0 <= i < |ps| ==> ps[i] != q
  {
    if ps == [] then None
    else if ps[0] == q then Some(0)
    else match PFind(ps[1..], q)
      case None => None
      case Some(j) => Some(j + 1)
  }

  /** The body once per element, each with that element's scalar pass. */
  function PItems(body: seq<Piece>, items: seq<Record>): seq<Piece>
    requires forall j :: 0 <= j < |items| ==> FlatGood(items[j].entries)
  {
    if items == [] then []
    else PScalar(body, items[0].entries) + PItems(body, items[1..])
  }

  /** Block expansion on pieces: an open marker up to the first matching close marker. */
  function PExpand(ps: seq<Piece>, k: string, items: seq<Record>): seq<Piece>
    requires forall j :: 0 <= j < |items| ==> FlatGood(items[j].entries)
    decreases |ps|
  {
    if ps == [] then []
    else if ps[0] == Open(k) && PFind(ps[1..], Close(k)).Some? then
      var j := PFind(ps[1..], Close(k)).value;
      PItems(ps[1..][..j], items) + PExpand(ps[1..][j + 1..], k, items)
    else [ps[0]] + PExpand(ps[1..], k, items)
  }

  function PBlockPass(ps: seq<Piece>, es: seq<Entry>): seq<Piece>
    requires GoodData(es)
    decreases |es|
  {
    if es == [] then ps
    else if es[0].value.List? then PBlockPass(PExpand(ps, es[0].key, es[0].value.items), es[1..])
    else PBlockPass(ps, es[1..])
  }

  /** The engine on pieces: the scalar pass, then the block pass. */
  function PRender(ps: seq<Piece>, d: Record): seq<Piece>
    requires GoodData(d.entries)
  {
    PBlockPass(PScalar(ps, d.entries), d.entries)
  }

  // Markup-level facts about the tags.

  /** No tag of the engine starts inside literal text. */
  lemma {:induction false} LitSkip(t: LitText, rest: string, T: string)
    requires |T| > 0 && T[0] == '{'
    ensures NoneStartIn(t, rest, T)
  {
    forall i | 0 <= i < |t| ensures !StartsWith((t + rest)[i..], T) {
      assert (t + rest)[i..][0] == t[i];
    }
  }

  /** Every tag is `{{`, a brace-free middle, and `}}`. */
  function Middle(p: Piece): string
    requires !p.Lit?
  {
    match p
    case Slot(k) => k
    case Open(k) => "#" + k
    case Close(k) => "/" + k
  }

  predicate GoodMiddle(m: string)
  {
    |m| > 0 && '{' !in m && '}' !in m
  }

  lemma {:induction false} TagShape(p: Piece)
    requires !p.Lit? && GoodKey(p.key)
    ensures TagText(p) == "{{" + Middle(p) + "}}"
    ensures GoodMiddle(Middle(p))
  {
    match p
    case Slot(k) =>
    case Open(k) =>
      assert "{{#" == "{{" + "#";
      assert "{{#" + k + "}}" == "{{" + ("#" + k) + "}}";
    case Close(k) =>
      assert "{{/" == "{{" + "/";
      assert "{{/" + k + "}}" == "{{" + ("/" + k) + "}}";
  }

  lemma {:induction false} SameAt(X: string, T: string, i: nat)
    requires StartsWith(X, T) && i < |T|
    ensures X[i] == T[i]
  {
    assert X[..|T|][i] == X[i];
  }

  /** A tag can start at the first position of another tag only if the two are the same tag. */
  lemma {:induction false} TagProbe(m: string, n: string, rest: string)
    requires GoodMiddle(m) && GoodMiddle(n)
    requires StartsWith(("{{" + m + "}}") + rest, "{{" + n + "}}")
    ensures m == n
  {
    var X := ("{{" + m + "}}") + rest;
    var T := "{{" + n + "}}";
    assert X[..|T|] == T;
    if |m| < |n| {
      SameAt(X, T, 2 + |m|);
      assert false;
    } else if |m| > |n| {
      SameAt(X, T, 2 + |n|);
      assert false;
    } else {
      forall i | 0 <= i < |m| ensures m[i] == n[i] {
        assert X[2 + i] == m[i];
        assert T[2 + i] == n[i];
      }
    }
  }

  /** No tag starts strictly inside another tag. */
  lemma {:induction false} TagInterior(m: string, rest: string, T: string)
    requires GoodMiddle(m)
    requires |T| >= 2 && T[0] == '{' && T[1] == '{'
    ensures forall i :: 1 <= i < |"{{" + m + "}}"| ==> !StartsWith((("{{" + m + "}}") + rest)[i..], T)
  {
    var X := ("{{" + m + "}}") + rest;
    forall i | 1 <= i < |"{{" + m + "}}"| ensures !StartsWith(X[i..], T) {
      if i == 1 {
        assert X[i..][1] == m[0];
        assert m[0] in m;
      } else if i < 2 + |m| {
        assert X[i..][0] == m[i - 2];
        assert m[i - 2] in m;
      } else {
        assert X[i..][0] == '}';
      }
    }
  }

  /** A tag of key `n` starts nowhere inside a piece other than that very tag. */
  lemma {:induction false} PieceSkip(p: Piece, rest: string, n: string)
    requires p.Lit? || GoodKey(p.key)
    requires GoodMiddle(n)
    requires p.Lit? || Middle(p) != n
    ensures NoneStartIn(TagText(p), rest, "{{" + n + "}}")
  {
    var T := "{{" + n + "}}";
    if p.Lit? {
      LitSkip(p.text, rest, T);
    } else {
      TagShape(p);
      var m := Middle(p);
      TagInterior(m, rest, T);
      assert (TagText(p) + rest)[0..] == TagText(p) + rest;
      if StartsWith(TagText(p) + rest, T) {
        TagProbe(m, n, rest);
      }
    }
  }

  lemma {:induction false} TagOfKey(q: Piece)
    requires !q.Lit? && GoodKey(q.key)
    ensures TagText(q) == "{{" + Middle(q) + "}}" && GoodMiddle(Middle(q))
  {
    TagShape(q);
  }

  /** Two pieces with the same middle are one piece (given good keys). */
  lemma {:induction false} MiddleInjective(p: Piece, q: Piece)
    requires !p.Lit? && !q.Lit? && GoodKey(p.key) && GoodKey(q.key)
    requires Middle(p) == Middle(q)
    ensures p == q
  {
    var m := Middle(p);
    if p.Slot? {
      assert m[0] != '#' && m[0] != '/';
    } else if p.Open? {
      assert m[0] == '#';
      assert m[1..] == p.key;
    } else {
      assert m[0] == '/';
      assert m[1..] == p.key;
    }
  }

  lemma {:induction false} FlattenConcat(a: seq<Piece>, b: seq<Piece>)
    ensures Flatten(a + b) == Flatten(a) + Flatten(b)
  {
    if a != [] {
      assert (a + b)[0] == a[0];
      assert (a + b)[1..] == a[1..] + b;
      FlattenConcat(a[1..], b);
      assert Flatten(a + b) == TagText(a[0]) + Flatten(a[1..] + b);
    } else {
      assert a + b == b;
    }
  }

  /** A piece other than the searched tag only shifts where the search finds it. */
  lemma {:induction false} FindPast(p: Piece, rest: string, q: Piece)
    requires p.Lit? || GoodKey(p.key)
    requires !q.Lit? && GoodKey(q.key) && p != q
    ensures IndexOf(TagText(p) + rest, TagText(q)) ==
      Shift(IndexOf(rest, TagText(q)), |TagText(p)|)
  {
    TagOfKey(q);
    if !p.Lit? && Middle(p) == Middle(q) {
      MiddleInjective(p, q);
    }
    PieceSkip(p, rest, Middle(q));
    IndexOfSkip(TagText(p), rest, TagText(q));
  }

  lemma {:induction false} Regroup(s: string, t: string, f: string, rest: string)
    requires s == t + f
    ensures s + rest == t + (f + rest)
  {
  }

  lemma {:induction false} FoundFirst(T: string, y: string)
    ensures IndexOf(T + y, T) == Some(0)
  {
    assert (T + y)[..|T|] == T;
  }

  lemma {:induction false} SearchRegroup(s: string, t: string, f: string, rest: string, T: string)
    requires s == t + f
    requires IndexOf(f + rest, T) == Shift(IndexOf(rest, T), |f|)
    requires IndexOf(t + (f + rest), T) == Shift(IndexOf(f + rest, T), |t|)
    ensures IndexOf(s + rest, T) == Shift(IndexOf(rest, T), |s|)
  {
    Regroup(s, t, f, rest);
  }

  /** Searching past pieces that are not the tag: the result is shifted by their length. */
  lemma {:induction false} FindAfter(a: seq<Piece>, rest: string, q: Piece)
    requires GoodPieces(a) && !q.Lit? && GoodKey(q.key)
    requires forall i :: 0 <= i < |a| ==> a[i] != q
    ensures IndexOf(Flatten(a) + rest, TagText(q)) ==
      Shift(IndexOf(rest, TagText(q)), |Flatten(a)|)
  {
    if a == [] {
      assert Flatten(a) + rest == rest;
    } else {
      GoodTail(a, 1);
      FindAfter(a[1..], rest, q);
      FindPast(a[0], Flatten(a[1..]) + rest, q);
      SearchRegroup(Flatten(a), TagText(a[0]), Flatten(a[1..]), rest, TagText(q));
    }
  }

  lemma {:induction false} FoundAt(x: string, T: string, y: string)
    requires IndexOf(x + (T + y), T) == Shift(IndexOf(T + y, T), |x|)
    ensures IndexOf(x + T + y, T) == Some(|x|)
  {
    FoundFirst(T, y);
    Regroup(x + T, x, T, y);
  }

  /** The first piece equal to the tag is where the markup search finds the tag. */
  lemma {:induction false} FlattenFindSome(a: seq<Piece>, b: seq<Piece>, q: Piece)
    requires GoodPieces(a) && !q.Lit? && GoodKey(q.key)
    requires forall i :: 0 <= i < |a| ==> a[i] != q
    ensures IndexOf(Flatten(a) + TagText(q) + Flatten(b), TagText(q)) == Some(|Flatten(a)|)
  {
    FindAfter(a, TagText(q) + Flatten(b), q);
    FoundAt(Flatten(a), TagText(q), Flatten(b));
  }

  /** Markup without the tag's piece does not contain the tag. */
  lemma {:induction false} FlattenFindNone(a: seq<Piece>, q: Piece)
    requires GoodPieces(a) && !q.Lit? && GoodKey(q.key)
    requires forall i :: 0 <= i < |a| ==> a[i] != q
    ensures IndexOf(Flatten(a), TagText(q)) == None
  {
    FindAfter(a, "", q);
    assert Flatten(a) + "" == Flatten(a);
    TagOfKey(q);
  }

  lemma {:induction false} GoodTail(ps: seq<Piece>, i: nat)
    requires GoodPieces(ps) && i <= |ps|
    ensures GoodPieces(ps[i..])
  {
    forall j | 0 <= j < |ps[i..]| ensures !ps[i..][j].Lit? ==> GoodKey(ps[i..][j].key) {
      assert ps[i..][j] == ps[i + j];
    }
  }

  lemma {:induction false} GoodPrefix(ps: seq<Piece>, i: nat)
    requires GoodPieces(ps) && i <= |ps|
    ensures GoodPieces(ps[..i])
  {
    forall j | 0 <= j < i ensures !ps[..i][j].Lit? ==> GoodKey(ps[..i][j].key) {
      assert ps[..i][j] == ps[j];
    }
  }

  /** The slots of key `k` replaced by the literal `v`. */
  function SubstSlot(ps: seq<Piece>, k: string, v: LitText): (qs: seq<Piece>)
    ensures |qs| == |ps|
    ensures forall i :: 0 <= i < |ps| ==> qs[i] == if ps[i] == Slot(k) then Lit(v) else ps[i]
  {
    if ps == [] then []
    else [if ps[0] == Slot(k) then Lit(v) else ps[0]] + SubstSlot(ps[1..], k, v)
  }

  lemma {:induction false} FlattenCons(p: Piece, ps: seq<Piece>)
    ensures Flatten([p] + ps) == TagText(p) + Flatten(ps)
  {
    assert ([p] + ps)[0] == p;
    assert ([p] + ps)[1..] == ps;
  }

  /** One key's replacement on the markup is the replacement of its slots by the value. */
  lemma {:induction false} FlattenReplace(ps: seq<Piece>, k: string, v: LitText)
    requires GoodPieces(ps) && GoodKey(k)
    ensures ReplaceAll(Flatten(ps), VarTag(k), v) == Flatten(SubstSlot(ps, k, v))
  {
    if ps != [] {
      GoodTail(ps, 1);
      FlattenReplace(ps[1..], k, v);
      var rest := Flatten(ps[1..]);
      var h := if ps[0] == Slot(k) then Lit(v) else ps[0];
      FlattenCons(h, SubstSlot(ps[1..], k, v));
      assert Flatten(ps) == TagText(ps[0]) + rest;
      if ps[0] == Slot(k) {
        ReplaceAllHead(VarTag(k), rest, v);
      } else {
        if !ps[0].Lit? && Middle(ps[0]) == Middle(Slot(k)) {
          MiddleInjective(ps[0], Slot(k));
        }
        PieceSkip(ps[0], rest, k);
        ReplaceAllSkip(TagText(ps[0]), rest, VarTag(k), v);
      }
    }
  }

  lemma {:induction false} GoodSubst(ps: seq<Piece>, es: seq<Entry>)
    requires GoodPieces(ps) && FlatGood(es)
    ensures GoodPieces(PScalar(ps, es))
  {
  }

  /** The scalar pass on the markup is the scalar pass on its pieces. */
  lemma {:induction false} FlattenScalar(ps: seq<Piece>, es: seq<Entry>)
    requires GoodPieces(ps) && FlatGood(es)
    ensures ScalarPass(Flatten(ps), es) == Flatten(PScalar(ps, es))
    decreases |es|
  {
    if es == [] {
      assert PScalar(ps, es) == ps;
    } else {
      var k := es[0].key;
      var v := LookupText(es, k);
      var ps1 := SubstSlot(ps, k, v);
      FlattenReplace(ps, k, v);
      assert FlatGood(es[1..]) by {
        forall i | 0 <= i < |es[1..]| ensures GoodKey(es[1..][i].key) && (es[1..][i].value.Str? ==> '{' !in es[1..][i].value.s) {
          assert es[1..][i] == es[i + 1];
        }
      }
      assert GoodPieces(ps1);
      FlattenScalar(ps1, es[1..]);
      forall i | 0 <= i < |ps| ensures PScalar(ps1, es[1..])[i] == PScalar(ps, es)[i] {
        if ps[i].Slot? && ps[i].key != k {
          assert Lookup(es, ps[i].key) == Lookup(es[1..], ps[i].key);
        }
      }
      assert PScalar(ps1, es[1..]) == PScalar(ps, es);
    }
  }

  lemma {:induction false} FlattenItems(body: seq<Piece>, items: seq<Record>)
    requires GoodPieces(body)
    requires forall j :: 0 <= j < |items| ==> FlatGood(items[j].entries)
    ensures RenderItems(Flatten(body), items) == Flatten(PItems(body, items))
    decreases |items|
  {
    if items != [] {
      FlattenScalar(body, items[0].entries);
      FlattenItems(body, items[1..]);
      FlattenConcat(PScalar(body, items[0].entries), PItems(body, items[1..]));
    }
  }

  /** With no block match beginning inside `x`, expansion copies `x`. */
  lemma {:induction false} ExpandSkip(x: string, y: string, k: string, render: string -> string)
    requires forall i :: 0 <= i < |x| ==> !BlockAt((x + y)[i..], k)
    ensures ExpandBlocks(x + y, k, render) == x + ExpandBlocks(y, k, render)
    decreases |x|
  {
    if x == [] {
      assert x + y == y;
    } else {
      var s := x + y;
      assert s[0..] == s;
      ExpandBlocksElsewhere(s, k, render);
      assert s[1..] == x[1..] + y;
      forall i | 0 <= i < |x[1..]| ensures !BlockAt((x[1..] + y)[i..], k) {
        assert (x[1..] + y)[i..] == s[i + 1..];
      }
      ExpandSkip(x[1..], y, k, render);
      assert s[0] == x[0];
      ConsRegroup(x, ExpandBlocks(y, k, render));
    }
  }

  lemma {:induction false} ConsRegroup(x: string, e: string)
    requires x != []
    ensures [x[0]] + (x[1..] + e) == x + e
  {
    assert [x[0]] + x[1..] == x;
  }


  lemma {:induction false} GoodConcat(a: seq<Piece>, b: seq<Piece>)
    requires GoodPieces(a) && GoodPieces(b)
    ensures GoodPieces(a + b)
  {
    forall i | 0 <= i < |a + b| ensures !(a + b)[i].Lit? ==> GoodKey((a + b)[i].key) {
      if i >= |a| {
        assert (a + b)[i] == b[i - |a|];
      }
    }
  }

  lemma {:induction false} GoodItems(body: seq<Piece>, items: seq<Record>)
    requires GoodPieces(body)
    requires forall j :: 0 <= j < |items| ==> FlatGood(items[j].entries)
    ensures GoodPieces(PItems(body, items))
    decreases |items|
  {
    if items != [] {
      GoodItems(body, items[1..]);
      GoodConcat(PScalar(body, items[0].entries), PItems(body, items[1..]));
    }
  }

  lemma {:induction false} GoodExpand(ps: seq<Piece>, k: string, items: seq<Record>)
    requires GoodPieces(ps)
    requires forall j :: 0 <= j < |items| ==> FlatGood(items[j].entries)
    ensures GoodPieces(PExpand(ps, k, items))
    decreases |ps|
  {
    if ps != [] {
      GoodTail(ps, 1);
      if ps[0] == Open(k) && PFind(ps[1..], Close(k)).Some? {
        var j := PFind(ps[1..], Close(k)).value;
        GoodPrefix(ps[1..], j);
        GoodTail(ps[1..], j + 1);
        GoodItems(ps[1..][..j], items);
        GoodExpand(ps[1..][j + 1..], k, items);
        GoodConcat(PItems(ps[1..][..j], items), PExpand(ps[1..][j + 1..], k, items));
      } else {
        GoodExpand(ps[1..], k, items);
        GoodConcat([ps[0]], PExpand(ps[1..], k, items));
      }
    }
  }

  /** The markup of pieces that hold a close marker: the body, the marker text, the rest. */
  lemma {:induction false} SplitAtClose(ps: seq<Piece>, k: string, j: nat)
    requires GoodPieces(ps) && GoodKey(k)
    requires PFind(ps, Close(k)) == Some(j)
    ensures GoodPieces(ps[..j]) && GoodPieces(ps[j + 1..])
    ensures Flatten(ps) == Flatten(ps[..j]) + CloseTag(k) + Flatten(ps[j + 1..])
    ensures IndexOf(Flatten(ps), CloseTag(k)) == Some(|Flatten(ps[..j])|)
  {
    var body := ps[..j];
    var after := ps[j + 1..];
    assert ps == body + [Close(k)] + after;
    GoodPrefix(ps, j);
    GoodTail(ps, j + 1);
    FlattenConcat(body + [Close(k)], after);
    FlattenConcat(body, [Close(k)]);
    assert Flatten([Close(k)]) == CloseTag(k);
    TagOfKey(Close(k));
    FlattenFindSome(body, after, Close(k));
  }

  /** An open marker with a close marker after it: the string engine expands that block. */
  lemma {:induction false} ExpandFoundStep(ps: seq<Piece>, k: string, render: string -> string, j: nat)
    requires GoodPieces(ps) && GoodKey(k) && ps != [] && ps[0] == Open(k)
    requires PFind(ps[1..], Close(k)) == Some(j)
    ensures ExpandBlocks(Flatten(ps), k, render) ==
      render(Flatten(ps[1..][..j])) + ExpandBlocks(Flatten(ps[1..][j + 1..]), k, render)
  {
    GoodTail(ps, 1);
    SplitAtClose(ps[1..], k, j);
    var s := Flatten(ps);
    var rest := Flatten(ps[1..]);
    var J := |Flatten(ps[1..][..j])|;
    assert s == OpenTag(k) + rest;
    assert s[..|OpenTag(k)|] == OpenTag(k);
    assert s[|OpenTag(k)|..] == rest;
    ExpandBlocksAtBlock(s, k, render, rest, J);
    assert rest[..J] == Flatten(ps[1..][..j]);
    assert rest[J + |CloseTag(k)|..] == Flatten(ps[1..][j + 1..]);
  }

  /** No block match starts inside an open tag that no close tag follows. */
  lemma {:induction false} UnclosedNoBlock(rest: string, k: string)
    requires GoodKey(k) && IndexOf(rest, CloseTag(k)).None?
    ensures forall i :: 0 <= i < |OpenTag(k)| ==> !BlockAt((OpenTag(k) + rest)[i..], k)
  {
    var x := OpenTag(k);
    TagOfKey(Open(k));
    TagInterior("#" + k, rest, x);
    assert (x + rest)[0..] == x + rest;
    assert (x + rest)[|x|..] == rest;
  }

  /** An open marker with no close marker after it is copied as text. */
  lemma {:induction false} ExpandUnclosedStep(ps: seq<Piece>, k: string, render: string -> string)
    requires GoodPieces(ps) && GoodKey(k) && ps != [] && ps[0] == Open(k)
    requires PFind(ps[1..], Close(k)).None?
    ensures ExpandBlocks(Flatten(ps), k, render) == OpenTag(k) + ExpandBlocks(Flatten(ps[1..]), k, render)
  {
    GoodTail(ps, 1);
    TagOfKey(Close(k));
    FlattenFindNone(ps[1..], Close(k));
    assert Flatten(ps) == OpenTag(k) + Flatten(ps[1..]);
    UnclosedNoBlock(Flatten(ps[1..]), k);
    ExpandSkip(OpenTag(k), Flatten(ps[1..]), k, render);
  }

  /** Any piece other than an open marker is copied as text. */
  lemma {:induction false} ExpandOtherStep(ps: seq<Piece>, k: string, render: string -> string)
    requires GoodPieces(ps) && GoodKey(k) && ps != [] && ps[0] != Open(k)
    ensures ExpandBlocks(Flatten(ps), k, render) == TagText(ps[0]) + ExpandBlocks(Flatten(ps[1..]), k, render)
  {
    var x := TagText(ps[0]);
    var rest := Flatten(ps[1..]);
    assert Flatten(ps) == x + rest;
    TagOfKey(Open(k));
    if !ps[0].Lit? && Middle(ps[0]) == Middle(Open(k)) {
      MiddleInjective(ps[0], Open(k));
    }
    PieceSkip(ps[0], rest, "#" + k);
    forall i | 0 <= i < |x| ensures !BlockAt((x + rest)[i..], k) {
    }
    ExpandSkip(x, rest, k, render);
  }

  /** Block expansion on the markup is block expansion on its pieces. */
  lemma {:induction false} FlattenExpand(ps: seq<Piece>, k: string, items: seq<Record>)
    requires GoodPieces(ps) && GoodKey(k)
    requires forall j :: 0 <= j < |items| ==> FlatGood(items[j].entries)
    ensures ExpandBlocks(Flatten(ps), k, Renderer(items)) == Flatten(PExpand(ps, k, items))
    decreases |ps|
  {
    if ps != [] {
      GoodTail(ps, 1);
      if ps[0] == Open(k) && PFind(ps[1..], Close(k)).Some? {
        var j := PFind(ps[1..], Close(k)).value;
        SplitAtClose(ps[1..], k, j);
        ExpandFoundStep(ps, k, Renderer(items), j);
        FlattenItems(ps[1..][..j], items);
        FlattenExpand(ps[1..][j + 1..], k, items);
        FlattenConcat(PItems(ps[1..][..j], items), PExpand(ps[1..][j + 1..], k, items));
      } else {
        if ps[0] == Open(k) {
          ExpandUnclosedStep(ps, k, Renderer(items));
        } else {
          ExpandOtherStep(ps, k, Renderer(items));
        }
        FlattenExpand(ps[1..], k, items);
        FlattenCons(ps[0], PExpand(ps[1..], k, items));
      }
    }
  }

  lemma {:induction false} FlattenBlockPass(ps: seq<Piece>, es: seq<Entry>)
    requires GoodPieces(ps) && GoodData(es)
    ensures BlockPass(Flatten(ps), es) == Flatten(PBlockPass(ps, es))
    decreases |es|
  {
    if es != [] {
      assert GoodData(es[1..]) by {
        forall i | 0 <= i < |es[1..]| ensures es[1..][i] == es[i + 1] {
        }
      }
      if es[0].value.List? {
        FlattenExpand(ps, es[0].key, es[0].value.items);
        GoodExpand(ps, es[0].key, es[0].value.items);
        FlattenBlockPass(PExpand(ps, es[0].key, es[0].value.items), es[1..]);
      } else {
        FlattenBlockPass(ps, es[1..]);
      }
    }
  }

  /**
   * The engine on markup spelled by good pieces, with a good record, is the engine on
   * the pieces.
   */
  lemma {:induction false} RenderPieces(ps: seq<Piece>, d: Record)
    requires GoodPieces(ps) && GoodData(d.entries)
    ensures Render(Flatten(ps), Some(d)) == Flatten(PRender(ps, d))
  {
    FlattenScalar(ps, d.entries);
    GoodSubst(ps, d.entries);
    FlattenBlockPass(PScalar(ps, d.entries), d.entries);
  }

  // What the engine does, stated on pieces.

  /** Pieces with no block marker: literal text and slots only. */
  predicate NoMarkers(ps: seq<Piece>)
  {
    forall i :: 0 <= i < |ps| ==> ps[i].Lit? || ps[i].Slot?
  }

  /** The scalar pass works piece by piece. */
  lemma {:induction false} PScalarConcat(a: seq<Piece>, b: seq<Piece>, es: seq<Entry>)
    requires FlatGood(es)
    ensures PScalar(a + b, es) == PScalar(a, es) + PScalar(b, es)
  {
    assert forall i :: 0 <= i < |a + b| ==> PScalar(a + b, es)[i] == (PScalar(a, es) + PScalar(b, es))[i];
  }

  lemma {:induction false} NoMarkersScalar(ps: seq<Piece>, es: seq<Entry>)
    requires FlatGood(es) && NoMarkers(ps)
    ensures NoMarkers(PScalar(ps, es))
  {
  }

  lemma {:induction false} NoMarkersConcat(a: seq<Piece>, b: seq<Piece>)
    requires NoMarkers(a) && NoMarkers(b)
    ensures NoMarkers(a + b)
  {
    forall i | 0 <= i < |a + b| ensures (a + b)[i].Lit? || (a + b)[i].Slot? {
      if i >= |a| {
        assert (a + b)[i] == b[i - |a|];
      }
    }
  }

  lemma {:induction false} NoMarkersItems(body: seq<Piece>, items: seq<Record>)
    requires NoMarkers(body)
    requires forall j :: 0 <= j < |items| ==> FlatGood(items[j].entries)
    ensures NoMarkers(PItems(body, items))
    decreases |items|
  {
    if items != [] {
      NoMarkersScalar(body, items[0].entries);
      NoMarkersItems(body, items[1..]);
      NoMarkersConcat(PScalar(body, items[0].entries), PItems(body, items[1..]));
    }
  }

  /** Pieces before the first open marker of `k` are copied by its expansion. */
  lemma {:induction false} PExpandPrefix(pre: seq<Piece>, rest: seq<Piece>, k: string, items: seq<Record>)
    requires forall i :: 0 <= i < |pre| ==> pre[i] != Open(k)
    requires forall j :: 0 <= j < |items| ==> FlatGood(items[j].entries)
    ensures PExpand(pre + rest, k, items) == pre + PExpand(rest, k, items)
    decreases |pre|
  {
    if pre == [] {
      assert pre + rest == rest;
    } else {
      var ps := pre + rest;
      assert ps[0] == pre[0];
      assert ps[1..] == pre[1..] + rest;
      PExpandPrefix(pre[1..], rest, k, items);
      assert [pre[0]] + pre[1..] == pre;
    }
  }

  /** Without an open marker of `k`, expansion of `k` changes nothing. */
  lemma {:induction false} PExpandNoOpen(ps: seq<Piece>, k: string, items: seq<Record>)
    requires forall i :: 0 <= i < |ps| ==> ps[i] != Open(k)
    requires forall j :: 0 <= j < |items| ==> FlatGood(items[j].entries)
    ensures PExpand(ps, k, items) == ps
  {
    PExpandPrefix(ps, [], k, items);
    assert ps + [] == ps;
  }

  lemma {:induction false} PFindFirst(body: seq<Piece>, q: Piece, post: seq<Piece>)
    requires forall i :: 0 <= i < |body| ==> body[i] != q
    ensures PFind(body + [q] + post, q) == Some(|body|)
  {
    var ps := body + [q] + post;
    assert ps[|body|] == q;
  }

  /**
   * One block: the first open marker of `k`, a body without a close marker of `k`, and
   * that close marker, become the body once per element; scanning goes on after it.
   */
  lemma {:induction false} BlockShape(pre: seq<Piece>, o: Piece, body: seq<Piece>, c: Piece, post: seq<Piece>)
    ensures pre + [o] + body + [c] + post == pre + ([o] + (body + [c] + post))
    ensures ([o] + (body + [c] + post))[0] == o
    ensures ([o] + (body + [c] + post))[1..] == body + [c] + post
    ensures (body + [c] + post)[..|body|] == body
    ensures (body + [c] + post)[|body| + 1..] == post
  {
  }

  /** The expansion step at an open marker that a close marker follows. */
  lemma {:induction false} PExpandAtOpen(ps: seq<Piece>, k: string, items: seq<Record>, j: nat)
    requires forall i :: 0 <= i < |items| ==> FlatGood(items[i].entries)
    requires ps != [] && ps[0] == Open(k) && PFind(ps[1..], Close(k)) == Some(j)
    ensures PExpand(ps, k, items) == PItems(ps[1..][..j], items) + PExpand(ps[1..][j + 1..], k, items)
  {
  }

  lemma {:induction false} PExpandBlock(pre: seq<Piece>, k: string, body: seq<Piece>, post: seq<Piece>, items: seq<Record>)
    requires forall i :: 0 <= i < |pre| ==> pre[i] != Open(k)
    requires forall i :: 0 <= i < |body| ==> body[i] != Close(k)
    requires forall j :: 0 <= j < |items| ==> FlatGood(items[j].entries)
    ensures PExpand(pre + [Open(k)] + body + [Close(k)] + post, k, items) ==
      pre + PItems(body, items) + PExpand(post, k, items)
  {
    BlockShape(pre, Open(k), body, Close(k), post);
    PFindFirst(body, Close(k), post);
    PExpandAtOpen([Open(k)] + (body + [Close(k)] + post), k, items, |body|);
    PExpandPrefix(pre, [Open(k)] + (body + [Close(k)] + post), k, items);
  }


  /** With no block marker left, the block pass changes nothing. */
  lemma {:induction false} PBlockPassNoMarkers(ps: seq<Piece>, es: seq<Entry>)
    requires GoodData(es) && NoMarkers(ps)
    ensures PBlockPass(ps, es) == ps
    decreases |es|
  {
    if es != [] {
      assert GoodData(es[1..]) by {
        forall i | 0 <= i < |es[1..]| ensures es[1..][i] == es[i + 1] {
        }
      }
      if es[0].value.List? {
        PExpandNoOpen(ps, es[0].key, es[0].value.items);
      }
      PBlockPassNoMarkers(ps, es[1..]);
    }
  }

  /** The block pass on markup with a single block of key `k`. */
  lemma {:induction false} PBlockPassOne(h: seq<Piece>, k: string, b: seq<Piece>, t: seq<Piece>, es: seq<Entry>)
    requires NoMarkers(h) && NoMarkers(b) && NoMarkers(t)
    requires GoodData(es) && DistinctKeys(es)
    ensures PBlockPass(h + [Open(k)] + b + [Close(k)] + t, es) ==
      match Lookup(es, k)
      case Some(List(items)) => h + PItems(b, items) + t
      case _ => h + [Open(k)] + b + [Close(k)] + t
    decreases |es|
  {
    var ps := h + [Open(k)] + b + [Close(k)] + t;
    if es != [] {
      assert GoodData(es[1..]) by {
        forall i | 0 <= i < |es[1..]| ensures es[1..][i] == es[i + 1] {
        }
      }
      assert DistinctKeys(es[1..]) by {
        forall i, j | 0 <= i < j < |es[1..]| ensures es[1..][i].key != es[1..][j].key {
          assert es[1..][i] == es[i + 1] && es[1..][j] == es[j + 1];
        }
      }
      if es[0].key == k {
        assert Lookup(es[1..], k).None? by {
          forall i | 0 <= i < |es[1..]| ensures es[1..][i].key != k {
            assert es[1..][i] == es[i + 1];
          }
        }
        if es[0].value.List? {
          var items := es[0].value.items;
          PExpandBlock(h, k, b, t, items);
          PExpandNoOpen(t, k, items);
          NoMarkersItems(b, items);
          NoMarkersConcat(h, PItems(b, items));
          NoMarkersConcat(h + PItems(b, items), t);
          PBlockPassNoMarkers(h + PItems(b, items) + t, es[1..]);
        } else {
          PBlockPassOne(h, k, b, t, es[1..]);
        }
      } else {
        if es[0].value.List? {
          forall i | 0 <= i < |ps| ensures ps[i] != Open(es[0].key) {
            if i < |h| {
              assert ps[i] == h[i];
            } else if i > |h| && i < |h| + 1 + |b| {
              assert ps[i] == b[i - |h| - 1];
            } else if i > |h| + 1 + |b| {
              assert ps[i] == t[i - |h| - 2 - |b|];
            }
          }
          PExpandNoOpen(ps, es[0].key, es[0].value.items);
        }
        PBlockPassOne(h, k, b, t, es[1..]);
      }
    }
  }

  /**
   * The engine on a one-block fragment: every slot of the record is filled, inside the
   * block too, and only then is the block expanded, when the record holds an array under
   * its key.
   */
  lemma {:induction false} RenderOneBlock(h: seq<Piece>, k: string, b: seq<Piece>, t: seq<Piece>, d: Record)
    requires NoMarkers(h) && NoMarkers(b) && NoMarkers(t)
    requires GoodData(d.entries) && DistinctKeys(d.entries)
    ensures PRender(h + [Open(k)] + b + [Close(k)] + t, d) ==
      var (h', b', t') := (PScalar(h, d.entries), PScalar(b, d.entries), PScalar(t, d.entries));
      match Lookup(d.entries, k)
      case Some(List(items)) => h' + PItems(b', items) + t'
      case _ => h' + [Open(k)] + b' + [Close(k)] + t'
  {
    var es := d.entries;
    PScalarConcat(h, [Open(k)] + b + [Close(k)] + t, es);
    PScalarConcat([Open(k)], b + [Close(k)] + t, es);
    PScalarConcat(b, [Close(k)] + t, es);
    PScalarConcat([Close(k)], t, es);
    assert h + [Open(k)] + b + [Close(k)] + t == h + ([Open(k)] + (b + ([Close(k)] + t)));
    assert PScalar(h + [Open(k)] + b + [Close(k)] + t, es) ==
      PScalar(h, es) + [Open(k)] + PScalar(b, es) + [Close(k)] + PScalar(t, es);
    NoMarkersScalar(h, es);
    NoMarkersScalar(b, es);
    NoMarkersScalar(t, es);
    PBlockPassOne(PScalar(h, es), k, PScalar(b, es), PScalar(t, es), es);
  }

  /** Element `n` of an expansion is the body with that element's scalar pass. */
  lemma {:induction false} MulStep(n: nat, w: nat, m: nat)
    requires n > 0
    ensures n * w + m == w + ((n - 1) * w + m)
  {
  }

  /** One copy of the body per element. */
  lemma {:induction false} PItemsLength(body: seq<Piece>, items: seq<Record>)
    requires forall j :: 0 <= j < |items| ==> FlatGood(items[j].entries)
    ensures |PItems(body, items)| == |items| * |body|
    decreases |items|
  {
    if items != [] {
      PItemsLength(body, items[1..]);
      MulStep(|items|, |body|, 0);
    }
  }

  lemma {:induction false} PItemsConcat(body: seq<Piece>, a: seq<Record>, b: seq<Record>)
    requires forall j :: 0 <= j < |a| ==> FlatGood(a[j].entries)
    requires forall j :: 0 <= j < |b| ==> FlatGood(b[j].entries)
    ensures PItems(body, a + b) == PItems(body, a) + PItems(body, b)
    decreases |a|
  {
    if a == [] {
      assert a + b == b;
    } else {
      assert (a + b)[0] == a[0];
      assert (a + b)[1..] == a[1..] + b;
      PItemsConcat(body, a[1..], b);
    }
  }

  /** The copy for element `n` sits between the copies for the elements before and after it. */
  lemma {:induction false} PItemsSplit(body: seq<Piece>, items: seq<Record>, n: nat)
    requires forall j :: 0 <= j < |items| ==> FlatGood(items[j].entries)
    requires n < |items|
    ensures PItems(body, items) ==
      PItems(body, items[..n]) + PScalar(body, items[n].entries) + PItems(body, items[n + 1..])
  {
    assert items == items[..n] + ([items[n]] + items[n + 1..]);
    PItemsConcat(body, items[..n], [items[n]] + items[n + 1..]);
    PItemsConcat(body, [items[n]], items[n + 1..]);
    assert [items[n]][1..] == [];
  }

  /** Whatever the block becomes, the rendered fragment ends with its rendered tail. */
  lemma {:induction false} RenderOneBlockEnds(h: seq<Piece>, k: string, b: seq<Piece>, t: seq<Piece>, d: Record)
    requires NoMarkers(h) && NoMarkers(b) && NoMarkers(t)
    requires GoodData(d.entries) && DistinctKeys(d.entries)
    ensures var r := PRender(h + [Open(k)] + b + [Close(k)] + t, d);
      |t| <= |r| && r[|r| - |t|..] == PScalar(t, d.entries)
  {
    RenderOneBlock(h, k, b, t, d);
    var es := d.entries;
    var t' := PScalar(t, es);
    var front := match Lookup(es, k)
      case Some(List(items)) => PScalar(h, es) + PItems(PScalar(b, es), items)
      case _ => PScalar(h, es) + [Open(k)] + PScalar(b, es) + [Close(k)];
    assert PRender(h + [Open(k)] + b + [Close(k)] + t, d) == front + t';
  }

  /**
   * A slot after the record's scalar pass and then an element's: a key the record has
   * is already filled with the record's value; otherwise the element decides.
   */
  lemma {:induction false} ScalarTwice(body: seq<Piece>, outer: seq<Entry>, inner: seq<Entry>, m: nat)
    requires FlatGood(outer) && FlatGood(inner)
    requires m < |body| && body[m].Slot?
    ensures PScalar(PScalar(body, outer), inner)[m] ==
      if Lookup(outer, body[m].key).Some? then Lit(LookupText(outer, body[m].key))
      else Subst(body[m], inner)
  {
  }

  /** A slot whose key the record lacks stays a placeholder. */
  lemma {:induction false} MissingKeyStays(ps: seq<Piece>, es: seq<Entry>, m: nat)
    requires FlatGood(es) && m < |ps| && ps[m].Slot? && Lookup(es, ps[m].key).None?
    ensures PScalar(ps, es)[m] == ps[m]
  {
  }
}
