/** The anchor's attribute array and its serialisation. A PHP array with string
    keys is an ordered dictionary; it is modelled as a sequence of (name, value)
    pairs in insertion order. The escaping functions of the host are injected. */
module Markup {
  import opened PhpStrings

  /** The host's escaping collaborators: attribute escaping (esc_attr) and URL
      escaping (esc_url). Nothing is assumed about them. */
  datatype Escaping = Escaping(attr: string -> string, url: string -> string)

  /** The attribute names the walker puts on an anchor. */
  datatype AttrName = Title | Target | Rel | Href | AriaCurrent | Class | DataToggle | AriaHaspopup | DataHover

  /** The name as written in the markup. */
  function NameText(k: AttrName): string {
    match k
    case Title => "title"
    case Target => "target"
    case Rel => "rel"
    case Href => "href"
    case AriaCurrent => "aria-current"
    case Class => "class"
    case DataToggle => "data-toggle"
    case AriaHaspopup => "aria-haspopup"
    case DataHover => "data-hover"
  }

  type Attr = (AttrName, string)

  function Keys(atts: seq<Attr>): seq<AttrName> {
    seq(|atts|, i requires 0 <= i < |atts| => atts[i].0)
  }

  /** `$atts[k] = v`: overwrite the entry of key k where it stands, or append one. */
  function Put(atts: seq<Attr>, k: AttrName, v: string): seq<Attr> {
    if atts == [] then [(k, v)]
    else if atts[0].0 == k then [(k, v)] + atts[1..]
    else [atts[0]] + Put(atts[1..], k, v)
  }

  /** No entry of atts has key k. */
  predicate Fresh(atts: seq<Attr>, k: AttrName) {
    forall i :: 0 <= i < |atts| ==> atts[i].0 != k
  }

  /** Assigning to a new key appends it at the end. */
  lemma {:induction false} PutAppends(atts: seq<Attr>, k: AttrName, v: string)
    requires Fresh(atts, k)
    ensures Put(atts, k, v) == atts + [(k, v)]
  {
    if atts != [] {
      PutAppends(atts[1..], k, v);
      assert [atts[0]] + (atts[1..] + [(k, v)]) == atts + [(k, v)];
    }
  }

  /** Assigning to an existing key replaces its value and keeps its position. */
  lemma {:induction false} PutOverwrites(atts: seq<Attr>, i: nat, k: AttrName, v: string)
    requires i < |atts| && atts[i].0 == k
    requires Fresh(atts[..i], k)
    ensures Put(atts, k, v) == atts[i := (k, v)]
  {
    if i > 0 {
      PutOverwrites(atts[1..], i - 1, k, v);
      assert [atts[0]] + atts[1..][i - 1 := (k, v)] == atts[i := (k, v)];
    }
  }

  /** The statement `$atts[k] = v`. */
  method Assign(atts: seq<Attr>, k: AttrName, v: string) returns (r: seq<Attr>)
    ensures Fresh(atts, k) ==> r == atts + [(k, v)]
    ensures forall i {:trigger Fresh(atts[..i], k)} ::
              0 <= i < |atts| && atts[i].0 == k && Fresh(atts[..i], k) ==> r == atts[i := (k, v)]
  {
    r := Put(atts, k, v);
    if Fresh(atts, k) {
      PutAppends(atts, k, v);
    }
    forall i | 0 <= i < |atts| && atts[i].0 == k && Fresh(atts[..i], k)
      ensures r == atts[i := (k, v)]
    {
      PutOverwrites(atts, i, k, v);
    }
  }

  /** Overwriting the entry between a prefix and a suffix. */
  lemma UpdateBetween(pre: seq<Attr>, a: Attr, b: Attr, post: seq<Attr>)
    ensures (pre + [a] + post)[|pre| := b] == pre + [b] + post
  {
  }

  /** One ` name="value"` pair, or nothing when the value is the empty string.
      href is URL-escaped, every other value attribute-escaped. */
  function AttrText(a: Attr, esc: Escaping): string {
    if a.1 == "" then ""
    else " " + NameText(a.0) + "=\"" + (if a.0 == Href then esc.url(a.1) else esc.attr(a.1)) + "\""
  }

  /** The attribute string of the anchor: every pair in insertion order. */
  function Serialize(atts: seq<Attr>, esc: Escaping): string
    decreases |atts|
  {
    if atts == [] then "" else Serialize(atts[..|atts| - 1], esc) + AttrText(atts[|atts| - 1], esc)
  }

  /** The foreach loop over `$atts` that accumulates `$attributes`. */
  method SerializeAttributes(atts: seq<Attr>, esc: Escaping) returns (attributes: string)
    ensures attributes == Serialize(atts, esc)
  {
    attributes := "";
    var i := 0;
    while i < |atts|
      invariant 0 <= i <= |atts|
      invariant attributes == Serialize(atts[..i], esc)
    {
      var attr, value := atts[i].0, atts[i].1;
      assert atts[..i + 1][..i] == atts[..i];
      assert Serialize(atts[..i + 1], esc) == attributes + AttrText(atts[i], esc);
      if value != "" {
        value := if attr == Href then esc.url(value) else esc.attr(value);
        attributes := attributes + (" " + NameText(attr) + "=\"" + value + "\"");
      }
      i := i + 1;
    }
    assert atts[..|atts|] == atts;
  }

  /** t occurs in s. */
  predicate IsInfix(t: string, s: string) {
    exists i :: 0 <= i <= |s| && t <= s[i..]
  }

  lemma InfixExtends(t: string, s: string, u: string)
    requires IsInfix(t, s)
    ensures IsInfix(t, s + u)
  {
    var i :| 0 <= i <= |s| && t <= s[i..];
    assert (s + u)[i..] == s[i..] + u;
  }

  lemma InfixPrefix(t: string, u: string, s: string)
    requires IsInfix(t, s)
    ensures IsInfix(t, u + s)
  {
    var i :| 0 <= i <= |s| && t <= s[i..];
    assert (u + s)[|u| + i..] == s[i..];
  }

  /** Every pair with a non-empty value appears, escaped, in the serialisation. */
  lemma {:induction false} SerializeEmits(atts: seq<Attr>, a: Attr, esc: Escaping)
    requires a in atts && a.1 != ""
    ensures IsInfix(AttrText(a, esc), Serialize(atts, esc))
    decreases |atts|
  {
    var init, last := atts[..|atts| - 1], atts[|atts| - 1];
    assert atts == init + [last];
    if last == a {
      var s := Serialize(atts, esc);
      assert s == Serialize(init, esc) + AttrText(a, esc);
      assert s[|Serialize(init, esc)|..] == AttrText(a, esc);
    } else {
      SerializeEmits(init, a, esc);
      InfixExtends(AttrText(a, esc), Serialize(init, esc), AttrText(last, esc));
    }
  }

  /** The pairs that are actually written out: those with a non-empty value. */
  function Emitted(atts: seq<Attr>): (r: seq<Attr>)
    ensures forall a :: a in r <==> a in atts && a.1 != ""
    decreases |atts|
  {
    if atts == [] then []
    else Emitted(atts[..|atts| - 1]) + (if atts[|atts| - 1].1 == "" then [] else [atts[|atts| - 1]])
  }

  /** Pairs with an empty value contribute nothing: the serialisation depends
      only on the emitted pairs. */
  lemma {:induction false} SerializeOnlyEmitted(atts: seq<Attr>, esc: Escaping)
    ensures Serialize(atts, esc) == Serialize(Emitted(atts), esc)
    decreases |atts|
  {
    if atts != [] {
      var init, last := atts[..|atts| - 1], atts[|atts| - 1];
      SerializeOnlyEmitted(init, esc);
      if last.1 != "" {
        var e := Emitted(init) + [last];
        assert e[..|e| - 1] == Emitted(init);
      } else {
        assert Emitted(atts) == Emitted(init);
      }
    }
  }

  /** An escaper that never introduces a tab or a newline. */
  ghost predicate KeepsNoBreaks(f: string -> string) {
    forall s :: NoBreaks(s) ==> NoBreaks(f(s))
  }

  lemma NameTextNoBreaks(k: AttrName)
    ensures NoBreaks(NameText(k))
  {
  }

  lemma AttrTextNoBreaks(a: Attr, esc: Escaping)
    requires KeepsNoBreaks(esc.attr) && KeepsNoBreaks(esc.url)
    requires NoBreaks(a.1)
    ensures NoBreaks(AttrText(a, esc))
  {
    if a.1 != "" {
      var v := if a.0 == Href then esc.url(a.1) else esc.attr(a.1);
      assert NoBreaks(v);
      var n := NameText(a.0);
      NameTextNoBreaks(a.0);
      assert NoBreaks(" ") && NoBreaks("=\"") && NoBreaks("\"");
      NoBreaksConcat(" ", n);
      NoBreaksConcat(" " + n, "=\"");
      NoBreaksConcat(" " + n + "=\"", v);
      NoBreaksConcat(" " + n + "=\"" + v, "\"");
    }
  }

  lemma {:induction false} SerializeNoBreaks(atts: seq<Attr>, esc: Escaping)
    requires KeepsNoBreaks(esc.attr) && KeepsNoBreaks(esc.url)
    requires forall a :: a in atts ==> NoBreaks(a.1)
    ensures NoBreaks(Serialize(atts, esc))
    decreases |atts|
  {
    if atts != [] {
      var init, last := atts[..|atts| - 1], atts[|atts| - 1];
      assert last in atts;
      assert forall a :: a in init ==> a in atts;
      SerializeNoBreaks(init, esc);
      AttrTextNoBreaks(last, esc);
      NoBreaksConcat(Serialize(init, esc), AttrText(last, esc));
    }
  }
}
