/** What the walker's markup promises: the shapes of start_el, the class lists,
    the anchor's attributes, the pairing of start_el with end_el, and the
    whitespace of the two item spacings. */
module NavProperties {
  import opened PhpStrings
  import opened Markup
  import opened NavMenu

  /** A single truthy class passes array_filter and join unchanged. */
  lemma SingleClassJoin(c: string)
    requires Truthy(c)
    ensures Join(" ", FilterFalsy([c])) == c
  {
    assert FilterFalsy([c]) == [c] + FilterFalsy([]);
  }

  /** The shapes are tried in order and the first match wins: a divider
      marker beats a header marker, and neither applies at the top level. */
  lemma ClassifyFirstMatch(item: MenuItem, depth: nat)
    ensures Classify(item, depth) == Divider <==> depth > 0 && IsDividerMarked(item)
    ensures Classify(item, depth) == DropdownHeader <==> depth > 0 && !IsDividerMarked(item) && IsHeaderMarked(item)
    ensures Classify(item, depth) == DisabledTop <==> depth == 0 && IsDisabledMarked(item)
    ensures Classify(item, depth) == Link <==>
              (depth == 0 && !IsDisabledMarked(item)) || (depth > 0 && !IsDividerMarked(item) && !IsHeaderMarked(item))
  {
  }

  /** A nested divider: an indented `<div>` with no id whose classes are
      replaced wholesale, by dropdown-header when the header marker is also
      present, else by dropdown-divider. */
  lemma DividerShape(item: MenuItem, depth: nat, args: Args, esc: Escaping)
    requires depth > 0 && IsDividerMarked(item)
    ensures Classify(item, depth) == Divider
    ensures ContainerId(item, depth) == ""
    ensures ContainerClasses(item, depth, args) == [if IsHeaderMarked(item) then "dropdown-header" else "dropdown-divider"]
    ensures ElementOpen(item, depth, args, esc)
            == Indent(depth, args) + "<div role=\"presentation\""
               + HtmlAttribute("class", if IsHeaderMarked(item) then "dropdown-header" else "dropdown-divider", esc) + ">"
    ensures ElementClose(item, depth, args) == "</div>" + Newline(args)
  {
    var c := if IsHeaderMarked(item) then "dropdown-header" else "dropdown-divider";
    SingleClassJoin(c);
    assert ContainerAttributes(item, depth, args, esc) == "" + HtmlAttribute("class", c, esc);
  }

  /** A nested header: an indented `<h6>` with no id, class dropdown-header,
      and the escaped title as its text. */
  lemma HeaderShape(item: MenuItem, depth: nat, args: Args, esc: Escaping)
    requires depth > 0 && IsHeaderMarked(item) && !IsDividerMarked(item)
    ensures Classify(item, depth) == DropdownHeader
    ensures ContainerId(item, depth) == ""
    ensures ElementOpen(item, depth, args, esc)
            == Indent(depth, args) + "<h6 role=\"presentation\""
               + HtmlAttribute("class", "dropdown-header", esc) + ">" + esc.attr(item.title)
    ensures ElementClose(item, depth, args) == "</h6>" + Newline(args)
  {
    SingleClassJoin("dropdown-header");
    assert ContainerAttributes(item, depth, args, esc) == "" + HtmlAttribute("class", "dropdown-header", esc);
  }

  /** A disabled top-level item: an `<li>` with the item's id and a class list
      that includes disabled, holding a dead link to "#"; end_el closes the `<li>`. */
  lemma DisabledTopShape(item: MenuItem, args: Args, esc: Escaping)
    requires IsDisabledMarked(item)
    ensures Classify(item, 0) == DisabledTop
    ensures ContainerId(item, 0) == ItemIdText(item)
    ensures "disabled" in ContainerClasses(item, 0, args)
    ensures ElementOpen(item, 0, args, esc)
            == "<li role=\"presentation\"" + ContainerAttributes(item, 0, args, esc)
               + "><a href=\"#\">" + esc.attr(item.title) + "</a>"
    ensures ElementClose(item, 0, args) == "</li>" + Newline(args)
  {
  }

  /** The id of an item's container names the item: different items get
      different ids. */
  lemma DistinctItemIds(a: MenuItem, b: MenuItem)
    requires a.id != b.id
    ensures ItemIdText(a) != ItemIdText(b)
  {
    if ItemIdText(a) == ItemIdText(b) {
      assert ItemIdText(a)[10..] == IntToString(a.id);
      assert ItemIdText(b)[10..] == IntToString(b.id);
      IntToStringInjective(a.id, b.id);
    }
  }

  /** An item titled "divider" whose title attribute is "dropdown-header",
      one level down: a divider `<div>`, but with the header's class. */
  lemma DividerWithHeaderClass(item: MenuItem, args: Args, esc: Escaping)
    requires item.title == "divider" && item.attrTitle == "dropdown-header"
    requires args.itemSpacing != "discard"
    ensures ElementOpen(item, 1, args, esc)
            == "\t" + "<div role=\"presentation\"" + HtmlAttribute("class", "dropdown-header", esc) + ">"
    ensures ElementClose(item, 1, args) == "</div>" + "\n"
  {
    assert IsDividerMarked(item) && IsHeaderMarked(item);
    DividerShape(item, 1, args, esc);
    assert Indent(1, args) == "\t" + Repeat("\t", 0);
  }

  /** The rank of a generated flag class in start_el's list. */
  function FlagRank(c: string): nat {
    if c == "dropdown" then 0 else if c == "active" then 1 else 2
  }

  /** The flags come in start_el's order: dropdown, active, disabled. */
  predicate InRankOrder(f: seq<string>) {
    forall i, j :: 0 <= i < j < |f| ==> FlagRank(f[i]) < FlagRank(f[j])
  }

  lemma FlagsInOrder(branch: bool, active: bool, disabled: bool)
    ensures var f := Flags(branch, active, disabled);
            ("dropdown" in f <==> branch) && ("active" in f <==> active) && ("disabled" in f <==> disabled)
            && InRankOrder(f)
  {
    var f := Flags(branch, active, disabled);
    assert FlagRank("dropdown") == 0 && FlagRank("active") == 1 && FlagRank("disabled") == 2;
    assert "dropdown" != "active" && "dropdown" != "disabled" && "active" != "disabled";
  }

  /** The container's classes outside dividers and headers: the item's own
      classes unchanged, then its id class, then nav-item, then dropdown,
      active and disabled, each exactly when its condition holds, in that order. */
  lemma ContainerClassOrder(item: MenuItem, depth: nat, args: Args)
    requires !(depth > 0 && (IsDividerMarked(item) || IsHeaderMarked(item)))
    ensures var r := ContainerClasses(item, depth, args);
            var k := |item.classes|;
            |r| >= k + 2 && r[..k] == item.classes && r[k] == ItemIdText(item) && r[k + 1] == "nav-item"
            && ("dropdown" in r[k + 2..] <==> IsBranch(item, args))
            && ("active" in r[k + 2..] <==> IsActive(item))
            && ("disabled" in r[k + 2..] <==> IsDisabledMarked(item))
            && InRankOrder(r[k + 2..])
  {
    var r := ContainerClasses(item, depth, args);
    var k := |item.classes|;
    var flags := Flags(IsBranch(item, args), IsActive(item), IsDisabledMarked(item));
    var head := item.classes + [ItemIdText(item), "nav-item"];
    assert r == head + flags;
    assert r[..k] == head[..k] == item.classes;
    assert r[k + 2..] == flags;
    FlagsInOrder(IsBranch(item, args), IsActive(item), IsDisabledMarked(item));
  }

  /** The anchor's classes: at the top level nav-link, with active for the
      current item and dropdown-toggle for a branch; one level down and deeper
      dropdown-item, with disabled when marked so, and never active. */
  lemma LinkClassesByDepth(item: MenuItem, depth: nat, args: Args)
    ensures var c := LinkClasses(item, depth, args);
            depth == 0 ==>
              "nav-link" in c && "dropdown-item" !in c
              && ("active" in c <==> IsActive(item))
              && ("dropdown-toggle" in c <==> IsBranch(item, args))
    ensures var c := LinkClasses(item, depth, args);
            depth > 0 ==>
              c[0] == "dropdown-item" && "active" !in c && "nav-link" !in c && "dropdown-toggle" !in c
              && ("disabled" in c <==> IsDisabledMarked(item))
  {
    var c := LinkClasses(item, depth, args);
    if depth == 0 {
      var a := if IsActive(item) then ["active"] else [];
      var t := if IsBranch(item, args) then ["dropdown-toggle"] else [];
      assert c == a + ["nav-link"] + t;
      assert c[|a|] == "nav-link";
    }
  }

  /** The anchor's attributes in insertion order: title, target, rel, href,
      aria-current, class, then for a top-level branch data-toggle,
      aria-haspopup and, when hovering is on, data-hover. No name occurs twice. */
  lemma AnchorAttributeOrder(item: MenuItem, depth: nat, args: Args)
    ensures Keys(LinkAttributes(item, depth, args))
            == [Title, Target, Rel, Href, AriaCurrent, Class]
               + (if depth == 0 && IsBranch(item, args)
                  then [DataToggle, AriaHaspopup] + (if args.dropdownHover then [DataHover] else [])
                  else [])
    ensures var keys := Keys(LinkAttributes(item, depth, args));
            forall i, j :: 0 <= i < j < |keys| ==> keys[i] != keys[j]
  {
    var atts := LinkAttributes(item, depth, args);
    var toggles := if depth == 0 && IsBranch(item, args) then DropdownToggles(args.dropdownHover) else [];
    assert atts == PlainAttributes(item, depth, args) + [(Class, Join(" ", LinkClasses(item, depth, args)))] + toggles;
  }

  /** Every attribute with a non-empty value is written into the anchor,
      href URL-escaped and the others attribute-escaped. */
  lemma AnchorShowsAttribute(item: MenuItem, depth: nat, args: Args, esc: Escaping, a: Attr)
    requires a in LinkAttributes(item, depth, args) && a.1 != ""
    ensures IsInfix(AttrText(a, esc), LinkMarkup(item, depth, args, esc))
  {
    var t := AttrText(a, esc);
    var ser := Serialize(LinkAttributes(item, depth, args), esc);
    SerializeEmits(LinkAttributes(item, depth, args), a, esc);
    InfixPrefix(t, "<a", ser);
    InfixExtends(t, "<a" + ser, ">");
    InfixPrefix(t, args.before, "<a" + ser + ">");
    var x := args.before + ("<a" + ser + ">");
    InfixExtends(t, x, args.linkBefore + item.title + args.linkAfter);
    InfixExtends(t, x + (args.linkBefore + item.title + args.linkAfter), "</a>");
    InfixExtends(t, x + (args.linkBefore + item.title + args.linkAfter) + "</a>", args.after);
  }

  /** A top-level branch links to "#" and carries the toggle attributes, with
      data-hover exactly when hovering is on. */
  lemma TopBranchAttributes(item: MenuItem, args: Args)
    requires IsBranch(item, args)
    ensures var atts := LinkAttributes(item, 0, args);
            (Href, "#") in atts && (DataToggle, "dropdown") in atts && (AriaHaspopup, "true") in atts
            && ((DataHover, "dropdown") in atts <==> args.dropdownHover)
  {
    var atts := LinkAttributes(item, 0, args);
    var toggles := DropdownToggles(args.dropdownHover);
    assert atts == PlainAttributes(item, 0, args) + [(Class, Join(" ", LinkClasses(item, 0, args)))] + toggles;
    assert atts[3] == (Href, "#");
    assert atts[6] == (DataToggle, "dropdown") && atts[7] == (AriaHaspopup, "true");
    if args.dropdownHover {
      assert atts[8] == (DataHover, "dropdown");
    }
  }

  /** Each of the toggle attributes of a top-level branch is written into its
      anchor. */
  lemma TopBranchToggle(item: MenuItem, args: Args, esc: Escaping)
    requires IsBranch(item, args)
    ensures var markup := LinkMarkup(item, 0, args, esc);
            IsInfix(AttrText((Href, "#"), esc), markup)
            && IsInfix(AttrText((DataToggle, "dropdown"), esc), markup)
            && IsInfix(AttrText((AriaHaspopup, "true"), esc), markup)
            && (args.dropdownHover ==> IsInfix(AttrText((DataHover, "dropdown"), esc), markup))
  {
    TopBranchAttributes(item, args);
    if args.dropdownHover {
      AnchorShowsAttribute(item, 0, args, esc, (DataHover, "dropdown"));
    }
    AnchorShowsAttribute(item, 0, args, esc, (Href, "#"));
    AnchorShowsAttribute(item, 0, args, esc, (DataToggle, "dropdown"));
    AnchorShowsAttribute(item, 0, args, esc, (AriaHaspopup, "true"));
  }

  /** The toggle attributes appear on no anchor but a top-level branch's. */
  lemma TogglesOnlyOnTopBranch(item: MenuItem, depth: nat, args: Args)
    ensures var keys := Keys(LinkAttributes(item, depth, args));
            (DataToggle in keys <==> depth == 0 && IsBranch(item, args))
            && (AriaHaspopup in keys <==> depth == 0 && IsBranch(item, args))
            && (DataHover in keys <==> depth == 0 && IsBranch(item, args) && args.dropdownHover)
  {
    AnchorAttributeOrder(item, depth, args);
  }

  /** rel: "noopener noreferrer" for a link opening in a new tab without xfn,
      otherwise the xfn as it is; it is written exactly when the target is
      "_blank" or the xfn is non-empty. */
  lemma RelRule(item: MenuItem, depth: nat, args: Args)
    ensures var rel := LinkAttributes(item, depth, args)[2];
            rel.0 == Rel
            && (rel.1 != "" <==> item.target == "_blank" || item.xfn != "")
            && (item.target == "_blank" ==> rel.1 == (if Truthy(item.xfn) then item.xfn else "noopener noreferrer"))
            && (item.target != "_blank" ==> rel.1 == item.xfn)
  {
    assert LinkAttributes(item, depth, args)[2] == PlainAttributes(item, depth, args)[2];
  }

  /** In an attribute list where only entry j has key k, every pair with key
      k is that entry. */
  lemma OnlyEntryOfKey(atts: seq<Attr>, j: nat, k: AttrName)
    requires j < |atts| && atts[j].0 == k
    requires forall i :: 0 <= i < |atts| && i != j ==> atts[i].0 != k
    ensures forall a :: a in atts && a.0 == k ==> a == atts[j]
  {
  }

  /** aria-current="page" is written exactly for the current item: the only
      written aria-current pair is ("aria-current", "page"), and it is written
      when the item is current. */
  lemma AriaCurrentIffCurrent(item: MenuItem, depth: nat, args: Args)
    ensures forall a :: a in Emitted(LinkAttributes(item, depth, args)) && a.0 == AriaCurrent ==>
              item.current && a.1 == "page"
    ensures item.current ==> (AriaCurrent, "page") in Emitted(LinkAttributes(item, depth, args))
  {
    var atts := LinkAttributes(item, depth, args);
    var keys := Keys(atts);
    AnchorAttributeOrder(item, depth, args);
    assert atts[4] == (AriaCurrent, if item.current then "page" else "");
    forall i | 0 <= i < |atts| && i != 4 ensures atts[i].0 != AriaCurrent {
      assert keys[i] == atts[i].0 && keys[4] == AriaCurrent;
    }
    OnlyEntryOfKey(atts, 4, AriaCurrent);
  }

  /** The element start_el opens and end_el closes: none for an anchor one
      level down or deeper. */
  function OpenedTag(item: MenuItem, depth: nat): string {
    match Classify(item, depth)
    case Divider => "div"
    case DropdownHeader => "h6"
    case DisabledTop => "li"
    case Link => if depth == 0 then "li" else ""
  }

  /** The closing tag of an element. */
  function CloseTag(tag: string): string {
    "</" + tag + ">"
  }

  /** Text that begins with an opening literal begins with its tag. */
  lemma OpensWith(indent: string, tag: string, lit: string, rest: string)
    requires "<" + tag <= lit
    ensures indent + "<" + tag <= indent + lit + rest
  {
    assert (indent + lit + rest)[..|indent| + 1 + |tag|] == indent + "<" + tag;
  }

  /** The opening literals of start_el and the closing tags of end_el. */
  lemma TagLiterals()
    ensures "<" + "div" <= "<div role=\"presentation\"" && CloseTag("div") == "</div>"
    ensures "<" + "h6" <= "<h6 role=\"presentation\"" && CloseTag("h6") == "</h6>"
    ensures "<" + "li" <= "<li role=\"presentation\"" && "<" + "li" <= "<li" && CloseTag("li") == "</li>"
  {
  }

  lemma DividerOpensAndCloses(item: MenuItem, depth: nat, args: Args, esc: Escaping)
    requires Classify(item, depth) == Divider
    ensures Indent(depth, args) + "<" + "div" <= ElementOpen(item, depth, args, esc)
    ensures ElementClose(item, depth, args) == CloseTag("div") + Newline(args)
  {
    TagLiterals();
    OpensWith(Indent(depth, args), "div", "<div role=\"presentation\"", ContainerAttributes(item, depth, args, esc) + ">");
  }

  lemma HeaderOpensAndCloses(item: MenuItem, depth: nat, args: Args, esc: Escaping)
    requires Classify(item, depth) == DropdownHeader
    ensures Indent(depth, args) + "<" + "h6" <= ElementOpen(item, depth, args, esc)
    ensures ElementClose(item, depth, args) == CloseTag("h6") + Newline(args)
  {
    TagLiterals();
    OpensWith(Indent(depth, args), "h6", "<h6 role=\"presentation\"",
              ContainerAttributes(item, depth, args, esc) + ">" + esc.attr(item.title));
  }

  lemma DisabledOpensAndCloses(item: MenuItem, args: Args, esc: Escaping)
    requires Classify(item, 0) == DisabledTop
    ensures Indent(0, args) + "<" + "li" <= ElementOpen(item, 0, args, esc)
    ensures ElementClose(item, 0, args) == CloseTag("li") + Newline(args)
  {
    TagLiterals();
    assert Indent(0, args) == "";
    var attrs := ContainerAttributes(item, 0, args, esc);
    OpensWith("", "li", "<li role=\"presentation\"", attrs + "><a href=\"#\">" + esc.attr(item.title) + "</a>");
  }

  lemma TopLinkOpensAndCloses(item: MenuItem, args: Args, esc: Escaping)
    requires Classify(item, 0) == Link
    ensures Indent(0, args) + "<" + "li" <= ElementOpen(item, 0, args, esc)
    ensures ElementClose(item, 0, args) == CloseTag("li") + Newline(args)
  {
    TagLiterals();
    assert Indent(0, args) == "";
    var attrs := ContainerAttributes(item, 0, args, esc);
    LinkOpenShape(item, 0, args, esc);
    OpensWith("", "li", "<li", attrs + ">" + LinkMarkup(item, 0, args, esc));
  }

  /** end_el closes exactly the element start_el opened: a top-level item is
      an `<li>`, a nested divider a `<div>`, a nested header an `<h6>`, and a
      nested link is a bare anchor that needs no closing. */
  lemma {:induction false} OpenCloseMatch(item: MenuItem, depth: nat, args: Args, esc: Escaping)
    ensures var tag := OpenedTag(item, depth);
            ElementClose(item, depth, args) == (if tag == "" then "" else CloseTag(tag) + Newline(args))
    ensures OpenedTag(item, depth) == "li" <==> depth == 0
    ensures OpenedTag(item, depth) != "" ==>
              Indent(depth, args) + "<" + OpenedTag(item, depth) <= ElementOpen(item, depth, args, esc)
    ensures OpenedTag(item, depth) == "" ==> ElementOpen(item, depth, args, esc) == LinkMarkup(item, depth, args, esc)
  {
    match Classify(item, depth)
    case Divider => DividerOpensAndCloses(item, depth, args, esc);
    case DropdownHeader => HeaderOpensAndCloses(item, depth, args, esc);
    case DisabledTop => DisabledOpensAndCloses(item, args, esc);
    case Link =>
      if depth == 0 {
        TopLinkOpensAndCloses(item, args, esc);
      } else {
        assert ElementOpen(item, depth, args, esc) == "" + LinkMarkup(item, depth, args, esc);
      }
  }

  /** With "preserve" spacing, a nested level opens on a new line indented by
      its depth, and closes indented by its depth before a newline. */
  lemma LevelIndentation(depth: nat, args: Args, esc: Escaping)
    requires args.itemSpacing != "discard"
    ensures var open := LevelOpen(depth, args, esc);
            |open| > 0 && open[0] == '\n' && open[|open| - 1] == '\n' && LeadingTabs(open[1..]) == depth
    ensures var close := LevelClose(depth, args);
            LeadingTabs(close) == depth && close[|close| - 1] == '\n'
  {
    var indent := Repeat("\t", depth);
    assert Indent(depth, args) == indent && Newline(args) == "\n";
    var rest := "<div role=\"menu\"" + HtmlAttribute("class", Join(" ", SubMenuClasses), esc) + ">" + "\n";
    var open := LevelOpen(depth, args, esc);
    assert open == "\n" + (indent + rest);
    assert open[1..] == indent + rest;
    LeadingTabsOfRepeat(depth, rest);
    assert LevelClose(depth, args) == indent + ("</div>" + "\n");
    LeadingTabsOfRepeat(depth, "</div>" + "\n");
  }

  /** n tabs, then a tag, then anything: indented by n. */
  lemma TabsThenTag(n: nat, tag: string, a: string, b: string, c: string)
    requires tag != [] && tag[0] == '<'
    ensures LeadingTabs(Repeat("\t", n) + tag + a + b) == n
    ensures LeadingTabs(Repeat("\t", n) + tag + a + b + c) == n
  {
    var r := Repeat("\t", n);
    assert r + tag + a + b == r + (tag + a + b);
    assert (tag + a + b)[0] == '<';
    LeadingTabsOfRepeat(n, tag + a + b);
    assert r + tag + a + b + c == r + (tag + a + b + c);
    assert (tag + a + b + c)[0] == '<';
    LeadingTabsOfRepeat(n, tag + a + b + c);
  }

  /** With "preserve" spacing, a nested divider is indented by its depth. */
  lemma DividerIndentation(item: MenuItem, depth: nat, args: Args, esc: Escaping)
    requires args.itemSpacing != "discard" && Classify(item, depth) == Divider
    ensures LeadingTabs(ElementOpen(item, depth, args, esc)) == depth
  {
    assert Indent(depth, args) == Repeat("\t", depth);
    var attrs := ContainerAttributes(item, depth, args, esc);
    TabsThenTag(depth, "<div role=\"presentation\"", attrs, ">", "");
  }

  /** With "preserve" spacing, a nested header is indented by its depth. */
  lemma HeaderIndentation(item: MenuItem, depth: nat, args: Args, esc: Escaping)
    requires args.itemSpacing != "discard" && Classify(item, depth) == DropdownHeader
    ensures LeadingTabs(ElementOpen(item, depth, args, esc)) == depth
  {
    assert Indent(depth, args) == Repeat("\t", depth);
    var attrs := ContainerAttributes(item, depth, args, esc);
    TabsThenTag(depth, "<h6 role=\"presentation\"", attrs, ">", esc.attr(item.title));
  }

  /** The two omission rules. The anchor's loop drops a pair exactly when its
      value is the empty string, whatever the key; the container's id and
      class go through PHP truthiness and are dropped exactly when falsy. So a
      value "0" is written on the anchor but dropped on the container. */
  lemma OmissionRules(k: AttrName, v: string, name: string, esc: Escaping)
    ensures Serialize([(k, v)], esc) == "" <==> v == ""
    ensures v != "" ==> Serialize([(k, v)], esc) == AttrText((k, v), esc)
    ensures HtmlAttribute(name, v, esc) == "" <==> !Truthy(v)
    ensures Serialize([(k, "0")], esc) != "" && HtmlAttribute(name, "0", esc) == ""
  {
    assert [(k, v)][..0] == [];
    assert [(k, "0")][..0] == [];
  }

  /** Every text the item and the arguments contribute is free of tabs and
      newlines. */
  predicate PlainInputs(item: MenuItem, args: Args) {
    NoBreaks(item.title) && NoBreaks(item.attrTitle) && NoBreaks(item.url) && NoBreaks(item.target)
    && NoBreaks(item.xfn) && (forall c :: c in item.classes ==> NoBreaks(c))
    && NoBreaks(args.before) && NoBreaks(args.after) && NoBreaks(args.linkBefore) && NoBreaks(args.linkAfter)
  }

  /** The fixed pieces of the walker's markup hold no tab and no newline. */
  lemma TagLiteralsNoBreaks()
    ensures NoBreaks("") && NoBreaks(">") && NoBreaks("<a") && NoBreaks("</a>")
    ensures NoBreaks("<div role=\"menu\"") && NoBreaks("<div role=\"presentation\"") && NoBreaks("</div>")
    ensures NoBreaks("<h6 role=\"presentation\"") && NoBreaks("</h6>")
    ensures NoBreaks("<li") && NoBreaks("<li role=\"presentation\"") && NoBreaks("><a href=\"#\">") && NoBreaks("</li>")
    ensures NoBreaks(" ") && NoBreaks("id") && NoBreaks("class")
  {
  }

  lemma ItemIdNoBreaks(item: MenuItem)
    ensures NoBreaks(ItemIdText(item))
  {
    var digits := IntToString(item.id);
    assert '\t' !in digits && '\n' !in digits by {
      forall k | 0 <= k < |digits| ensures digits[k] != '\t' && digits[k] != '\n' {
      }
    }
  }

  lemma HtmlAttributeNoBreaks(name: string, value: string, esc: Escaping)
    requires KeepsNoBreaks(esc.attr) && NoBreaks(name) && NoBreaks(value)
    ensures NoBreaks(HtmlAttribute(name, value, esc))
  {
    if Truthy(value) {
      var v := esc.attr(value);
      assert NoBreaks(v);
      assert NoBreaks(" ") && NoBreaks("=\"") && NoBreaks("\"");
      NoBreaksConcat(" ", name);
      NoBreaksConcat(" " + name, "=\"");
      NoBreaksConcat(" " + name + "=\"", v);
      NoBreaksConcat(" " + name + "=\"" + v, "\"");
    }
  }

  lemma ContainerClassesNoBreaks(item: MenuItem, depth: nat, args: Args)
    requires forall c :: c in item.classes ==> NoBreaks(c)
    ensures forall c :: c in ContainerClasses(item, depth, args) ==> NoBreaks(c)
  {
    ItemIdNoBreaks(item);
    assert NoBreaks("dropdown-header") && NoBreaks("dropdown-divider") && NoBreaks("nav-item");
    assert NoBreaks("dropdown") && NoBreaks("active") && NoBreaks("disabled");
  }

  /** The container's id and class attributes hold no tab and no newline. */
  lemma ContainerAttributesNoBreaks(item: MenuItem, depth: nat, args: Args, esc: Escaping)
    requires KeepsNoBreaks(esc.attr) && forall c :: c in item.classes ==> NoBreaks(c)
    ensures NoBreaks(ContainerAttributes(item, depth, args, esc))
  {
    var id := ContainerId(item, depth);
    ItemIdNoBreaks(item);
    assert NoBreaks(id);
    var classes := ContainerClasses(item, depth, args);
    ContainerClassesNoBreaks(item, depth, args);
    FilterFalsyMembers(classes);
    var names := Join(" ", FilterFalsy(classes));
    JoinNoBreaks(" ", FilterFalsy(classes));
    TagLiteralsNoBreaks();
    HtmlAttributeNoBreaks("id", id, esc);
    HtmlAttributeNoBreaks("class", names, esc);
    NoBreaksConcat(HtmlAttribute("id", id, esc), HtmlAttribute("class", names, esc));
  }

  lemma LinkClassesNoBreaks(item: MenuItem, depth: nat, args: Args)
    ensures NoBreaks(Join(" ", LinkClasses(item, depth, args)))
  {
    var classes := LinkClasses(item, depth, args);
    if depth > 0 {
      assert NoBreaks("dropdown-item") && NoBreaks("disabled");
    } else {
      assert NoBreaks("active") && NoBreaks("nav-link") && NoBreaks("dropdown-toggle");
    }
    JoinNoBreaks(" ", classes);
  }

  lemma TogglesNoBreaks(hover: bool)
    ensures forall a :: a in DropdownToggles(hover) ==> NoBreaks(a.1)
  {
    assert NoBreaks("dropdown") && NoBreaks("true");
  }

  lemma PlainValuesNoBreaks(item: MenuItem, depth: nat, args: Args)
    requires PlainInputs(item, args)
    ensures forall a :: a in PlainAttributes(item, depth, args) ==> NoBreaks(a.1)
  {
    assert NoBreaks("noopener noreferrer") && NoBreaks("#") && NoBreaks("page");
    assert NoBreaks(RelValue(item)) && NoBreaks(HrefValue(item, depth, args));
  }

  lemma AnchorValuesNoBreaks(item: MenuItem, depth: nat, args: Args)
    requires PlainInputs(item, args)
    ensures forall a :: a in LinkAttributes(item, depth, args) ==> NoBreaks(a.1)
  {
    var plain := PlainAttributes(item, depth, args);
    PlainValuesNoBreaks(item, depth, args);
    LinkClassesNoBreaks(item, depth, args);
    TogglesNoBreaks(args.dropdownHover);
    var toggles := if depth == 0 && IsBranch(item, args) then DropdownToggles(args.dropdownHover) else [];
    assert LinkAttributes(item, depth, args) == plain + [(Class, Join(" ", LinkClasses(item, depth, args)))] + toggles;
  }

  /** The anchor holds no tab and no newline. */
  lemma LinkMarkupNoBreaks(item: MenuItem, depth: nat, args: Args, esc: Escaping)
    requires KeepsNoBreaks(esc.attr) && KeepsNoBreaks(esc.url) && PlainInputs(item, args)
    ensures NoBreaks(LinkMarkup(item, depth, args, esc))
  {
    AnchorValuesNoBreaks(item, depth, args);
    var ser := Serialize(LinkAttributes(item, depth, args), esc);
    SerializeNoBreaks(LinkAttributes(item, depth, args), esc);
    TagLiteralsNoBreaks();
    NoBreaksConcat("<a", ser);
    NoBreaksConcat("<a" + ser, ">");
    var anchor := args.before + ("<a" + ser + ">");
    NoBreaksConcat(args.before, "<a" + ser + ">");
    var text := args.linkBefore + item.title + args.linkAfter;
    NoBreaksConcat(args.linkBefore, item.title);
    NoBreaksConcat(args.linkBefore + item.title, args.linkAfter);
    NoBreaksConcat(anchor, text);
    NoBreaksConcat(anchor + text, "</a>");
    NoBreaksConcat(anchor + text + "</a>", args.after);
  }

  lemma LevelNoBreaks(depth: nat, args: Args, esc: Escaping)
    requires args.itemSpacing == "discard" && KeepsNoBreaks(esc.attr)
    ensures NoBreaks(LevelOpen(depth, args, esc)) && NoBreaks(LevelClose(depth, args))
  {
    RepeatEmpty(depth);
    var indent, n := Indent(depth, args), Newline(args);
    assert indent == "" && n == "";
    TagLiteralsNoBreaks();
    assert forall c :: c in SubMenuClasses ==> NoBreaks(c);
    JoinNoBreaks(" ", SubMenuClasses);
    var cls := HtmlAttribute("class", Join(" ", SubMenuClasses), esc);
    HtmlAttributeNoBreaks("class", Join(" ", SubMenuClasses), esc);
    NoBreaksConcat(n, indent);
    NoBreaksConcat(n + indent, "<div role=\"menu\"");
    NoBreaksConcat(n + indent + "<div role=\"menu\"", cls);
    NoBreaksConcat(n + indent + "<div role=\"menu\"" + cls, ">");
    NoBreaksConcat(n + indent + "<div role=\"menu\"" + cls + ">", n);
    NoBreaksConcat(indent, "</div>");
    NoBreaksConcat(indent + "</div>", n);
  }

  lemma DividerNoBreaks(item: MenuItem, depth: nat, args: Args, esc: Escaping)
    requires args.itemSpacing == "discard" && Classify(item, depth) == Divider
    requires KeepsNoBreaks(esc.attr) && forall c :: c in item.classes ==> NoBreaks(c)
    ensures NoBreaks(ElementOpen(item, depth, args, esc)) && NoBreaks(ElementClose(item, depth, args))
  {
    RepeatEmpty(depth);
    var indent, n, attrs := Indent(depth, args), Newline(args), ContainerAttributes(item, depth, args, esc);
    assert indent == "" && n == "";
    ContainerAttributesNoBreaks(item, depth, args, esc);
    var lit := "<div role=\"presentation\"";
    TagLiteralsNoBreaks();
    assert ElementOpen(item, depth, args, esc) == indent + lit + attrs + ">";
    NoBreaks3(indent, lit, attrs);
    NoBreaksConcat(indent + lit + attrs, ">");
    NoBreaksConcat("</div>", n);
  }

  lemma HeaderNoBreaks(item: MenuItem, depth: nat, args: Args, esc: Escaping)
    requires args.itemSpacing == "discard" && Classify(item, depth) == DropdownHeader
    requires KeepsNoBreaks(esc.attr) && NoBreaks(item.title) && forall c :: c in item.classes ==> NoBreaks(c)
    ensures NoBreaks(ElementOpen(item, depth, args, esc)) && NoBreaks(ElementClose(item, depth, args))
  {
    RepeatEmpty(depth);
    var indent, n, attrs := Indent(depth, args), Newline(args), ContainerAttributes(item, depth, args, esc);
    assert indent == "" && n == "";
    ContainerAttributesNoBreaks(item, depth, args, esc);
    var title := esc.attr(item.title);
    assert NoBreaks(title);
    var lit := "<h6 role=\"presentation\"";
    TagLiteralsNoBreaks();
    assert ElementOpen(item, depth, args, esc) == indent + lit + attrs + ">" + title;
    NoBreaks5(indent, lit, attrs, ">", title);
    NoBreaksConcat("</h6>", n);
  }

  lemma DisabledTopNoBreaks(item: MenuItem, depth: nat, args: Args, esc: Escaping)
    requires args.itemSpacing == "discard" && Classify(item, depth) == DisabledTop
    requires KeepsNoBreaks(esc.attr) && NoBreaks(item.title) && forall c :: c in item.classes ==> NoBreaks(c)
    ensures NoBreaks(ElementOpen(item, depth, args, esc)) && NoBreaks(ElementClose(item, depth, args))
  {
    var n, attrs := Newline(args), ContainerAttributes(item, depth, args, esc);
    assert n == "";
    ContainerAttributesNoBreaks(item, depth, args, esc);
    var title := esc.attr(item.title);
    assert NoBreaks(title);
    var lit, mid := "<li role=\"presentation\"", "><a href=\"#\">";
    TagLiteralsNoBreaks();
    assert ElementOpen(item, depth, args, esc) == lit + attrs + mid + title + "</a>";
    NoBreaks5(lit, attrs, mid, title, "</a>");
    NoBreaksConcat("</li>", n);
  }

  lemma LinkItemNoBreaks(item: MenuItem, depth: nat, args: Args, esc: Escaping)
    requires args.itemSpacing == "discard" && Classify(item, depth) == Link
    requires KeepsNoBreaks(esc.attr) && KeepsNoBreaks(esc.url) && PlainInputs(item, args)
    ensures NoBreaks(ElementOpen(item, depth, args, esc)) && NoBreaks(ElementClose(item, depth, args))
  {
    var n, attrs := Newline(args), ContainerAttributes(item, depth, args, esc);
    assert n == "";
    ContainerAttributesNoBreaks(item, depth, args, esc);
    LinkOpenShape(item, depth, args, esc);
    var markup := LinkMarkup(item, depth, args, esc);
    LinkMarkupNoBreaks(item, depth, args, esc);
    TagLiteralsNoBreaks();
    NoBreaks3("<li", attrs, ">");
    var open := if depth == 0 then "<li" + attrs + ">" else "";
    NoBreaksConcat(open, markup);
    NoBreaksConcat("</li>", n);
  }

  /** A regular item: at the top level the `<li>` opener and then the anchor,
      which starts right after before; one level down or deeper the anchor
      alone, with nothing for end_el to close. */
  lemma LinkOpensAnchor(item: MenuItem, depth: nat, args: Args, esc: Escaping)
    requires Classify(item, depth) == Link
    ensures depth == 0 ==>
              "<li" + ContainerAttributes(item, depth, args, esc) + ">" + args.before + "<a"
                <= ElementOpen(item, depth, args, esc)
    ensures depth > 0 ==>
              args.before + "<a" <= ElementOpen(item, depth, args, esc) && ElementClose(item, depth, args) == ""
  {
    LinkOpenShape(item, depth, args, esc);
    var open := if depth == 0 then "<li" + ContainerAttributes(item, depth, args, esc) + ">" else "";
    StartsWithAnchor(open, args.before, Serialize(LinkAttributes(item, depth, args), esc),
                     args.linkBefore + item.title + args.linkAfter, "</a>", args.after);
    assert "" + args.before + "<a" == args.before + "<a";
  }

  lemma StartsWithAnchor(open: string, before: string, ser: string, a: string, b: string, c: string)
    ensures open + before + "<a" <= open + (before + ("<a" + ser + ">") + a + b + c)
  {
    var m := before + ("<a" + ser + ">") + a + b + c;
    assert m[..|before| + 2] == before + "<a";
    assert (open + m)[..|open| + |before| + 2] == open + (before + "<a");
  }

  /** With "discard" spacing and inputs free of tabs and newlines, none of the
      four callbacks writes a tab or a newline. */
  lemma {:induction false} DiscardLeavesNoBreaks(item: MenuItem, depth: nat, args: Args, esc: Escaping)
    requires args.itemSpacing == "discard"
    requires KeepsNoBreaks(esc.attr) && KeepsNoBreaks(esc.url) && PlainInputs(item, args)
    ensures NoBreaks(LevelOpen(depth, args, esc)) && NoBreaks(LevelClose(depth, args))
    ensures NoBreaks(ElementOpen(item, depth, args, esc)) && NoBreaks(ElementClose(item, depth, args))
  {
    LevelNoBreaks(depth, args, esc);
    match Classify(item, depth)
    case Divider => DividerNoBreaks(item, depth, args, esc);
    case DropdownHeader => HeaderNoBreaks(item, depth, args, esc);
    case DisabledTop => DisabledTopNoBreaks(item, depth, args, esc);
    case Link => LinkItemNoBreaks(item, depth, args, esc);
  }

  /** The discard law in plain terms: no tab and no newline occurs in what any
      of the four callbacks appends. */
  lemma DiscardWritesNoTabOrNewline(item: MenuItem, depth: nat, args: Args, esc: Escaping)
    requires args.itemSpacing == "discard"
    requires KeepsNoBreaks(esc.attr) && KeepsNoBreaks(esc.url) && PlainInputs(item, args)
    ensures var open, close := LevelOpen(depth, args, esc), LevelClose(depth, args);
            '\t' !in open && '\n' !in open && '\t' !in close && '\n' !in close
    ensures var open, close := ElementOpen(item, depth, args, esc), ElementClose(item, depth, args);
            '\t' !in open && '\n' !in open && '\t' !in close && '\n' !in close
  {
    DiscardLeavesNoBreaks(item, depth, args, esc);
    NoBreaksMeans(LevelOpen(depth, args, esc));
    NoBreaksMeans(LevelClose(depth, args));
    NoBreaksMeans(ElementOpen(item, depth, args, esc));
    NoBreaksMeans(ElementClose(item, depth, args));
  }
}
