/** The callbacks of BS_Nav_Walker. Each one receives the output buffer by
    reference and appends to it; here the buffer goes in as `output` and its
    new contents come back as `result`. */
module NavWalker {
  import opened PhpStrings
  import opened Markup
  import opened NavMenu

  datatype Option<T> = None | Some(value: T)

  /** The tab and newline of the item spacing: both empty when it is "discard". */
  method Spacing(args: Args) returns (t: string, n: string)
    ensures n == Newline(args)
    ensures t == (if args.itemSpacing == "discard" then "" else "\t")
    ensures args.itemSpacing == "discard" <==> t == "" && n == ""
  {
    if args.itemSpacing == "discard" {
      t, n := "", "";
    } else {
      t, n := "\t", "\n";
    }
  }

  /** start_lvl: opens the dropdown panel of a nested level. */
  method StartLvl(output: string, depth: nat, args: Args, esc: Escaping) returns (result: string)
    ensures output <= result
    ensures result == output + LevelOpen(depth, args, esc)
  {
    var t, n := Spacing(args);
    var indent := Repeat(t, depth);
    var classes := SubMenuClasses;
    var classNames := Join(" ", classes);
    var classAttr := HtmlAttribute("class", classNames, esc);
    result := output + (n + indent + "<div role=\"menu\"" + classAttr + ">" + n);
  }

  /** end_lvl: closes the dropdown panel of a nested level. */
  method EndLvl(output: string, depth: nat, args: Args) returns (result: string)
    ensures output <= result
    ensures result == output + LevelClose(depth, args)
  {
    var t, n := Spacing(args);
    var indent := Repeat(t, depth);
    result := output + (indent + "</div>" + n);
  }

  /** The id and class attributes of the item's container, and the final
      `$classes` they were built from. */
  method ContainerAttributeText(item: MenuItem, depth: nat, args: Args, esc: Escaping)
    returns (attrs: string, classes: seq<string>)
    ensures classes == ContainerClasses(item, depth, args)
    ensures attrs == ContainerAttributes(item, depth, args, esc)
  {
    classes := ItemClasses(item, depth, args);
    var classNames := Join(" ", FilterFalsy(classes));
    var classAttr := HtmlAttribute("class", classNames, esc);

    var id := "menu-item-" + IntToString(item.id);
    if depth > 0 && (EqualsIgnoreCase(item.attrTitle, "divider") || EqualsIgnoreCase(item.title, "divider")) {
      id := "";
    }
    if depth > 0 && EqualsIgnoreCase(item.attrTitle, "dropdown-header") {
      id := "";
    }
    var idAttr := HtmlAttribute("id", id, esc);
    attrs := idAttr + classAttr;
  }

  /** The anchor of a regular item, with what surrounds it. */
  method LinkOutput(item: MenuItem, depth: nat, args: Args, esc: Escaping, branch: bool)
    returns (itemOutput: string)
    requires depth == 0 ==> branch == IsBranch(item, args)
    ensures itemOutput == LinkMarkup(item, depth, args, esc)
  {
    var atts := LinkAttributeList(item, depth, args, branch);
    var attributes := SerializeAttributes(atts, esc);
    var title := item.title;
    itemOutput := args.before;
    itemOutput := itemOutput + ("<a" + attributes + ">");
    itemOutput := itemOutput + (args.linkBefore + title + args.linkAfter);
    itemOutput := itemOutput + "</a>";
    itemOutput := itemOutput + args.after;
  }

  /** The part of start_el for a regular item: the `<li>` at the top level,
      then the anchor. */
  method RegularItemText(item: MenuItem, depth: nat, args: Args, esc: Escaping,
                         attrs: string, classes: seq<string>)
    returns (text: string)
    requires Classify(item, depth) == Link
    requires attrs == ContainerAttributes(item, depth, args, esc)
    requires classes == ContainerClasses(item, depth, args)
    ensures text == ElementOpen(item, depth, args, esc)
  {
    LinkOpenShape(item, depth, args, esc);
    var branch := args.hasChildren || "menu-item-has-children" in classes;
    BranchFromClasses(item, depth, args, classes);
    var itemOutput := LinkOutput(item, depth, args, esc, branch);
    var open := "";
    if depth == 0 {
      // the indentation is empty at the top level
      open := "<li" + attrs + ">";
    }
    text := open + itemOutput;
  }

  /** start_el: opens the container of an item and, for a link, writes the anchor. */
  method StartEl(output: string, item: MenuItem, depth: nat, args: Args, esc: Escaping)
    returns (result: string)
    ensures output <= result
    ensures result == output + ElementOpen(item, depth, args, esc)
  {
    var t, n := Spacing(args);
    var indent := if depth != 0 then Repeat(t, depth) else "";
    assert indent == Indent(depth, args);
    var attrs, classes := ContainerAttributeText(item, depth, args, esc);

    result := output;
    if depth > 0 && (EqualsIgnoreCase(item.attrTitle, "divider") || EqualsIgnoreCase(item.title, "divider")) {
      assert Classify(item, depth) == Divider;
      assert ElementOpen(item, depth, args, esc) == indent + "<div role=\"presentation\"" + attrs + ">";
      result := result + (indent + "<div role=\"presentation\"" + attrs + ">");
    } else if depth > 0 && EqualsIgnoreCase(item.attrTitle, "dropdown-header") {
      assert Classify(item, depth) == DropdownHeader;
      assert ElementOpen(item, depth, args, esc) == indent + "<h6 role=\"presentation\"" + attrs + ">" + esc.attr(item.title);
      result := result + (indent + "<h6 role=\"presentation\"" + attrs + ">" + esc.attr(item.title));
    } else if depth == 0 && EqualsIgnoreCase(item.attrTitle, "disabled") {
      assert Classify(item, depth) == DisabledTop;
      // the indentation is empty at the top level
      assert ElementOpen(item, depth, args, esc)
             == "<li role=\"presentation\"" + attrs + "><a href=\"#\">" + esc.attr(item.title) + "</a>";
      result := result + ("<li role=\"presentation\"" + attrs + "><a href=\"#\">" + esc.attr(item.title) + "</a>");
    } else {
      assert Classify(item, depth) == Link;
      var text := RegularItemText(item, depth, args, esc, attrs, classes);
      result := result + text;
    }
  }

  /** end_el: closes what start_el opened for the same item. */
  method EndEl(output: string, item: MenuItem, depth: nat, args: Args) returns (result: string)
    ensures output <= result
    ensures result == output + ElementClose(item, depth, args)
  {
    var t, n := Spacing(args);
    result := output;
    if depth > 0 && (EqualsIgnoreCase(item.attrTitle, "divider") || EqualsIgnoreCase(item.title, "divider")) {
      result := result + ("</div>" + n);
    } else if depth > 0 && EqualsIgnoreCase(item.attrTitle, "dropdown-header") {
      result := result + ("</h6>" + n);
    } else {
      if depth == 0 {
        result := result + ("</li>" + n);
      }
    }
  }

  /** Whether the children map lists at least one child under the id. */
  predicate HasChildren(children: map<int, seq<MenuItem>>, id: int) {
    id in children && children[id] != []
  }

  /** display_element: records in the first argument whether the element has
      children before handing it to the generic walker. `delegated` says
      whether the generic walker is called and `passed` is the argument list
      it receives. */
  method DisplayElement(element: Option<MenuItem>, children: map<int, seq<MenuItem>>, args: seq<Args>)
    returns (delegated: bool, passed: seq<Args>)
    ensures delegated <==> element.Some?
    ensures delegated ==> |passed| == |args| && forall i :: 1 <= i < |args| ==> passed[i] == args[i]
    ensures delegated && |args| > 0 ==>
              passed[0] == args[0].(hasChildren := HasChildren(children, element.value.id))
    ensures delegated && |args| > 0 ==>
              (IsBranch(element.value, passed[0]) <==>
                 HasChildren(children, element.value.id) || "menu-item-has-children" in element.value.classes)
  {
    if element.None? {
      return false, [];
    }
    var id := element.value.id;
    var hasChildren := id in children && children[id] != [];
    passed := args;
    if |args| > 0 {
      passed := args[0 := args[0].(hasChildren := hasChildren)];
    }
    delegated := true;
  }
}
