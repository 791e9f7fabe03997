/** The menu items, the walker's arguments, the classification of an item and
    the markup each callback of the Bootstrap 4 nav walker appends, as functions
    of its inputs. The hook filters of the host are the identity here. */
module NavMenu {
  import opened PhpStrings
  import opened Markup

  /** One menu item (a WP_Post decorated by the menu API). */
  datatype MenuItem = MenuItem(
    id: int,
    title: string,
    attrTitle: string,
    url: string,
    target: string,
    xfn: string,
    classes: seq<string>,
    current: bool)

  /** The wp_nav_menu() arguments the walker reads; a missing string is "". */
  datatype Args = Args(
    itemSpacing: string,
    hasChildren: bool,
    before: string,
    after: string,
    linkBefore: string,
    linkAfter: string,
    dropdownHover: bool)

  /** The four shapes start_el can emit, tried in this order. */
  datatype Kind = Divider | DropdownHeader | DisabledTop | Link

  predicate IsDividerMarked(item: MenuItem) {
    EqualsIgnoreCase(item.attrTitle, "divider") || EqualsIgnoreCase(item.title, "divider")
  }

  predicate IsHeaderMarked(item: MenuItem) {
    EqualsIgnoreCase(item.attrTitle, "dropdown-header")
  }

  predicate IsDisabledMarked(item: MenuItem) {
    EqualsIgnoreCase(item.attrTitle, "disabled")
  }

  /** A branch opens a dropdown: it has children, or says so by class. */
  predicate IsBranch(item: MenuItem, args: Args) {
    args.hasChildren || "menu-item-has-children" in item.classes
  }

  predicate IsActive(item: MenuItem) {
    "current-menu-item" in item.classes
  }

  /** The first matching shape: divider, header, disabled top item, else a link. */
  function Classify(item: MenuItem, depth: nat): Kind {
    if depth > 0 && IsDividerMarked(item) then Divider
    else if depth > 0 && IsHeaderMarked(item) then DropdownHeader
    else if depth == 0 && IsDisabledMarked(item) then DisabledTop
    else Link
  }

  function Newline(args: Args): string {
    if args.itemSpacing == "discard" then "" else "\n"
  }

  function Indent(depth: nat, args: Args): string {
    Repeat(if args.itemSpacing == "discard" then "" else "\t", depth)
  }

  /** ` name="escaped value"`, or nothing when the value is falsy. */
  function HtmlAttribute(name: string, value: string, esc: Escaping): string {
    if Truthy(value) then " " + name + "=\"" + esc.attr(value) + "\"" else ""
  }

  const SubMenuClasses: seq<string> := ["sub-menu", "dropdown-menu"]

  /** What start_lvl appends: the opening of a nested dropdown panel. */
  function LevelOpen(depth: nat, args: Args, esc: Escaping): string {
    Newline(args) + Indent(depth, args) + "<div role=\"menu\""
      + HtmlAttribute("class", Join(" ", SubMenuClasses), esc) + ">" + Newline(args)
  }

  /** What end_lvl appends: the closing of a nested dropdown panel. */
  function LevelClose(depth: nat, args: Args): string {
    Indent(depth, args) + "</div>" + Newline(args)
  }

  function ItemIdText(item: MenuItem): string {
    "menu-item-" + IntToString(item.id)
  }

  /** The flag classes start_el may add, each when its condition holds. */
  function Flags(branch: bool, active: bool, disabled: bool): seq<string> {
    (if branch then ["dropdown"] else []) + (if active then ["active"] else [])
    + (if disabled then ["disabled"] else [])
  }

  /** The classes of the item's container: its own classes and the generated
      ones, unless a divider or header marker replaces them all (the header
      marker wins). */
  function ContainerClasses(item: MenuItem, depth: nat, args: Args): seq<string> {
    if depth > 0 && IsHeaderMarked(item) then ["dropdown-header"]
    else if depth > 0 && IsDividerMarked(item) then ["dropdown-divider"]
    else item.classes + [ItemIdText(item), "nav-item"] + Flags(IsBranch(item, args), IsActive(item), IsDisabledMarked(item))
  }

  /** The container's id: none for dividers and headers. */
  function ContainerId(item: MenuItem, depth: nat): string {
    if Classify(item, depth) == Divider || Classify(item, depth) == DropdownHeader then ""
    else ItemIdText(item)
  }

  function ContainerAttributes(item: MenuItem, depth: nat, args: Args, esc: Escaping): string {
    HtmlAttribute("id", ContainerId(item, depth), esc)
      + HtmlAttribute("class", Join(" ", FilterFalsy(ContainerClasses(item, depth, args))), esc)
  }

  /** The anchor's classes: a top-level link is a nav-link (a toggle when it is
      a branch, active when current); a nested one is a dropdown-item. */
  function LinkClasses(item: MenuItem, depth: nat, args: Args): seq<string> {
    if depth > 0 then ["dropdown-item"] + (if IsDisabledMarked(item) then ["disabled"] else [])
    else (if IsActive(item) then ["active"] else []) + ["nav-link"]
           + (if IsBranch(item, args) then ["dropdown-toggle"] else [])
  }

  function RelValue(item: MenuItem): string {
    if item.target == "_blank" && !Truthy(item.xfn) then "noopener noreferrer" else item.xfn
  }

  function HrefValue(item: MenuItem, depth: nat, args: Args): string {
    if depth == 0 && IsBranch(item, args) then "#"
    else if Truthy(item.url) then item.url else ""
  }

  /** The attributes that make a top-level branch toggle its dropdown. */
  function DropdownToggles(hover: bool): seq<Attr> {
    [(DataToggle, "dropdown"), (AriaHaspopup, "true")] + (if hover then [(DataHover, "dropdown")] else [])
  }

  /** The first three entries of the anchor's attribute array. */
  function HeadAttributes(item: MenuItem): seq<Attr> {
    [(Title, if Truthy(item.attrTitle) then item.attrTitle else ""),
     (Target, if Truthy(item.target) then item.target else ""),
     (Rel, RelValue(item))]
  }

  /** The first five entries of the anchor's attribute array. */
  function PlainAttributes(item: MenuItem, depth: nat, args: Args): seq<Attr> {
    HeadAttributes(item)
    + [(Href, HrefValue(item, depth, args)), (AriaCurrent, if item.current then "page" else "")]
  }

  /** The anchor's attribute array, in insertion order: five plain attributes,
      the class, then the dropdown toggle attributes of a top-level branch. */
  function LinkAttributes(item: MenuItem, depth: nat, args: Args): seq<Attr> {
    PlainAttributes(item, depth, args)
    + [(Class, Join(" ", LinkClasses(item, depth, args)))]
    + (if depth == 0 && IsBranch(item, args) then DropdownToggles(args.dropdownHover) else [])
  }

  /** before, the anchor with the (unescaped) title, after. */
  function LinkMarkup(item: MenuItem, depth: nat, args: Args, esc: Escaping): string {
    args.before + ("<a" + Serialize(LinkAttributes(item, depth, args), esc) + ">")
      + (args.linkBefore + item.title + args.linkAfter) + "</a>" + args.after
  }

  /** What start_el appends for an item. */
  function ElementOpen(item: MenuItem, depth: nat, args: Args, esc: Escaping): string {
    var attrs := ContainerAttributes(item, depth, args, esc);
    match Classify(item, depth)
    case Divider =>
      Indent(depth, args) + "<div role=\"presentation\"" + attrs + ">"
    case DropdownHeader =>
      Indent(depth, args) + "<h6 role=\"presentation\"" + attrs + ">" + esc.attr(item.title)
    case DisabledTop =>
      "<li role=\"presentation\"" + attrs + "><a href=\"#\">" + esc.attr(item.title) + "</a>"
    case Link =>
      (if depth == 0 then "<li" + attrs + ">" else "") + LinkMarkup(item, depth, args, esc)
  }

  /** What end_el appends for an item. */
  function ElementClose(item: MenuItem, depth: nat, args: Args): string {
    match Classify(item, depth)
    case Divider => "</div>" + Newline(args)
    case DropdownHeader => "</h6>" + Newline(args)
    case _ => if depth == 0 then "</li>" + Newline(args) else ""
  }

  /** A regular item: at the top level its `<li>`, then the anchor. */
  lemma LinkOpenShape(item: MenuItem, depth: nat, args: Args, esc: Escaping)
    requires Classify(item, depth) == Link
    ensures ElementOpen(item, depth, args, esc)
            == (if depth == 0 then "<li" + ContainerAttributes(item, depth, args, esc) + ">" else "")
               + LinkMarkup(item, depth, args, esc)
  {
  }

  /** The generated classes are never the markers the walker looks for. */
  lemma GeneratedClassesAreNotMarkers(item: MenuItem)
    ensures ItemIdText(item) != "menu-item-has-children" && ItemIdText(item) != "current-menu-item"
  {
    var s := ItemIdText(item);
    assert s[10] == IntToString(item.id)[0];
    assert "menu-item-has-children"[10] == 'h';
    assert s[0] == 'm' && "current-menu-item"[0] == 'c';
  }

  /** The successive appends and overrides of start_el that build `$classes`. */
  method ItemClasses(item: MenuItem, depth: nat, args: Args) returns (classes: seq<string>)
    ensures classes == ContainerClasses(item, depth, args)
  {
    GeneratedClassesAreNotMarkers(item);
    classes := item.classes;
    classes := classes + ["menu-item-" + IntToString(item.id)];
    classes := classes + ["nav-item"];
    if args.hasChildren || "menu-item-has-children" in classes {
      classes := classes + ["dropdown"];
    }
    if "current-menu-item" in classes {
      classes := classes + ["active"];
    }
    if EqualsIgnoreCase(item.attrTitle, "disabled") {
      classes := classes + ["disabled"];
    }
    if depth > 0 && (EqualsIgnoreCase(item.attrTitle, "divider") || EqualsIgnoreCase(item.title, "divider")) {
      classes := ["dropdown-divider"];
    }
    if depth > 0 && EqualsIgnoreCase(item.attrTitle, "dropdown-header") {
      classes := ["dropdown-header"];
    }
  }

  /** The anchor's class list of `$atts['class']`, after array_filter and join. */
  method LinkClassNames(item: MenuItem, depth: nat, args: Args, branch: bool) returns (names: string)
    requires depth == 0 ==> branch == IsBranch(item, args)
    ensures names == Join(" ", LinkClasses(item, depth, args))
  {
    var linkClasses: seq<string> := [];
    if "current-menu-item" in item.classes {
      linkClasses := linkClasses + ["active"];
    }
    if depth == 0 {
      linkClasses := linkClasses + ["nav-link"];
      if branch {
        linkClasses := linkClasses + ["dropdown-toggle"];
      }
    }
    if depth > 0 {
      var dropdownClasses := ["dropdown-item"];
      if EqualsIgnoreCase(item.attrTitle, "disabled") {
        dropdownClasses := dropdownClasses + ["disabled"];
      }
      linkClasses := dropdownClasses;
    }
    assert linkClasses == LinkClasses(item, depth, args);
    FilterFalsyKeepsTruthy(linkClasses);
    names := Join(" ", FilterFalsy(linkClasses));
  }

  /** The first three entries of `$atts`: title, target and rel. */
  method AnchorHead(item: MenuItem) returns (atts: seq<Attr>)
    ensures atts == HeadAttributes(item)
  {
    var title := if Truthy(item.attrTitle) then item.attrTitle else "";
    var target := if Truthy(item.target) then item.target else "";
    var rel: string;
    atts := [];
    atts := Assign(atts, Title, title);
    atts := Assign(atts, Target, target);
    assert atts == [(Title, title), (Target, target)];
    if item.target == "_blank" && !Truthy(item.xfn) {
      rel := "noopener noreferrer";
    } else {
      rel := item.xfn;
    }
    atts := Assign(atts, Rel, rel);
  }

  /** The first five entries of `$atts`: title, target, rel, href, aria-current. */
  method PlainLinkAttributes(item: MenuItem, depth: nat, args: Args, branch: bool) returns (atts: seq<Attr>)
    requires depth == 0 ==> branch == IsBranch(item, args)
    ensures atts == PlainAttributes(item, depth, args)
  {
    atts := AnchorHead(item);
    ghost var head := atts;
    var href := if Truthy(item.url) then item.url else "";
    if depth == 0 && branch {
      href := "#";
    }
    assert Fresh(atts, Href);
    atts := Assign(atts, Href, href);
    assert atts == head + [(Href, href)] && Fresh(atts, AriaCurrent);
    var ariaCurrent := if item.current then "page" else "";
    atts := Assign(atts, AriaCurrent, ariaCurrent);
    assert atts == head + [(Href, href), (AriaCurrent, ariaCurrent)];
  }

  /** At the top level the branch test of start_el, made on the final
      `$classes`, agrees with the item's own markers. */
  lemma BranchFromClasses(item: MenuItem, depth: nat, args: Args, classes: seq<string>)
    requires classes == ContainerClasses(item, depth, args)
    ensures depth == 0 ==> (args.hasChildren || "menu-item-has-children" in classes) == IsBranch(item, args)
  {
    GeneratedClassesAreNotMarkers(item);
  }

  /** The toggle attributes appended after the class of a top-level branch. */
  method ToggleAttributes(atts: seq<Attr>, hover: bool) returns (r: seq<Attr>)
    requires Fresh(atts, DataToggle) && Fresh(atts, AriaHaspopup) && Fresh(atts, DataHover)
    ensures r == atts + DropdownToggles(hover)
  {
    r := Assign(atts, DataToggle, "dropdown");
    r := Assign(r, AriaHaspopup, "true");
    assert r == atts + [(DataToggle, "dropdown"), (AriaHaspopup, "true")];
    if hover {
      r := Assign(r, DataHover, "dropdown");
    }
  }

  /** The construction of `$atts`, key by key, with the class entry assigned
      first as a placeholder and overwritten with the joined class list. */
  method LinkAttributeList(item: MenuItem, depth: nat, args: Args, branch: bool)
    returns (atts: seq<Attr>)
    requires depth == 0 ==> branch == IsBranch(item, args)
    ensures atts == LinkAttributes(item, depth, args)
  {
    atts := PlainLinkAttributes(item, depth, args, branch);
    ghost var base := atts;
    assert |base| == 5 && Fresh(base, Class);
    atts := Assign(atts, Class, "");
    assert atts == base + [(Class, "")];
    ghost var toggles: seq<Attr> := [];
    if depth == 0 && branch {
      atts := ToggleAttributes(atts, args.dropdownHover);
      toggles := DropdownToggles(args.dropdownHover);
    }
    assert atts == base + [(Class, "")] + toggles;
    var joined := LinkClassNames(item, depth, args, branch);
    assert atts[..5] == base;
    assert atts[5] == (Class, "");
    UpdateBetween(base, (Class, ""), (Class, joined), toggles);
    atts := Assign(atts, Class, joined);
  }
}
