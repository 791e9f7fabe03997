# BS_Nav_Walker in Dafny

A model of `BS_Nav_Walker`, the WordPress nav-menu walker that turns each menu
item into Bootstrap 4 markup. The model covers its four output callbacks and
its traversal hook:

- `start_lvl` and `end_lvl` open and close the dropdown panel of a nested level;
- `start_el` picks one of four shapes for an item:
  - a divider `<div>`;
  - a header `<h6>`;
  - a disabled top-level `<li>`;
  - a regular link.

  It builds the container's id and class list and the anchor's attribute
  array, then writes them out;
- `end_el` closes what `start_el` opened;
- `display_element` records whether an element has children before it hands
  the element to the generic walker.

The modules:

- `PhpStrings` (php_strings.dfy) holds the PHP primitives the walker relies on:
  - `strcasecmp(...) == 0` as ASCII case-insensitive equality;
  - truthiness of a string (`""` and `"0"` are false);
  - `array_filter`, `join` and `str_repeat`;
  - the decimal text of an item ID.
- `Markup` (markup.dfy) holds the anchor's attribute array:
  - an ordered PHP array, kept as a sequence of (name, value) pairs in insertion order;
  - `$atts[k] = v` (`Put`, `Assign`);
  - the `foreach` loop that serialises the array (`SerializeAttributes`, specified by `Serialize`).
- `NavMenu` (nav_menu.dfy) holds the data and the decisions:
  - the `MenuItem` and `Args` records;
  - the classification of an item;
  - one specification function per fragment (`LevelOpen`, `LevelClose`, `ElementOpen`, `ElementClose`);
  - the methods that build `$classes` and `$atts` step by step, as `start_el` does.
- `NavWalker` (walker.dfy) holds the callbacks themselves. Each receives the
  output buffer by reference and appends to it. Here the buffer goes in as
  `output` and its new contents come back as `result`. Each callback is proved
  to keep `output` as a prefix and to append exactly the specified fragment.
- `NavProperties` (properties.dfy) holds what the markup promises:
  - the four shapes, first match wins;
  - the overrides of dividers and headers;
  - the order of the classes and attributes;
  - the toggle, `rel` and `aria-current` rules;
  - the pairing of `start_el` with `end_el`;
  - indentation with preserved spacing, and the absence of any tab or newline with `"discard"` spacing.

Escaping (`esc_attr`, `esc_url`) is a parameter `Escaping(attr, url)` of two
arbitrary string functions. Every contract except the `"discard"` law holds for
any escaper; that law asks that both escapers keep strings free of tabs and
newlines. The hook
filters (`apply_filters`) are the identity.

Two facts about the code that the model keeps as written:

- The default `rel="noopener noreferrer"` is given only when the target is `_blank`.
- The title of a regular link is written without escaping (lines 303-309). The titles of a header and of a disabled item go through `esc_attr` (lines 201, 203).

## Model

| member | source | states |
|---|---|---|
| PhpStrings.EqualsIgnoreCaseIsLowerEquality | class-bs-nav-walker.php:151 | `strcasecmp(a, b) == 0` holds exactly when the ASCII lower-cased strings are equal |
| PhpStrings.FilterFalsyMembers | class-bs-nav-walker.php:163 | `array_filter` keeps exactly the truthy class names (dropping `""` and `"0"`) and never lengthens the list |
| PhpStrings.FilterFalsyKeepsTruthy | class-bs-nav-walker.php:259 | a list of truthy class names passes `array_filter` unchanged |
| PhpStrings.IntToStringInjective | class-bs-nav-walker.php:177 | different item IDs have different decimal texts |
| PhpStrings.LeadingTabsOfRepeat | class-bs-nav-walker.php:42 | `str_repeat("\t", n)` followed by text that starts with no tab is indented by exactly n tabs |
| Markup.PutAppends | class-bs-nav-walker.php:237-241 | assigning a key not yet in `$atts` appends the pair at the end |
| Markup.Assign | class-bs-nav-walker.php:211-260 | the statement `$atts[k] = v`: a key not yet present is appended at the end with its value; a key already present keeps its position and only its value is replaced |
| Markup.PutOverwrites | class-bs-nav-walker.php:255-260 | assigning a key already in `$atts` replaces its value where it stands |
| Markup.SerializeAttributes | class-bs-nav-walker.php:283-289 | the `foreach` loop yields `Serialize(atts)`: every pair in insertion order, as ` name="value"`, skipping empty values, with href URL-escaped and the rest attribute-escaped |
| Markup.SerializeEmits | class-bs-nav-walker.php:284-288 | every pair with a non-empty value occurs, escaped, in the serialisation |
| Markup.SerializeOnlyEmitted | class-bs-nav-walker.php:285 | pairs with an empty value contribute nothing: the serialisation equals that of the emitted pairs alone |
| Markup.Emitted | class-bs-nav-walker.php:285 | the emitted pairs are exactly the pairs of the array whose value is non-empty |
| NavMenu.GeneratedClassesAreNotMarkers | class-bs-nav-walker.php:139-148 | the generated `menu-item-<ID>` class is neither `menu-item-has-children` nor `current-menu-item`, so it never changes the branch or active test |
| NavMenu.ItemClasses | class-bs-nav-walker.php:138-161 | the successive appends and wholesale overrides of `$classes` yield `ContainerClasses` |
| NavMenu.BranchFromClasses | class-bs-nav-walker.php:220 | at the top level, the branch test made on the final `$classes` agrees with the item's own has_children or `menu-item-has-children` marker |
| NavMenu.LinkClassNames | class-bs-nav-walker.php:226-260 | the anchor's class array, filtered and joined, is `Join(" ", LinkClasses)` |
| NavMenu.AnchorHead | class-bs-nav-walker.php:210-217 | the first three entries of `$atts`: title (empty unless truthy), target (empty unless truthy) and rel |
| NavMenu.PlainLinkAttributes | class-bs-nav-walker.php:210-225 | the first five entries of `$atts`: title, target, rel, href (`#` for a top-level branch) and aria-current |
| NavMenu.ToggleAttributes | class-bs-nav-walker.php:237-242 | data-toggle and aria-haspopup are appended, and data-hover after them only when hovering is on |
| NavMenu.LinkAttributeList | class-bs-nav-walker.php:210-260 | the whole construction of `$atts`, with the class entry placed sixth and overwritten in place, yields `LinkAttributes` |
| NavWalker.Spacing | class-bs-nav-walker.php:35-41 | tab and newline are both empty exactly when the item spacing is `"discard"` |
| NavWalker.StartLvl | class-bs-nav-walker.php:33-61 | appends `LevelOpen` to the output and keeps the old output as a prefix |
| NavWalker.EndLvl | class-bs-nav-walker.php:75-87 | appends `LevelClose` to the output and keeps the old output as a prefix |
| NavWalker.ContainerAttributeText | class-bs-nav-walker.php:163-188 | the container's ` id="…"` and ` class="…"` text, each omitted when falsy; the id is emptied for dividers and headers |
| NavWalker.LinkOutput | class-bs-nav-walker.php:210-311 | `$item_output` is before, the anchor with its serialised attributes and the title between link_before and link_after, then after |
| NavWalker.RegularItemText | class-bs-nav-walker.php:204-329 | what the regular-link branch appends equals `ElementOpen` for a link |
| NavWalker.StartEl | class-bs-nav-walker.php:104-331 | appends `ElementOpen` (the first matching of the four shapes) and keeps the old output as a prefix |
| NavWalker.EndEl | class-bs-nav-walker.php:345-365 | appends `ElementClose` and keeps the old output as a prefix |
| NavWalker.DisplayElement | class-bs-nav-walker.php:390-414 | nothing is delegated for a missing element. Otherwise only the first argument changes: its has_children becomes "the children map has a non-empty list under the ID". The item is then a branch exactly when it has children or carries `menu-item-has-children` |
| NavProperties.SingleClassJoin | class-bs-nav-walker.php:156-164 | a one-class override list survives `array_filter` and `join` unchanged |
| NavProperties.ClassifyFirstMatch | class-bs-nav-walker.php:198-204 | exactly one shape applies, tried in order: divider, then header, then disabled top item, then link; divider and header only below the top level |
| NavProperties.DividerShape | class-bs-nav-walker.php:155-199 | a nested divider has no id and a single class (dropdown-header when the header marker is also present, else dropdown-divider), opens as an indented `<div role="presentation">` and closes with `</div>` |
| NavProperties.HeaderShape | class-bs-nav-walker.php:159-201 | a nested header has no id and the single class dropdown-header, opens as an indented `<h6>` followed by the escaped title and closes with `</h6>` |
| NavProperties.DisabledTopShape | class-bs-nav-walker.php:202-203 | a disabled top-level item keeps its id and gets class disabled; it writes an `<li role="presentation">` around a link to `#` with the escaped title, closed by `</li>` |
| NavProperties.DistinctItemIds | class-bs-nav-walker.php:177 | items with different IDs get different `menu-item-<ID>` ids |
| NavProperties.DividerWithHeaderClass | class-bs-nav-walker.php:155-161 | an item titled "divider" with title attribute "dropdown-header", one level down, becomes a divider `<div>` carrying class dropdown-header |
| NavProperties.FlagsInOrder | class-bs-nav-walker.php:143-153 | the generated flags contain dropdown, active and disabled each exactly when its condition holds, in that order |
| NavProperties.ContainerClassOrder | class-bs-nav-walker.php:138-153 | outside dividers and headers the container's classes are the item's own classes unchanged, then `menu-item-<ID>`, `nav-item`, then the flags in order, each present exactly when its condition holds |
| NavProperties.LinkClassesByDepth | class-bs-nav-walker.php:226-256 | at the top level the anchor has nav-link, active exactly when current, and dropdown-toggle exactly for a branch. Deeper it starts with dropdown-item, has disabled exactly when so marked, and never has active, nav-link or dropdown-toggle |
| NavProperties.AnchorAttributeOrder | class-bs-nav-walker.php:210-242 | the anchor's keys are title, target, rel, href, aria-current and class, then for a top-level branch data-toggle, aria-haspopup and (when hovering) data-hover; no key repeats |
| NavProperties.AnchorShowsAttribute | class-bs-nav-walker.php:283-311 | every attribute with a non-empty value is written, escaped, inside the anchor |
| NavProperties.TopBranchAttributes | class-bs-nav-walker.php:220-242 | a top-level branch has href `#`, data-toggle="dropdown", aria-haspopup="true", and data-hover="dropdown" exactly when hovering is on |
| NavProperties.TopBranchToggle | class-bs-nav-walker.php:220-289 | the href and toggle attributes of a top-level branch all appear in its anchor's markup |
| NavProperties.TogglesOnlyOnTopBranch | class-bs-nav-walker.php:235-242 | data-toggle and aria-haspopup are present exactly for a top-level branch, and data-hover exactly when hovering is also on |
| NavProperties.RelRule | class-bs-nav-walker.php:213-217 | rel is "noopener noreferrer" when the target is `_blank` and xfn is falsy, otherwise xfn. It is written exactly when the target is `_blank` or xfn is non-empty |
| NavProperties.AriaCurrentIffCurrent | class-bs-nav-walker.php:225 | the only aria-current pair ever written is `aria-current="page"`, and it is written exactly for the current item |
| NavProperties.DividerOpensAndCloses | class-bs-nav-walker.php:355-356 | a divider's output starts with its indent and `<div`, and end_el writes `</div>` and the newline |
| NavProperties.HeaderOpensAndCloses | class-bs-nav-walker.php:357-358 | a header's output starts with its indent and `<h6`, and end_el writes `</h6>` and the newline |
| NavProperties.DisabledOpensAndCloses | class-bs-nav-walker.php:359-362 | a disabled top-level item's output starts with `<li`, and end_el writes `</li>` and the newline |
| NavProperties.TopLinkOpensAndCloses | class-bs-nav-walker.php:359-362 | a top-level link's output starts with `<li`, and end_el writes `</li>` and the newline |
| NavProperties.OpenCloseMatch | class-bs-nav-walker.php:345-363 | end_el closes exactly the element start_el opened. An `<li>` is opened exactly at the top level; a nested link opens nothing, and end_el then writes nothing |
| NavProperties.LevelIndentation | class-bs-nav-walker.php:42-85 | with preserved spacing a level opens on a new line indented by its depth and ends with a newline; it closes indented by its depth before a newline |
| NavProperties.DividerIndentation | class-bs-nav-walker.php:114-199 | with preserved spacing a nested divider is indented by its depth |
| NavProperties.HeaderIndentation | class-bs-nav-walker.php:114-201 | with preserved spacing a nested header is indented by its depth |
| NavProperties.OmissionRules | class-bs-nav-walker.php:283-289 | for every key and value, the anchor loop leaves a pair out exactly when the value is `""`, and writes it as ` name="value"` otherwise, while the container's truthiness test drops a value exactly when it is falsy; so `"0"` is written on the anchor and dropped on the container |
| NavProperties.LinkOpensAnchor | class-bs-nav-walker.php:204-311 | a regular item at the top level starts with `<li` + id + classes + `>` and then `before` + `<a`; one level down or deeper it starts with `before` + `<a` and `end_el` writes nothing for it |
| NavProperties.LevelNoBreaks | class-bs-nav-walker.php:35-85 | with `"discard"` spacing, start_lvl and end_lvl write no tab and no newline |
| NavProperties.DiscardLeavesNoBreaks | class-bs-nav-walker.php:107-361 | with `"discard"` spacing, and inputs and escapers free of tabs and newlines, none of the four callbacks writes a tab or a newline |
| NavProperties.DiscardWritesNoTabOrNewline | class-bs-nav-walker.php:107-361 | the same law stated on characters: `'\t'` and `'\n'` occur in none of the four fragments |

## Left out

- The hook filters (`nav_menu_submenu_css_class`, `nav_menu_item_args`, `nav_menu_css_class`, `nav_menu_item_id`, `nav_menu_link_attributes`, `the_title`, `nav_menu_item_title`, `walker_nav_menu_start_el`) call into the host's hook registry. They are the identity here.
- The bodies of `esc_attr` and `esc_url` belong to the host library. They are arbitrary string functions here, so nothing depends on what they do. The discard law assumes only that they add no tab or newline.
- `parent::display_element` and `Walker::walk` (the generic traversal, its recursion and the max-depth cut-off) are not part of this model. `NavWalker.DisplayElement` returns the argument list it would hand over instead of calling them.
- NavWalker.DisplayElement: the PHP code writes has_children into `$args[0]` (line 404). `$args` is passed by value, so for an object argument the caller sees the change through aliasing, and for an array argument only the copy passed to `parent::display_element` (line 412) carries it. The model returns that updated list instead of mutating anything. It also does not tell an array argument from an object argument (lines 401-409).
- The output buffer is passed by reference in PHP. Each callback here takes the old buffer and returns the new one, with no field or object standing in for it.
- PHP's loose typing is not modelled:
  - Every value is a string, a boolean or an integer, so the `is_scalar` and `false !==` checks (line 285) reduce to "non-empty".
  - `(array) $item->classes` and `empty($item->classes)` reduce to a sequence of strings.
  - `in_array` compares with plain equality.
  - An argument object missing `item_spacing`, `before`, `after`, `link_before` or `link_after` is modelled by the empty string; a missing `has_children` or `dropdown_hover` by false.
- The `$id` parameter of `start_el` is left out, because the code does not read it.
- The `$max_depth`, `$depth` and `$output` parameters of `display_element` are only forwarded to `parent::display_element` (line 412), the generic tree traversal, which is not part of this model.
- NavWalker.DisplayElement: the children map is looked up with the item's `id`, the same field `start_el` prints in `menu-item-<ID>`; the source looks it up with the field named by the inherited `db_fields['id']` (lines 396-397), which is taken to be the ID here.
- The item ID is an unbounded integer. It is printed and used as the children-map key; PHP's integer width changes neither.
