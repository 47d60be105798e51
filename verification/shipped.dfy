/**
 * The template table HtmlBricks ships with (lib/ejs-html-bricks.js:394-592),
 * transcribed entry by entry, and a repaired table in which every lookup the
 * block routines perform resolves.
 */
module Shipped {
  import opened Basics
  import opened Blocks
  import opened Dom
  import opened Templates

  /** `{'default': value}` */
  function Defaults<T>(value: T): Dim<T>
  {
    Keyed(map["default" := value])
  }

  /** `[]` used where a keyed object is expected. */
  function EmptyArray<U>(): Dim<seq<U>>
  {
    Listed([], map[])
  }

  /** An entry with a fixed `tag`. */
  function Fixed(tag: string, classes: Dim<seq<string>>, attributes: Dim<seq<Attr>>): Entry
  {
    Entry(Name(tag), Unset, classes, attributes, false)
  }

  /** An entry with per-parent `tags`. */
  function PerParent(tags: map<string, string>, classes: Dim<seq<string>>, attributes: Dim<seq<Attr>>): Entry
  {
    Entry(Unset, ByParent(tags), classes, attributes, false)
  }

  const NoFollow := [Attr("href", "#"), Attr("target", "_blank"), Attr("rel", "nofollow noindex noreferrer")]

  /**
   * The shipped table.  The header entry's `level: 1` is never read and is
   * not kept; `'ul' | 'ol'` is the number 0.
   */
  function DefaultTemplate(): Template
  {
    Template(
      map[
        "paragraph" := Fixed("p", Defaults([]), Defaults([])),
        "header" := Fixed("h", Defaults([]), Defaults([])),
        "list" := Entry(Number(0), Unset, Defaults([]), Defaults([]), false),
        "image" := Fixed("img", Defaults([]), EmptyArray()),
        "embed" := Fixed("iframe", Defaults([]), Defaults([])),
        "code" := Fixed("pre", Defaults([]), Defaults([])),
        "quote" := Fixed("blockquote", Defaults(["blockquote"]), Defaults([])),
        "table" := Fixed("table", Defaults([]), Defaults([])),
        "hr" := Fixed("hr", Defaults([]), Defaults([])),
        "warning" := Fixed("div", Defaults([]), Defaults([])),
        "linkTool" := Fixed("div", Defaults(["link-tool"]), Defaults([])),
        "media" := Fixed("div", Defaults([]), Defaults([])),
        "attaches" := Fixed("a", Defaults(["file-link"]), Defaults(NoFollow))
      ],
      map[
        "caption" := PerParent(map["image" := "span", "quote" := "span"],
          Keyed(map["image" := ["editor-image-caption"], "quote" := ["blockquote-caption"]]), EmptyArray()),
        "image" := Entry(Unset, ByParent(map["default" := "img", "linkTool" := "img"]), Defaults([]), EmptyArray(), true),
        "fileBlock" := PerParent(map["default" := "div", "attaches" := "div"], EmptyArray(), EmptyArray()),
        "icon" := PerParent(map["default" := "span", "attaches" := "span", "fileBlock" := "span"],
          Keyed(map["default" := [], "attaches" := ["file-icon"], "fileBlock" := ["fiv-cla fiv-icon-ppt fiv-size-lg"]]), EmptyArray()),
        "fileName" := PerParent(map["default" := "span", "attaches" := "span"],
          Keyed(map["default" := [], "attaches" := ["file-name"], "fileBlock" := ["file-name"]]), EmptyArray()),
        "body" := PerParent(map["default" := "div", "media" := "div"],
          Keyed(map["default" := [], "media" := ["media-body"]]), EmptyArray()),
        "anchor" := PerParent(map["default" := "span", "linkTool" := "span"], Keyed(map["linkTool" := []]), EmptyArray()),
        "title" := PerParent(map["default" := "div", "warning" := "div", "linkTool" := "div"],
          Keyed(map["warning" := ["warning-title"], "linkTool" := ["link-tool-title"]]), EmptyArray()),
        "description" := PerParent(map["default" := "p", "linkTool" := "p"],
          Keyed(map["linkTool" := ["link-tool-description"]]), EmptyArray()),
        "message" := PerParent(map["default" := "div", "warning" := "div"], Listed(["warning-message"], map[]), EmptyArray()),
        "link" := PerParent(map["default" := "a", "attaches" := "a", "linkTool" := "a"],
          Keyed(map["default" := [], "linkTool" := ["link-tool__content", "link-tool__content--rendered"]]),
          Keyed(map["default" := [], "attaches" := [], "linkTool" := NoFollow])),
        "linkImg" := PerParent(map["default" := "div", "attaches" := "div", "linkTool" := "div"],
          Keyed(map["default" := [], "linkTool" := ["link-tool__image"], "link" := ["link-tool__image"]]), Absent),
        "wrapper" := PerParent(map["default" := "div", "root" := "div"],
          Keyed(map["default" := [], "root" := ["codex-editor"]]), Absent),
        "subWrapper" := PerParent(map["default" := "div", "root" := "div", "wrapper" := "div"],
          Keyed(map["default" := [], "root" := ["codex-editor__wrapper"], "wrapper" := ["codex-editor__redactor"]]), Absent)
      ],
      map[
        "div" := Fixed("div", Keyed(map["wrapper" := ["codex-editor"], "subWrapper" := ["codex-editor__redactor"]]), EmptyArray()),
        "li" := Fixed("li", EmptyArray(), EmptyArray()),
        "thead" := Fixed("thead", EmptyArray(), EmptyArray()),
        "th" := Fixed("th", EmptyArray(), EmptyArray()),
        "tbody" := Fixed("tbody", EmptyArray(), EmptyArray()),
        "tr" := Entry(Name("tr"), Unset, EmptyArray(), EmptyArray(), true),
        "td" := Fixed("td", EmptyArray(), EmptyArray())
      ])
  }

  /**
   * The shipped table with its shapes made consistent: every array used as a
   * keyed field becomes `{'default': <that array>}`, a missing `attributes`
   * field becomes `{'default': []}`, keyed class fields without a
   * `'default'` key get `'default': []`, the classes the title, description
   * and anchor keep under `linkTool` are also keyed under `link` (the brick
   * they are laid under), the icon class string is split into its three
   * tokens, and the `pre` tag used by the code routine is added.
   */
  function RepairedTemplate(): Template
  {
    Template(
      map[
        "paragraph" := Fixed("p", Defaults([]), Defaults([])),
        "header" := Fixed("h", Defaults([]), Defaults([])),
        "list" := Entry(Number(0), Unset, Defaults([]), Defaults([]), false),
        "image" := Fixed("img", Defaults([]), Defaults([])),
        "embed" := Fixed("iframe", Defaults([]), Defaults([])),
        "code" := Fixed("pre", Defaults([]), Defaults([])),
        "quote" := Fixed("blockquote", Defaults(["blockquote"]), Defaults([])),
        "table" := Fixed("table", Defaults([]), Defaults([])),
        "hr" := Fixed("hr", Defaults([]), Defaults([])),
        "warning" := Fixed("div", Defaults([]), Defaults([])),
        "linkTool" := Fixed("div", Defaults(["link-tool"]), Defaults([])),
        "media" := Fixed("div", Defaults([]), Defaults([])),
        "attaches" := Fixed("a", Defaults(["file-link"]), Defaults(NoFollow))
      ],
      map[
        "caption" := PerParent(map["image" := "span", "quote" := "span"],
          Keyed(map["default" := [], "image" := ["editor-image-caption"], "quote" := ["blockquote-caption"]]), Defaults([])),
        "image" := Entry(Unset, ByParent(map["default" := "img", "linkTool" := "img"]), Defaults([]), Defaults([]), true),
        "fileBlock" := PerParent(map["default" := "div", "attaches" := "div"], Defaults([]), Defaults([])),
        "icon" := PerParent(map["default" := "span", "attaches" := "span", "fileBlock" := "span"],
          Keyed(map["default" := [], "attaches" := ["file-icon"], "fileBlock" := ["fiv-cla", "fiv-icon-ppt", "fiv-size-lg"]]), Defaults([])),
        "fileName" := PerParent(map["default" := "span", "attaches" := "span"],
          Keyed(map["default" := [], "attaches" := ["file-name"], "fileBlock" := ["file-name"]]), Defaults([])),
        "body" := PerParent(map["default" := "div", "media" := "div"],
          Keyed(map["default" := [], "media" := ["media-body"]]), Defaults([])),
        "anchor" := PerParent(map["default" := "span", "linkTool" := "span"],
          Keyed(map["default" := [], "linkTool" := [], "link" := []]), Defaults([])),
        "title" := PerParent(map["default" := "div", "warning" := "div", "linkTool" := "div"],
          Keyed(map["default" := [], "warning" := ["warning-title"], "linkTool" := ["link-tool-title"], "link" := ["link-tool-title"]]),
          Defaults([])),
        "description" := PerParent(map["default" := "p", "linkTool" := "p"],
          Keyed(map["default" := [], "linkTool" := ["link-tool-description"], "link" := ["link-tool-description"]]), Defaults([])),
        "message" := PerParent(map["default" := "div", "warning" := "div"], Defaults(["warning-message"]), Defaults([])),
        "link" := PerParent(map["default" := "a", "attaches" := "a", "linkTool" := "a"],
          Keyed(map["default" := [], "linkTool" := ["link-tool__content", "link-tool__content--rendered"]]),
          Keyed(map["default" := [], "attaches" := [], "linkTool" := NoFollow])),
        "linkImg" := PerParent(map["default" := "div", "attaches" := "div", "linkTool" := "div"],
          Keyed(map["default" := [], "linkTool" := ["link-tool__image"], "link" := ["link-tool__image"]]), Defaults([])),
        "wrapper" := PerParent(map["default" := "div", "root" := "div"],
          Keyed(map["default" := [], "root" := ["codex-editor"]]), Defaults([])),
        "subWrapper" := PerParent(map["default" := "div", "root" := "div", "wrapper" := "div"],
          Keyed(map["default" := [], "root" := ["codex-editor__wrapper"], "wrapper" := ["codex-editor__redactor"]]), Defaults([]))
      ],
      map[
        "div" := Fixed("div", Keyed(map["default" := [], "wrapper" := ["codex-editor"], "subWrapper" := ["codex-editor__redactor"]]), Defaults([])),
        "pre" := Fixed("pre", Defaults([]), Defaults([])),
        "li" := Fixed("li", Defaults([]), Defaults([])),
        "thead" := Fixed("thead", Defaults([]), Defaults([])),
        "th" := Fixed("th", Defaults([]), Defaults([])),
        "tbody" := Fixed("tbody", Defaults([]), Defaults([])),
        "tr" := Entry(Name("tr"), Unset, Defaults([]), Defaults([]), true),
        "td" := Fixed("td", Defaults([]), Defaults([]))
      ])
  }

  /** The shipped header entry: a fixed `'h'` with no default classes. */
  lemma ShippedHeaderEntry()
    ensures "header" in DefaultTemplate().blocks
    ensures DefaultTemplate().blocks["header"] == Fixed("h", Defaults([]), Defaults([]))
  {
  }

  /**
   * With the shipped table a header whose level is at least 1 gets the
   * tag `'h'` followed by the level's digits (`h3` for level 3); without
   * such a level it keeps the entry's fixed tag `'h'`.
   */
  lemma ShippedHeaderTag(block: Block, parent: Option<string>, prior: Look)
    requires block.kind == "header"
    ensures HasLevel(block) ==>
      BlockLook(DefaultTemplate(), block, parent, prior) == Ok(Look(Some("h" + Decimal(block.data.level.value)), Some([]), prior.attributes))
    ensures !HasLevel(block) ==> BlockLook(DefaultTemplate(), block, parent, prior) == Ok(Look(Some("h"), Some([]), prior.attributes))
  {
    ShippedHeaderEntry();
    HeaderLook(DefaultTemplate(), block, parent, prior);
  }

  /** The shipped list entry: the number 0 as its tag, no default classes. */
  lemma ShippedListEntry()
    ensures "list" in DefaultTemplate().blocks
    ensures DefaultTemplate().blocks["list"] == Entry(Number(0), Unset, Defaults([]), Defaults([]), false)
  {
  }

  /** With the shipped table a list is an `ol` exactly when its style is "ordered", and a `ul` otherwise. */
  lemma ShippedListTag(block: Block, parent: Option<string>, prior: Look)
    requires block.kind == "list"
    ensures BlockLook(DefaultTemplate(), block, parent, prior) == Ok(Look(Some(ListTag(block)), Some([]), prior.attributes))
    ensures ListTag(block) == "ol" <==> block.data.style == Some("ordered")
  {
    ShippedListEntry();
    ListLook(DefaultTemplate(), block, parent, prior);
  }
}
