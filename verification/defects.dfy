/**
 * Shapes of the shipped template table (lib/ejs-html-bricks.js:394-592)
 * that make `fromTag` and `fromProperty` throw, each set against the
 * repaired table, and what they mean for the block routines: with the
 * shipped table a list with an item, a table with a row, and every media,
 * linkTool and attaches block throw; with the repaired one they complete.
 */
module Defects {
  import opened Basics
  import opened Blocks
  import opened Dom
  import opened Templates
  import opened Shipped
  import opened Routines
  import opened Builder

  // ---------------------------------------------------------------------
  // `tags` entries whose `classes` field is an array: `classes['default']`
  // is undefined and `classList.add(...undefined)` throws

  lemma LiEntries()
    ensures "li" in DefaultTemplate().tags && DefaultTemplate().tags["li"] == Fixed("li", EmptyArray(), EmptyArray())
    ensures "li" in RepairedTemplate().tags && RepairedTemplate().tags["li"] == Fixed("li", Defaults([]), Defaults([]))
  {
  }

  lemma TheadEntries()
    ensures "thead" in DefaultTemplate().tags && DefaultTemplate().tags["thead"] == Fixed("thead", EmptyArray(), EmptyArray())
    ensures "thead" in RepairedTemplate().tags && RepairedTemplate().tags["thead"] == Fixed("thead", Defaults([]), Defaults([]))
  {
  }

  lemma ThEntries()
    ensures "th" in DefaultTemplate().tags && DefaultTemplate().tags["th"] == Fixed("th", EmptyArray(), EmptyArray())
    ensures "th" in RepairedTemplate().tags && RepairedTemplate().tags["th"] == Fixed("th", Defaults([]), Defaults([]))
  {
  }

  lemma TbodyEntries()
    ensures "tbody" in DefaultTemplate().tags && DefaultTemplate().tags["tbody"] == Fixed("tbody", EmptyArray(), EmptyArray())
    ensures "tbody" in RepairedTemplate().tags && RepairedTemplate().tags["tbody"] == Fixed("tbody", Defaults([]), Defaults([]))
  {
  }

  lemma TrEntries()
    ensures "tr" in DefaultTemplate().tags && DefaultTemplate().tags["tr"] == Entry(Name("tr"), Unset, EmptyArray(), EmptyArray(), true)
    ensures "tr" in RepairedTemplate().tags && RepairedTemplate().tags["tr"] == Entry(Name("tr"), Unset, Defaults([]), Defaults([]), true)
  {
  }

  lemma TdEntries()
    ensures "td" in DefaultTemplate().tags && DefaultTemplate().tags["td"] == Fixed("td", EmptyArray(), EmptyArray())
    ensures "td" in RepairedTemplate().tags && RepairedTemplate().tags["td"] == Fixed("td", Defaults([]), Defaults([]))
  {
  }

  lemma DivEntries()
    ensures "div" in DefaultTemplate().tags && DefaultTemplate().tags["div"] == Fixed("div", Keyed(map["wrapper" := ["codex-editor"], "subWrapper" := ["codex-editor__redactor"]]), EmptyArray())
    ensures "div" in RepairedTemplate().tags && RepairedTemplate().tags["div"] == Fixed("div", Keyed(map["default" := [], "wrapper" := ["codex-editor"], "subWrapper" := ["codex-editor__redactor"]]), Defaults([]))
  {
  }

  /** A shipped tags entry whose classes are an array, and its repaired form with an empty default class list. */
  lemma TagEntryFacts(d: Entry, r: Entry, name: string)
    requires d == Fixed(name, EmptyArray(), EmptyArray()) || d == Entry(Name(name), Unset, EmptyArray(), EmptyArray(), true)
    requires r == Fixed(name, Defaults([]), Defaults([])) || r == Entry(Name(name), Unset, Defaults([]), Defaults([]), true)
    ensures At(d.classes, "default").None? && At(r.classes, "default") == Some([])
  {
  }

  /** The shipped `div` entry, keyed by parent without a `'default'` key, and its repaired form. */
  lemma DivEntryFacts(d: Entry, r: Entry)
    requires d == Fixed("div", Keyed(map["wrapper" := ["codex-editor"], "subWrapper" := ["codex-editor__redactor"]]), EmptyArray())
    requires r == Fixed("div", Keyed(map["default" := [], "wrapper" := ["codex-editor"], "subWrapper" := ["codex-editor__redactor"]]), Defaults([]))
    ensures At(d.classes, "default").None? && At(r.classes, "default") == Some([])
  {
  }

  /** A tag whose shipped entry has no `'default'` class list and whose repaired entry has an empty one. */
  lemma TagLooks(t: Template, u: Template, name: string, prior: Look)
    requires ValidElementName(name)
    requires name in t.tags && At(t.tags[name].classes, "default").None?
    requires name in u.tags && At(u.tags[name].classes, "default") == Some([])
    ensures TagLook(t, name, prior) == Err(TypeError)
    ensures TagLook(u, name, prior) == Ok(Look(Some(name), Some([]), prior.attributes))
  {
    assert TokenCheck([]).Pass?;
  }

  lemma TagNames()
    ensures ValidElementName("li") && ValidElementName("thead") && ValidElementName("th") && ValidElementName("tbody")
    ensures ValidElementName("tr") && ValidElementName("td") && ValidElementName("div")
  {
    assert AsciiAlpha('l') && AsciiAlpha('t') && AsciiAlpha('d');
  }

  /**
   * With the shipped table `fromTag` throws for every tag the list and
   * table routines use, and for `div`.
   */
  lemma ShippedTagsFail(prior: Look)
    ensures TagLook(DefaultTemplate(), "li", prior) == Err(TypeError)
    ensures TagLook(DefaultTemplate(), "thead", prior) == Err(TypeError)
    ensures TagLook(DefaultTemplate(), "th", prior) == Err(TypeError)
    ensures TagLook(DefaultTemplate(), "tbody", prior) == Err(TypeError)
    ensures TagLook(DefaultTemplate(), "tr", prior) == Err(TypeError)
    ensures TagLook(DefaultTemplate(), "td", prior) == Err(TypeError)
    ensures TagLook(DefaultTemplate(), "div", prior) == Err(TypeError)
  {
    var t, u := DefaultTemplate(), RepairedTemplate();
    TagNames();
    LiEntries();
    TagEntryFacts(t.tags["li"], u.tags["li"], "li");
    TagLooks(t, u, "li", prior);
    TheadEntries();
    TagEntryFacts(t.tags["thead"], u.tags["thead"], "thead");
    TagLooks(t, u, "thead", prior);
    ThEntries();
    TagEntryFacts(t.tags["th"], u.tags["th"], "th");
    TagLooks(t, u, "th", prior);
    TbodyEntries();
    TagEntryFacts(t.tags["tbody"], u.tags["tbody"], "tbody");
    TagLooks(t, u, "tbody", prior);
    TrEntries();
    TagEntryFacts(t.tags["tr"], u.tags["tr"], "tr");
    TagLooks(t, u, "tr", prior);
    TdEntries();
    TagEntryFacts(t.tags["td"], u.tags["td"], "td");
    TagLooks(t, u, "td", prior);
    DivEntries();
    DivEntryFacts(t.tags["div"], u.tags["div"]);
    TagLooks(t, u, "div", prior);
  }

  /** With the repaired table the same tags resolve to themselves, without classes. */
  lemma RepairedTagsResolve(prior: Look)
    ensures TagLook(RepairedTemplate(), "li", prior) == Ok(Look(Some("li"), Some([]), prior.attributes))
    ensures TagLook(RepairedTemplate(), "thead", prior) == Ok(Look(Some("thead"), Some([]), prior.attributes))
    ensures TagLook(RepairedTemplate(), "th", prior) == Ok(Look(Some("th"), Some([]), prior.attributes))
    ensures TagLook(RepairedTemplate(), "tbody", prior) == Ok(Look(Some("tbody"), Some([]), prior.attributes))
    ensures TagLook(RepairedTemplate(), "tr", prior) == Ok(Look(Some("tr"), Some([]), prior.attributes))
    ensures TagLook(RepairedTemplate(), "td", prior) == Ok(Look(Some("td"), Some([]), prior.attributes))
    ensures TagLook(RepairedTemplate(), "div", prior) == Ok(Look(Some("div"), Some([]), prior.attributes))
  {
    var t, u := DefaultTemplate(), RepairedTemplate();
    TagNames();
    LiEntries();
    TagEntryFacts(t.tags["li"], u.tags["li"], "li");
    TagLooks(t, u, "li", prior);
    TheadEntries();
    TagEntryFacts(t.tags["thead"], u.tags["thead"], "thead");
    TagLooks(t, u, "thead", prior);
    ThEntries();
    TagEntryFacts(t.tags["th"], u.tags["th"], "th");
    TagLooks(t, u, "th", prior);
    TbodyEntries();
    TagEntryFacts(t.tags["tbody"], u.tags["tbody"], "tbody");
    TagLooks(t, u, "tbody", prior);
    TrEntries();
    TagEntryFacts(t.tags["tr"], u.tags["tr"], "tr");
    TagLooks(t, u, "tr", prior);
    TdEntries();
    TagEntryFacts(t.tags["td"], u.tags["td"], "td");
    TagLooks(t, u, "td", prior);
    DivEntries();
    DivEntryFacts(t.tags["div"], u.tags["div"]);
    TagLooks(t, u, "div", prior);
  }

  /** A list with an item needs `fromTag('li')`. */
  lemma ListNeedsItemTag(t: Template, block: Block, key: string)
    requires block.kind == "list" && block.data.items.Some? && |block.data.items.value| > 0
    requires TagLook(t, "li", Blank).Err?
    ensures !RoutineOk(t, block, key)
  {
  }

  /** With the shipped table a list with at least one item never completes: its first `li` throws. */
  lemma ShippedListFails(block: Block, key: string)
    requires block.kind == "list" && block.data.items.Some? && |block.data.items.value| > 0
    ensures !RoutineOk(DefaultTemplate(), block, key)
  {
    ShippedTagsFail(Blank);
    ListNeedsItemTag(DefaultTemplate(), block, key);
  }

  /** A table with a row needs `fromTag('thead')`. */
  lemma TableNeedsHeadTag(t: Template, block: Block, key: string)
    requires block.kind == "table" && block.data.content.Some? && |block.data.content.value| > 0
    requires TagLook(t, "thead", Blank).Err?
    ensures !RoutineOk(t, block, key)
  {
  }

  /** With the shipped table a table with at least one row never completes: its `thead` throws. */
  lemma ShippedTableFails(block: Block, key: string)
    requires block.kind == "table" && block.data.content.Some? && |block.data.content.value| > 0
    ensures !RoutineOk(DefaultTemplate(), block, key)
  {
    ShippedTagsFail(Blank);
    TableNeedsHeadTag(DefaultTemplate(), block, key);
  }

  /** The repaired block entries of the list, table, media, linkTool and attaches types. */
  lemma RepairedBlockEntries()
    ensures "list" in RepairedTemplate().blocks
    ensures RepairedTemplate().blocks["list"] == Entry(Number(0), Unset, Defaults([]), Defaults([]), false)
    ensures "table" in RepairedTemplate().blocks && RepairedTemplate().blocks["table"] == Fixed("table", Defaults([]), Defaults([]))
    ensures "media" in RepairedTemplate().blocks && RepairedTemplate().blocks["media"] == Fixed("div", Defaults([]), Defaults([]))
    ensures "linkTool" in RepairedTemplate().blocks
    ensures RepairedTemplate().blocks["linkTool"] == Fixed("div", Defaults(["link-tool"]), Defaults([]))
    ensures "attaches" in RepairedTemplate().blocks
    ensures RepairedTemplate().blocks["attaches"] == Fixed("a", Defaults(["file-link"]), Defaults(NoFollow))
  {
  }

  /** A block entry with a fixed, valid tag and valid default classes resolves for a block of another type than header and list. */
  lemma FixedBlockResolves(t: Template, block: Block, key: string, tag: string, classes: seq<string>)
    requires block.kind in t.blocks && block.kind != "header" && block.kind != "list"
    requires t.blocks[block.kind] == Fixed(tag, Defaults(classes), t.blocks[block.kind].attributes)
    requires ValidElementName(tag) && TokenCheck(classes).Pass?
    ensures BlockOk(t, block, key)
  {
  }

  /** A list completes once its block entry and the `li` tag resolve. */
  lemma ListRuns(t: Template, block: Block, key: string)
    requires block.kind == "list" && block.data.items.Some?
    requires "list" in t.blocks && t.blocks["list"] == Entry(Number(0), Unset, Defaults([]), Defaults([]), false)
    requires TagLook(t, "li", Blank).Ok?
    ensures RoutineOk(t, block, key)
  {
    assert TokenCheck([]).Pass?;
    ListLook(t, block, Some(key), Blank);
  }

  /** With the repaired table a list completes, whatever its items. */
  lemma RepairedListRuns(block: Block, key: string)
    requires block.kind == "list" && block.data.items.Some?
    ensures RoutineOk(RepairedTemplate(), block, key)
  {
    RepairedBlockEntries();
    RepairedTagsResolve(Blank);
    ListRuns(RepairedTemplate(), block, key);
  }

  /** A table completes once its block entry and the five table tags resolve. */
  lemma TableRuns(t: Template, block: Block, key: string)
    requires block.kind == "table" && block.data.content.Some?
    requires "table" in t.blocks && t.blocks["table"] == Fixed("table", Defaults([]), Defaults([]))
    requires TagLook(t, "thead", Blank).Ok? && TagLook(t, "th", Blank).Ok? && TagLook(t, "tbody", Blank).Ok?
    requires TagLook(t, "tr", Blank).Ok? && TagLook(t, "td", Blank).Ok?
    ensures RoutineOk(t, block, key)
  {
    assert ValidElementName("table") && TokenCheck([]).Pass?;
    FixedBlockResolves(t, block, key, "table", []);
  }

  /** With the repaired table a table completes, whatever its rows. */
  lemma RepairedTableRuns(block: Block, key: string)
    requires block.kind == "table" && block.data.content.Some?
    ensures RoutineOk(RepairedTemplate(), block, key)
  {
    RepairedBlockEntries();
    RepairedTagsResolve(Blank);
    TableRuns(RepairedTemplate(), block, key);
  }

  // ---------------------------------------------------------------------
  // `properties` entries whose `attributes` field is an array or missing:
  // neither `attributes[parent type]` nor `attributes['default']` exists
  // and `attributes.forEach` throws

  /**
   * Under `key` the shipped entry `d` resolves its tag but has no attribute
   * list, and the repaired entry `r` resolves to `tag`, `classes` and an
   * empty attribute list.
   */
  predicate PropertyFacts(d: Entry, r: Entry, key: string, tag: string, classes: seq<string>)
  {
    && d.tags.ByParent? && PropertyTag(d, key) == Some(tag) && Fallback(d.attributes, key).None?
    && r.tags.ByParent? && PropertyTag(r, key) == Some(tag)
    && Fallback(r.classes, key) == Some(classes) && Fallback(r.attributes, key) == Some([])
    && ValidElementName(tag) && TokenCheck(classes).Pass?
  }

  /**
   * A property whose shipped entry resolves its tag under `key` but has no
   * attribute list, and whose repaired entry resolves to `tag`, `classes`
   * and no attributes.
   */
  lemma PropertyLooks(t: Template, u: Template, name: string, key: string, tag: string, classes: seq<string>)
    requires name in t.properties && name in u.properties
    requires PropertyFacts(t.properties[name], u.properties[name], key, tag, classes)
    ensures PropertyLook(t, name, Some(key)) == Err(TypeError)
    ensures PropertyLook(u, name, Some(key)) == Ok(Look(Some(tag), Some(classes), Some([])))
  {
    PropertyResolvesTo(u, name, key, u.properties[name], tag, classes, []);
  }

  lemma BodyEntries()
    ensures "body" in DefaultTemplate().properties && DefaultTemplate().properties["body"] ==
      PerParent(map["default" := "div", "media" := "div"], Keyed(map["default" := [], "media" := ["media-body"]]), EmptyArray())
    ensures "body" in RepairedTemplate().properties && RepairedTemplate().properties["body"] ==
      PerParent(map["default" := "div", "media" := "div"], Keyed(map["default" := [], "media" := ["media-body"]]), Defaults([]))
  {
  }

  lemma FileBlockEntries()
    ensures "fileBlock" in DefaultTemplate().properties && DefaultTemplate().properties["fileBlock"] ==
      PerParent(map["default" := "div", "attaches" := "div"], EmptyArray(), EmptyArray())
    ensures "fileBlock" in RepairedTemplate().properties && RepairedTemplate().properties["fileBlock"] ==
      PerParent(map["default" := "div", "attaches" := "div"], Defaults([]), Defaults([]))
  {
  }

  lemma FileNameEntries()
    ensures "fileName" in DefaultTemplate().properties && DefaultTemplate().properties["fileName"] ==
      PerParent(map["default" := "span", "attaches" := "span"],
      Keyed(map["default" := [], "attaches" := ["file-name"], "fileBlock" := ["file-name"]]), EmptyArray())
    ensures "fileName" in RepairedTemplate().properties && RepairedTemplate().properties["fileName"] ==
      PerParent(map["default" := "span", "attaches" := "span"],
      Keyed(map["default" := [], "attaches" := ["file-name"], "fileBlock" := ["file-name"]]), Defaults([]))
  {
  }

  lemma LinkImgEntries()
    ensures "linkImg" in DefaultTemplate().properties && DefaultTemplate().properties["linkImg"] ==
      PerParent(map["default" := "div", "attaches" := "div", "linkTool" := "div"],
      Keyed(map["default" := [], "linkTool" := ["link-tool__image"], "link" := ["link-tool__image"]]), Absent)
    ensures "linkImg" in RepairedTemplate().properties && RepairedTemplate().properties["linkImg"] ==
      PerParent(map["default" := "div", "attaches" := "div", "linkTool" := "div"],
      Keyed(map["default" := [], "linkTool" := ["link-tool__image"], "link" := ["link-tool__image"]]), Defaults([]))
  {
  }

  lemma ImageEntries()
    ensures "image" in DefaultTemplate().properties && DefaultTemplate().properties["image"] ==
      Entry(Unset, ByParent(map["default" := "img", "linkTool" := "img"]), Defaults([]), EmptyArray(), true)
    ensures "image" in RepairedTemplate().properties && RepairedTemplate().properties["image"] ==
      Entry(Unset, ByParent(map["default" := "img", "linkTool" := "img"]), Defaults([]), Defaults([]), true)
  {
  }

  lemma TitleEntries()
    ensures "title" in DefaultTemplate().properties && DefaultTemplate().properties["title"] ==
      PerParent(map["default" := "div", "warning" := "div", "linkTool" := "div"],
      Keyed(map["warning" := ["warning-title"], "linkTool" := ["link-tool-title"]]), EmptyArray())
    ensures "title" in RepairedTemplate().properties && RepairedTemplate().properties["title"] ==
      PerParent(map["default" := "div", "warning" := "div", "linkTool" := "div"],
      Keyed(map["default" := [], "warning" := ["warning-title"], "linkTool" := ["link-tool-title"], "link" := ["link-tool-title"]]),
      Defaults([]))
  {
  }

  lemma DescriptionEntries()
    ensures "description" in DefaultTemplate().properties && DefaultTemplate().properties["description"] ==
      PerParent(map["default" := "p", "linkTool" := "p"], Keyed(map["linkTool" := ["link-tool-description"]]), EmptyArray())
    ensures "description" in RepairedTemplate().properties && RepairedTemplate().properties["description"] ==
      PerParent(map["default" := "p", "linkTool" := "p"],
      Keyed(map["default" := [], "linkTool" := ["link-tool-description"], "link" := ["link-tool-description"]]), Defaults([]))
  {
  }

  lemma AnchorEntries()
    ensures "anchor" in DefaultTemplate().properties && DefaultTemplate().properties["anchor"] ==
      PerParent(map["default" := "span", "linkTool" := "span"], Keyed(map["linkTool" := []]), EmptyArray())
    ensures "anchor" in RepairedTemplate().properties && RepairedTemplate().properties["anchor"] ==
      PerParent(map["default" := "span", "linkTool" := "span"], Keyed(map["default" := [], "linkTool" := [], "link" := []]), Defaults([]))
  {
  }

  lemma MessageEntries()
    ensures "message" in DefaultTemplate().properties && DefaultTemplate().properties["message"] ==
      PerParent(map["default" := "div", "warning" := "div"], Listed(["warning-message"], map[]), EmptyArray())
    ensures "message" in RepairedTemplate().properties && RepairedTemplate().properties["message"] ==
      PerParent(map["default" := "div", "warning" := "div"], Defaults(["warning-message"]), Defaults([]))
  {
  }

  lemma BodyFacts(d: Entry, r: Entry)
    requires d == PerParent(map["default" := "div", "media" := "div"], Keyed(map["default" := [], "media" := ["media-body"]]), EmptyArray())
    requires r == PerParent(map["default" := "div", "media" := "div"], Keyed(map["default" := [], "media" := ["media-body"]]), Defaults([]))
    ensures PropertyFacts(d, r, "media", "div", ["media-body"])
  {
    assert ValidElementName("div");
    assert ValidToken("media-body");
  }

  lemma BodyUnderMedia()
    ensures PropertyLook(DefaultTemplate(), "body", Some("media")) == Err(TypeError)
    ensures PropertyLook(RepairedTemplate(), "body", Some("media")) == Ok(Look(Some("div"), Some(["media-body"]), Some([])))
  {
    var t, u := DefaultTemplate(), RepairedTemplate();
    BodyEntries();
    BodyFacts(t.properties["body"], u.properties["body"]);
    PropertyLooks(t, u, "body", "media", "div", ["media-body"]);
  }

  lemma FileBlockFacts(d: Entry, r: Entry)
    requires d == PerParent(map["default" := "div", "attaches" := "div"], EmptyArray(), EmptyArray())
    requires r == PerParent(map["default" := "div", "attaches" := "div"], Defaults([]), Defaults([]))
    ensures PropertyFacts(d, r, "attaches", "div", [])
  {
    assert ValidElementName("div");
  }

  lemma FileBlockUnderAttaches()
    ensures PropertyLook(DefaultTemplate(), "fileBlock", Some("attaches")) == Err(TypeError)
    ensures PropertyLook(RepairedTemplate(), "fileBlock", Some("attaches")) == Ok(Look(Some("div"), Some([]), Some([])))
  {
    var t, u := DefaultTemplate(), RepairedTemplate();
    FileBlockEntries();
    FileBlockFacts(t.properties["fileBlock"], u.properties["fileBlock"]);
    PropertyLooks(t, u, "fileBlock", "attaches", "div", []);
  }

  lemma FileNameFacts(d: Entry, r: Entry)
    requires d == PerParent(map["default" := "span", "attaches" := "span"],
      Keyed(map["default" := [], "attaches" := ["file-name"], "fileBlock" := ["file-name"]]), EmptyArray())
    requires r == PerParent(map["default" := "span", "attaches" := "span"],
      Keyed(map["default" := [], "attaches" := ["file-name"], "fileBlock" := ["file-name"]]), Defaults([]))
    ensures PropertyFacts(d, r, "fileBlock", "span", ["file-name"])
  {
    assert ValidElementName("span");
    assert ValidToken("file-name");
  }

  lemma FileNameUnderFileBlock()
    ensures PropertyLook(DefaultTemplate(), "fileName", Some("fileBlock")) == Err(TypeError)
    ensures PropertyLook(RepairedTemplate(), "fileName", Some("fileBlock")) == Ok(Look(Some("span"), Some(["file-name"]), Some([])))
  {
    var t, u := DefaultTemplate(), RepairedTemplate();
    FileNameEntries();
    FileNameFacts(t.properties["fileName"], u.properties["fileName"]);
    PropertyLooks(t, u, "fileName", "fileBlock", "span", ["file-name"]);
  }

  lemma LinkImgFacts(d: Entry, r: Entry)
    requires d == PerParent(map["default" := "div", "attaches" := "div", "linkTool" := "div"],
      Keyed(map["default" := [], "linkTool" := ["link-tool__image"], "link" := ["link-tool__image"]]), Absent)
    requires r == PerParent(map["default" := "div", "attaches" := "div", "linkTool" := "div"],
      Keyed(map["default" := [], "linkTool" := ["link-tool__image"], "link" := ["link-tool__image"]]), Defaults([]))
    ensures PropertyFacts(d, r, "link", "div", ["link-tool__image"])
  {
    assert ValidElementName("div");
    assert ValidToken("link-tool__image");
  }

  lemma LinkImgUnderLink()
    ensures PropertyLook(DefaultTemplate(), "linkImg", Some("link")) == Err(TypeError)
    ensures PropertyLook(RepairedTemplate(), "linkImg", Some("link")) == Ok(Look(Some("div"), Some(["link-tool__image"]), Some([])))
  {
    var t, u := DefaultTemplate(), RepairedTemplate();
    LinkImgEntries();
    LinkImgFacts(t.properties["linkImg"], u.properties["linkImg"]);
    PropertyLooks(t, u, "linkImg", "link", "div", ["link-tool__image"]);
  }

  lemma ImageFacts(d: Entry, r: Entry)
    requires d == Entry(Unset, ByParent(map["default" := "img", "linkTool" := "img"]), Defaults([]), EmptyArray(), true)
    requires r == Entry(Unset, ByParent(map["default" := "img", "linkTool" := "img"]), Defaults([]), Defaults([]), true)
    ensures PropertyFacts(d, r, "linkImg", "img", [])
  {
    assert ValidElementName("img");
  }

  lemma ImageUnderLinkImg()
    ensures PropertyLook(DefaultTemplate(), "image", Some("linkImg")) == Err(TypeError)
    ensures PropertyLook(RepairedTemplate(), "image", Some("linkImg")) == Ok(Look(Some("img"), Some([]), Some([])))
  {
    var t, u := DefaultTemplate(), RepairedTemplate();
    ImageEntries();
    ImageFacts(t.properties["image"], u.properties["image"]);
    PropertyLooks(t, u, "image", "linkImg", "img", []);
  }

  lemma TitleFacts(d: Entry, r: Entry)
    requires d == PerParent(map["default" := "div", "warning" := "div", "linkTool" := "div"],
      Keyed(map["warning" := ["warning-title"], "linkTool" := ["link-tool-title"]]), EmptyArray())
    requires r == PerParent(map["default" := "div", "warning" := "div", "linkTool" := "div"],
      Keyed(map["default" := [], "warning" := ["warning-title"], "linkTool" := ["link-tool-title"], "link" := ["link-tool-title"]]),
      Defaults([]))
    ensures PropertyFacts(d, r, "link", "div", ["link-tool-title"])
  {
    assert ValidElementName("div");
    assert ValidToken("link-tool-title");
  }

  lemma TitleUnderLink()
    ensures PropertyLook(DefaultTemplate(), "title", Some("link")) == Err(TypeError)
    ensures PropertyLook(RepairedTemplate(), "title", Some("link")) == Ok(Look(Some("div"), Some(["link-tool-title"]), Some([])))
  {
    var t, u := DefaultTemplate(), RepairedTemplate();
    TitleEntries();
    TitleFacts(t.properties["title"], u.properties["title"]);
    PropertyLooks(t, u, "title", "link", "div", ["link-tool-title"]);
  }

  lemma DescriptionFacts(d: Entry, r: Entry)
    requires d == PerParent(map["default" := "p", "linkTool" := "p"], Keyed(map["linkTool" := ["link-tool-description"]]), EmptyArray())
    requires r == PerParent(map["default" := "p", "linkTool" := "p"],
      Keyed(map["default" := [], "linkTool" := ["link-tool-description"], "link" := ["link-tool-description"]]), Defaults([]))
    ensures PropertyFacts(d, r, "link", "p", ["link-tool-description"])
  {
    assert ValidElementName("p");
    assert ValidToken("link-tool-description");
  }

  lemma DescriptionUnderLink()
    ensures PropertyLook(DefaultTemplate(), "description", Some("link")) == Err(TypeError)
    ensures PropertyLook(RepairedTemplate(), "description", Some("link")) == Ok(Look(Some("p"), Some(["link-tool-description"]), Some([])))
  {
    var t, u := DefaultTemplate(), RepairedTemplate();
    DescriptionEntries();
    DescriptionFacts(t.properties["description"], u.properties["description"]);
    PropertyLooks(t, u, "description", "link", "p", ["link-tool-description"]);
  }

  lemma AnchorFacts(d: Entry, r: Entry)
    requires d == PerParent(map["default" := "span", "linkTool" := "span"], Keyed(map["linkTool" := []]), EmptyArray())
    requires r == PerParent(map["default" := "span", "linkTool" := "span"], Keyed(map["default" := [], "linkTool" := [], "link" := []]), Defaults([]))
    ensures PropertyFacts(d, r, "link", "span", [])
  {
    assert ValidElementName("span");
  }

  lemma AnchorUnderLink()
    ensures PropertyLook(DefaultTemplate(), "anchor", Some("link")) == Err(TypeError)
    ensures PropertyLook(RepairedTemplate(), "anchor", Some("link")) == Ok(Look(Some("span"), Some([]), Some([])))
  {
    var t, u := DefaultTemplate(), RepairedTemplate();
    AnchorEntries();
    AnchorFacts(t.properties["anchor"], u.properties["anchor"]);
    PropertyLooks(t, u, "anchor", "link", "span", []);
  }

  lemma MessageFacts(d: Entry, r: Entry)
    requires d == PerParent(map["default" := "div", "warning" := "div"], Listed(["warning-message"], map[]), EmptyArray())
    requires r == PerParent(map["default" := "div", "warning" := "div"], Defaults(["warning-message"]), Defaults([]))
    ensures PropertyFacts(d, r, "warning", "div", ["warning-message"])
  {
    assert ValidElementName("div");
    assert ValidToken("warning-message");
  }

  lemma MessageUnderWarning()
    ensures PropertyLook(DefaultTemplate(), "message", Some("warning")) == Err(TypeError)
    ensures PropertyLook(RepairedTemplate(), "message", Some("warning")) == Ok(Look(Some("div"), Some(["warning-message"]), Some([])))
  {
    var t, u := DefaultTemplate(), RepairedTemplate();
    MessageEntries();
    MessageFacts(t.properties["message"], u.properties["message"]);
    PropertyLooks(t, u, "message", "warning", "div", ["warning-message"]);
  }

  /**
   * With the shipped table `fromProperty` throws for every property the
   * media, linkTool and attaches routines lay (the icon aside, which
   * `IconUnderFileBlock` covers), and for the warning's `message`.
   */
  lemma ShippedPropertiesFail()
    ensures PropertyLook(DefaultTemplate(), "body", Some("media")) == Err(TypeError)
    ensures PropertyLook(DefaultTemplate(), "fileBlock", Some("attaches")) == Err(TypeError)
    ensures PropertyLook(DefaultTemplate(), "fileName", Some("fileBlock")) == Err(TypeError)
    ensures PropertyLook(DefaultTemplate(), "linkImg", Some("link")) == Err(TypeError)
    ensures PropertyLook(DefaultTemplate(), "image", Some("linkImg")) == Err(TypeError)
    ensures PropertyLook(DefaultTemplate(), "title", Some("link")) == Err(TypeError)
    ensures PropertyLook(DefaultTemplate(), "description", Some("link")) == Err(TypeError)
    ensures PropertyLook(DefaultTemplate(), "anchor", Some("link")) == Err(TypeError)
    ensures PropertyLook(DefaultTemplate(), "message", Some("warning")) == Err(TypeError)
  {
    BodyUnderMedia();
    FileBlockUnderAttaches();
    FileNameUnderFileBlock();
    LinkImgUnderLink();
    ImageUnderLinkImg();
    TitleUnderLink();
    DescriptionUnderLink();
    AnchorUnderLink();
    MessageUnderWarning();
  }

  /** The repaired `link` entry, the same as the shipped one. */
  lemma LinkEntry()
    ensures "link" in RepairedTemplate().properties
    ensures RepairedTemplate().properties["link"] == PerParent(map["default" := "a", "attaches" := "a", "linkTool" := "a"],
      Keyed(map["default" := [], "linkTool" := ["link-tool__content", "link-tool__content--rendered"]]),
      Keyed(map["default" := [], "attaches" := [], "linkTool" := NoFollow]))
  {
  }

  lemma LinkFacts(r: Entry)
    requires r == PerParent(map["default" := "a", "attaches" := "a", "linkTool" := "a"],
      Keyed(map["default" := [], "linkTool" := ["link-tool__content", "link-tool__content--rendered"]]),
      Keyed(map["default" := [], "attaches" := [], "linkTool" := NoFollow]))
    ensures r.tags.ByParent? && PropertyTag(r, "linkTool") == Some("a") && ValidElementName("a")
    ensures Fallback(r.classes, "linkTool") == Some(["link-tool__content", "link-tool__content--rendered"])
    ensures TokenCheck(["link-tool__content", "link-tool__content--rendered"]).Pass?
    ensures Fallback(r.attributes, "linkTool") == Some(NoFollow)
  {
    assert ValidElementName("a");
    assert ValidToken("link-tool__content") && ValidToken("link-tool__content--rendered");
  }

  lemma LinkUnderLinkTool()
    ensures PropertyLook(RepairedTemplate(), "link", Some("linkTool")) ==
      Ok(Look(Some("a"), Some(["link-tool__content", "link-tool__content--rendered"]), Some(NoFollow)))
  {
    var u := RepairedTemplate();
    LinkEntry();
    LinkFacts(u.properties["link"]);
    PropertyResolvesTo(u, "link", "linkTool", u.properties["link"], "a", ["link-tool__content", "link-tool__content--rendered"], NoFollow);
  }

  /**
   * With the repaired table each of those properties resolves under the
   * brick it is laid under; the link texts take the classes the shipped
   * table keeps under `linkTool`.
   */
  lemma RepairedPropertiesResolve()
    ensures PropertyLook(RepairedTemplate(), "body", Some("media")) == Ok(Look(Some("div"), Some(["media-body"]), Some([])))
    ensures PropertyLook(RepairedTemplate(), "fileBlock", Some("attaches")) == Ok(Look(Some("div"), Some([]), Some([])))
    ensures PropertyLook(RepairedTemplate(), "fileName", Some("fileBlock")) == Ok(Look(Some("span"), Some(["file-name"]), Some([])))
    ensures PropertyLook(RepairedTemplate(), "linkImg", Some("link")) == Ok(Look(Some("div"), Some(["link-tool__image"]), Some([])))
    ensures PropertyLook(RepairedTemplate(), "image", Some("linkImg")) == Ok(Look(Some("img"), Some([]), Some([])))
    ensures PropertyLook(RepairedTemplate(), "title", Some("link")) == Ok(Look(Some("div"), Some(["link-tool-title"]), Some([])))
    ensures PropertyLook(RepairedTemplate(), "description", Some("link")) ==
      Ok(Look(Some("p"), Some(["link-tool-description"]), Some([])))
    ensures PropertyLook(RepairedTemplate(), "anchor", Some("link")) == Ok(Look(Some("span"), Some([]), Some([])))
    ensures PropertyLook(RepairedTemplate(), "message", Some("warning")) ==
      Ok(Look(Some("div"), Some(["warning-message"]), Some([])))
  {
    BodyUnderMedia();
    FileBlockUnderAttaches();
    FileNameUnderFileBlock();
    LinkImgUnderLink();
    ImageUnderLinkImg();
    TitleUnderLink();
    DescriptionUnderLink();
    AnchorUnderLink();
    MessageUnderWarning();
  }

  /** A media block needs its `body`. */
  lemma MediaNeedsBody(t: Template, block: Block, key: string)
    requires block.kind == "media" && PropertyLook(t, "body", Some("media")).Err?
    ensures !RoutineOk(t, block, key)
  {
  }

  /** With the shipped table a media block never completes: its `body` throws. */
  lemma ShippedMediaFails(block: Block, key: string)
    requires block.kind == "media"
    ensures !RoutineOk(DefaultTemplate(), block, key)
  {
    BodyUnderMedia();
    MediaNeedsBody(DefaultTemplate(), block, key);
  }

  /** A linkTool block needs its `title` under the link brick. */
  lemma LinkToolNeedsTitle(t: Template, block: Block, key: string)
    requires block.kind == "linkTool" && PropertyLook(t, "title", Some("link")).Err?
    ensures !RoutineOk(t, block, key)
  {
  }

  /** With the shipped table a linkTool block never completes: its `title` throws if nothing before it does. */
  lemma ShippedLinkToolFails(block: Block, key: string)
    requires block.kind == "linkTool"
    ensures !RoutineOk(DefaultTemplate(), block, key)
  {
    TitleUnderLink();
    LinkToolNeedsTitle(DefaultTemplate(), block, key);
  }

  /** An attaches block needs its `fileBlock`. */
  lemma AttachesNeedsFileBlock(t: Template, block: Block, key: string)
    requires block.kind == "attaches" && PropertyLook(t, "fileBlock", Some("attaches")).Err?
    ensures !RoutineOk(t, block, key)
  {
  }

  /** With the shipped table an attaches block never completes: its `fileBlock` throws if nothing before it does. */
  lemma ShippedAttachesFails(block: Block, key: string)
    requires block.kind == "attaches"
    ensures !RoutineOk(DefaultTemplate(), block, key)
  {
    FileBlockUnderAttaches();
    AttachesNeedsFileBlock(DefaultTemplate(), block, key);
  }

  /** A media block completes once its block entry and `body` resolve. */
  lemma MediaRuns(t: Template, block: Block, key: string)
    requires block.kind == "media" && "media" in t.blocks && t.blocks["media"] == Fixed("div", Defaults([]), Defaults([]))
    requires PropertyLook(t, "body", Some("media")).Ok?
    ensures RoutineOk(t, block, key)
  {
    assert ValidElementName("div") && TokenCheck([]).Pass?;
    FixedBlockResolves(t, block, key, "div", []);
  }

  /** With the repaired table a media block completes. */
  lemma RepairedMediaRuns(block: Block, key: string)
    requires block.kind == "media"
    ensures RoutineOk(RepairedTemplate(), block, key)
  {
    RepairedBlockEntries();
    BodyUnderMedia();
    MediaRuns(RepairedTemplate(), block, key);
  }

  /** A linkTool block with a link and a meta image completes once its block entry and its six properties resolve. */
  lemma LinkToolRuns(t: Template, block: Block, key: string)
    requires block.kind == "linkTool" && block.data.link.Some? && block.data.meta.Some? && block.data.meta.value.image.Some?
    requires "linkTool" in t.blocks && t.blocks["linkTool"] == Fixed("div", Defaults(["link-tool"]), Defaults([]))
    requires PropertyLook(t, "link", Some("linkTool")).Ok? && PropertyLook(t, "linkImg", Some("link")).Ok?
    requires PropertyLook(t, "image", Some("linkImg")).Ok? && PropertyLook(t, "title", Some("link")).Ok?
    requires PropertyLook(t, "description", Some("link")).Ok? && PropertyLook(t, "anchor", Some("link")).Ok?
    ensures RoutineOk(t, block, key)
  {
    LinkToolBlockResolves(t, block, key);
    assert LinkToolOk(t, block, key);
  }

  lemma LinkToolBlockResolves(t: Template, block: Block, key: string)
    requires block.kind == "linkTool"
    requires "linkTool" in t.blocks && t.blocks["linkTool"] == Fixed("div", Defaults(["link-tool"]), Defaults([]))
    ensures BlockOk(t, block, key)
  {
    assert ValidElementName("div") && ValidToken("link-tool");
    FixedBlockResolves(t, block, key, "div", ["link-tool"]);
  }

  /** With the repaired table a linkTool block completes whenever it has a link and a meta image. */
  lemma RepairedLinkToolRuns(block: Block, key: string)
    requires block.kind == "linkTool" && block.data.link.Some? && block.data.meta.Some? && block.data.meta.value.image.Some?
    ensures RoutineOk(RepairedTemplate(), block, key)
  {
    RepairedBlockEntries();
    LinkUnderLinkTool();
    LinkImgUnderLink();
    ImageUnderLinkImg();
    TitleUnderLink();
    DescriptionUnderLink();
    AnchorUnderLink();
    LinkToolRuns(RepairedTemplate(), block, key);
  }

  /** An attaches block with a file completes once its block entry and its three properties resolve. */
  lemma AttachesRuns(t: Template, block: Block, key: string)
    requires block.kind == "attaches" && block.data.file.Some?
    requires "attaches" in t.blocks && t.blocks["attaches"] == Fixed("a", Defaults(["file-link"]), Defaults(NoFollow))
    requires PropertyLook(t, "fileBlock", Some("attaches")).Ok?
    requires PropertyLook(t, "icon", Some("fileBlock")).Ok? && PropertyLook(t, "fileName", Some("fileBlock")).Ok?
    ensures RoutineOk(t, block, key)
  {
    assert ValidElementName("a") && ValidToken("file-link");
    FixedBlockResolves(t, block, key, "a", ["file-link"]);
  }

  /** With the repaired table an attaches block completes whenever it has a file. */
  lemma RepairedAttachesRuns(block: Block, key: string)
    requires block.kind == "attaches" && block.data.file.Some?
    ensures RoutineOk(RepairedTemplate(), block, key)
  {
    RepairedBlockEntries();
    FileBlockUnderAttaches();
    IconUnderFileBlock();
    FileNameUnderFileBlock();
    AttachesRuns(RepairedTemplate(), block, key);
  }

  // ---------------------------------------------------------------------
  // Link texts whose classes are keyed by `linkTool` but laid under `link`

  // The shipped title, description and anchor classes, with the missing
  // attribute lists supplied: under the `link` brick they are laid under,
  // neither `classes['link']` nor `classes['default']` exists, and
  // `classList.add(...undefined)` throws.

  /** The shipped title entry keeps its classes under `linkTool` only, so under `link` it fails. */
  lemma TitleWithoutClasses(t: Template)
    requires "title" in t.properties && t.properties["title"] == PerParent(map["default" := "div", "warning" := "div", "linkTool" := "div"],
      Keyed(map["warning" := ["warning-title"], "linkTool" := ["link-tool-title"]]), Defaults([]))
    ensures PropertyLook(t, "title", Some("link")) == Err(TypeError)
  {
    assert ValidElementName("div");
  }

  /** The shipped description entry keeps its classes under `linkTool` only, so under `link` it fails. */
  lemma DescriptionWithoutClasses(t: Template)
    requires "description" in t.properties && t.properties["description"] == PerParent(map["default" := "p", "linkTool" := "p"],
      Keyed(map["linkTool" := ["link-tool-description"]]), Defaults([]))
    ensures PropertyLook(t, "description", Some("link")) == Err(TypeError)
  {
    assert ValidElementName("p");
  }

  /** The shipped anchor entry keeps its classes under `linkTool` only, so under `link` it fails. */
  lemma AnchorWithoutClasses(t: Template)
    requires "anchor" in t.properties && t.properties["anchor"] == PerParent(map["default" := "span", "linkTool" := "span"],
      Keyed(map["linkTool" := []]), Defaults([]))
    ensures PropertyLook(t, "anchor", Some("link")) == Err(TypeError)
  {
    assert ValidElementName("span");
  }
}
