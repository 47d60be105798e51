/**
 * EJSHtmlBuilder (lib/ejs-html-builder.js): the block dispatcher.  The
 * constructor defines one routine per block type on its `builder` object;
 * `build` wraps a target element as the root brick, lays the `wrapper` and
 * `subWrapper` scaffold, and hands every block, in order, to the routine
 * named by its type with `subWrapper` as the container.
 */
module Builder {
  import opened Basics
  import opened Blocks
  import opened Dom
  import opened Templates
  import opened Shipped
  import opened Bricks
  import opened Routines

  /** The block types `this.builder` has a routine for. */
  const RoutineNames: set<string> :=
    {"paragraph", "header", "list", "image", "embed", "code", "quote", "table", "hr", "warning", "linkTool", "media", "attaches"}

  /**
   * The routine for `block.type` completes under a container whose key is
   * `key`; a type without a routine never does.
   */
  predicate RoutineOk(t: Template, block: Block, key: string)
  {
    match block.kind
    case "paragraph" => BlockOk(t, block, key)
    case "header" => BlockOk(t, block, key)
    case "hr" => BlockOk(t, block, key)
    case "warning" => BlockOk(t, block, key)
    case "embed" => BlockOk(t, block, key)
    case "image" => CaptionedOk(t, block, key)
    case "quote" => CaptionedOk(t, block, key)
    case "code" => TagLook(t, "pre", Blank).Ok? && BlockOk(t, block, "pre")
    case "list" => ListOk(t, block, key)
    case "table" => TableOk(t, block, key)
    case "media" => BlockOk(t, block, key) && PropertyLook(t, "body", Some(block.kind)).Ok?
    case "linkTool" => LinkToolOk(t, block, key)
    case "attaches" => AttachesOk(t, block, key)
    case _ => false
  }

  /**
   * The brick a routine leaves as the container's new last child: the `pre`
   * tag brick for code, the block brick for every other type.
   */
  ghost predicate Rendered(b: Brick, t: Template, block: Block, key: string)
    reads b`category, b`brickID, b`kind, b`tag, b`classes, b`attributes, b`element, b.element
  {
    if block.kind == "code" then MadeFromTag(b, t, "pre") else MadeFromBlock(b, t, block, key)
  }

  /**
   * `this.builder[block.type](block, c)` on the brick path: the routine for
   * the block's type, or a TypeError when `builder` has no such routine
   * (`defined` is false when the constructor returned before defining any).
   */
  method Dispatch(block: Block, c: Brick, defined: bool, reg: Registry) returns (r: Outcome)
    modifies c`over, c.element
    ensures r.Pass? <==> defined && old(Open(c)) && RoutineOk(reg.template, block, KeyOf(c.kind))
    ensures !defined || block.kind !in RoutineNames ==> r == Fail(TypeError) && c.over == old(c.over)
    ensures c.element != null ==> c.element.classes == old(c.element.classes) && c.element.attrs == old(c.element.attrs)
    ensures r.Pass? ==>
      && Grew(c, old(c.over.bricks), old(c.element.children))
      && fresh(Top(c)) && fresh(Top(c).element) && Rendered(Top(c), reg.template, block, KeyOf(c.kind))
  {
    if !defined {
      return Fail(TypeError);
    }
    match block.kind
    case "paragraph" => r := TextBlock(block, c, reg);
    case "header" => r := TextBlock(block, c, reg);
    case "hr" => r := Bare(block, c, reg);
    case "warning" => r := Bare(block, c, reg);
    case "embed" => r := Embed(block, c, reg);
    case "image" => r := Image(block, c, reg);
    case "quote" => r := Quote(block, c, reg);
    case "code" => r := Code(block, c, reg);
    case "list" => r := List(block, c, reg);
    case "table" => r := Routines.Table(block, c, reg);
    case "media" => r := Media(block, c, reg);
    case "linkTool" => r := LinkTool(block, c, reg);
    case "attaches" => r := Attaches(block, c, reg);
    case _ => r := Fail(TypeError);
  }

  /** Every block's routine exists and completes under a container with key `key`. */
  predicate AllOk(t: Template, blocks: seq<Block>, defined: bool, key: string)
  {
    (|blocks| > 0 ==> defined) && forall k :: 0 <= k < |blocks| ==> RoutineOk(t, blocks[k], key)
  }

  lemma AllOkSnoc(t: Template, blocks: seq<Block>, i: nat, defined: bool, key: string)
    requires i < |blocks| && AllOk(t, blocks[..i], defined, key) && defined && RoutineOk(t, blocks[i], key)
    ensures AllOk(t, blocks[..i + 1], defined, key)
  {
    assert forall k :: 0 <= k < i ==> blocks[..i + 1][k] == blocks[..i][k];
    assert blocks[..i + 1][i] == blocks[i];
  }

  /** The element nodes of some bricks, in order. */
  ghost function Nodes(kids: seq<Brick>): (r: seq<Node>)
    requires forall i :: 0 <= i < |kids| ==> kids[i].element != null
    reads kids
    ensures |r| == |kids| && forall i :: 0 <= i < |kids| ==> r[i] == Child(kids[i].element)
  {
    if |kids| == 0 then [] else Nodes(kids[..|kids| - 1]) + [Child(Last(kids).element)]
  }

  /** Each of `kids` has `p` as parent, sits one level deeper and has an element. */
  ghost predicate KidsUnder(p: Brick, kids: seq<Brick>)
    reads p`nestingLevel, kids
  {
    forall i :: 0 <= i < |kids| ==> kids[i].under == p && kids[i].nestingLevel == p.nestingLevel + 1 && kids[i].element != null
  }

  /** The first `|kids|` blocks were rendered as `kids`, in order. */
  ghost predicate RenderedAll(kids: seq<Brick>, t: Template, blocks: seq<Block>, key: string)
    reads kids, Elements(kids)
  {
    |kids| <= |blocks| && forall k :: 0 <= k < |kids| ==> Rendered(kids[k], t, blocks[k], key)
  }

  /** One more kid, laid under `sub` and rendered from the next block. */
  lemma KidsSnoc(sub: Brick, kids: seq<Brick>, b: Brick, t: Template, blocks: seq<Block>, key: string)
    requires KidsUnder(sub, kids) && RenderedAll(kids, t, blocks, key) && |kids| < |blocks|
    requires b.under == sub && b.nestingLevel == sub.nestingLevel + 1 && b.element != null
    requires Rendered(b, t, blocks[|kids|], key)
    ensures KidsUnder(sub, kids + [b]) && RenderedAll(kids + [b], t, blocks, key)
    ensures Nodes(kids + [b]) == Nodes(kids) + [Child(b.element)]
  {
    assert (kids + [b])[..|kids|] == kids;
    forall k | 0 <= k < |kids| + 1
      ensures Rendered((kids + [b])[k], t, blocks[k], key)
    {
      if k < |kids| {
        assert (kids + [b])[k] == kids[k];
      }
    }
  }

  lemma LaidIntro(p: Brick, kids: seq<Brick>)
    requires p.over == Children(kids) && p.element != null && KidsUnder(p, kids) && p.element.children == Nodes(kids)
    ensures Laid(p, [], kids)
  {
  }

  lemma SplitLast<T>(s: seq<T>)
    requires |s| > 0
    ensures s == s[..|s| - 1] + [Last(s)]
  {
  }

  /** What the block loop knows about the bricks `kids` laid so far under `sub`. */
  ghost predicate Progress(sub: Brick, kids: seq<Brick>, t: Template, blocks: seq<Block>, key: string)
    reads sub, sub.element, kids, Elements(kids)
  {
    && sub.over == Children(kids) && sub.element != null
    && (forall k :: 0 <= k < |kids| ==> kids[k] != sub && kids[k].element != sub.element)
    && KidsUnder(sub, kids) && sub.element.children == Nodes(kids)
    && RenderedAll(kids, t, blocks, key)
  }

  /** One turn of the block loop: the routine for `blocks[i]`, the block after the `i` laid so far. */
  method DispatchNext(sub: Brick, blocks: seq<Block>, i: nat, defined: bool, reg: Registry, ghost kids: seq<Brick>)
    returns (r: Outcome, ghost next: seq<Brick>)
    requires i == |kids| < |blocks| && Progress(sub, kids, reg.template, blocks, KeyOf(sub.kind))
    modifies sub`over, sub.element
    ensures sub.element.classes == old(sub.element.classes) && sub.element.attrs == old(sub.element.attrs)
    ensures r.Pass? <==> defined && RoutineOk(reg.template, blocks[i], KeyOf(sub.kind))
    ensures r.Pass? ==> |next| == i + 1 && next[..i] == kids && Progress(sub, next, reg.template, blocks, KeyOf(sub.kind))
  {
    next := kids;
    r := Dispatch(blocks[i], sub, defined, reg);
    if r.Fail? {
      return;
    }
    assert KidsUnder(sub, kids) && RenderedAll(kids, reg.template, blocks, KeyOf(sub.kind)) && Nodes(kids) == old(Nodes(kids)) by {
      assert unchanged(kids) && unchanged(Elements(kids));
    }
    var b := Top(sub);
    SplitLast(sub.over.bricks);
    assert sub.over.bricks == kids + [b];
    ProgressSnoc(sub, kids, b, reg.template, blocks, KeyOf(sub.kind));
    next := kids + [b];
    assert next[..i] == kids;
  }

  /** The loop's knowledge after one more kid `b`, laid and rendered from the next block. */
  lemma ProgressSnoc(sub: Brick, kids: seq<Brick>, b: Brick, t: Template, blocks: seq<Block>, key: string)
    requires sub.over == Children(kids + [b]) && sub.element != null && b != sub && b.element != sub.element
    requires forall k :: 0 <= k < |kids| ==> kids[k] != sub && kids[k].element != sub.element
    requires KidsUnder(sub, kids) && RenderedAll(kids, t, blocks, key) && |kids| < |blocks|
    requires b.under == sub && b.nestingLevel == sub.nestingLevel + 1 && b.element != null
    requires sub.element.children == Nodes(kids) + [Child(b.element)]
    requires Rendered(b, t, blocks[|kids|], key)
    ensures Progress(sub, kids + [b], t, blocks, key)
  {
    KidsSnoc(sub, kids, b, t, blocks, key);
    assert forall k :: 0 <= k < |kids| + 1 ==> (kids + [b])[k] != sub && (kids + [b])[k].element != sub.element by {
      forall k | 0 <= k < |kids| + 1 ensures (kids + [b])[k] != sub && (kids + [b])[k].element != sub.element {
        if k < |kids| { assert (kids + [b])[k] == kids[k]; }
      }
    }
  }

  /**
   * The `forEach` over the blocks: each block's routine lays one brick under
   * `sub`, in input order; the first routine that throws ends the loop.
   */
  method DispatchAll(sub: Brick, blocks: seq<Block>, defined: bool, reg: Registry) returns (r: Outcome)
    requires sub.over == Children([]) && sub.element != null && sub.element.children == []
    modifies sub`over, sub.element
    ensures r.Pass? <==> AllOk(reg.template, blocks, defined, KeyOf(sub.kind))
    ensures sub.element.classes == old(sub.element.classes) && sub.element.attrs == old(sub.element.attrs)
    ensures r.Pass? ==>
      && sub.over.Children? && |sub.over.bricks| == |blocks| && Laid(sub, [], sub.over.bricks)
      && forall k :: 0 <= k < |blocks| ==> Rendered(sub.over.bricks[k], reg.template, blocks[k], KeyOf(sub.kind))
  {
    ghost var kids: seq<Brick> := [];
    var i := 0;
    r := Pass;
    while i < |blocks|
      invariant 0 <= i <= |blocks| && r.Pass? && |kids| == i
      invariant AllOk(reg.template, blocks[..i], defined, KeyOf(sub.kind))
      invariant sub.element.classes == old(sub.element.classes) && sub.element.attrs == old(sub.element.attrs)
      invariant Progress(sub, kids, reg.template, blocks, KeyOf(sub.kind))
    {
      r, kids := DispatchNext(sub, blocks, i, defined, reg, kids);
      if r.Fail? {
        assert !AllOk(reg.template, blocks, defined, KeyOf(sub.kind));
        return;
      }
      AllOkSnoc(reg.template, blocks, i, defined, KeyOf(sub.kind));
      i := i + 1;
    }
    assert blocks[..i] == blocks;
    LaidIntro(sub, kids);
  }

  // ---------------------------------------------------------------------
  // build

  /** The lookups of the scaffold: `wrapper` under the root, `subWrapper` under `wrapper`. */
  predicate ScaffoldOk(t: Template)
  {
    PropertyLook(t, "wrapper", Some("root")).Ok? && PropertyLook(t, "subWrapper", Some("wrapper")).Ok?
  }

  /** With the shipped table the scaffold cannot start: the `wrapper` entry has no `attributes` field. */
  lemma ShippedScaffoldFails()
    ensures PropertyLook(DefaultTemplate(), "wrapper", Some("root")) == Err(TypeError)
    ensures !ScaffoldOk(DefaultTemplate())
  {
  }

  /** A property whose entry resolves to a fixed tag, class list and attribute list under `key`. */
  lemma PropertyResolvesTo(t: Template, name: string, key: string, e: Entry, tag: string, classes: seq<string>, attrs: seq<Attr>)
    requires name in t.properties && t.properties[name] == e && e.tags.ByParent?
    requires PropertyTag(e, key) == Some(tag) && ValidElementName(tag)
    requires Fallback(e.classes, key) == Some(classes) && TokenCheck(classes).Pass?
    requires Fallback(e.attributes, key) == Some(attrs)
    ensures PropertyLook(t, name, Some(key)) == Ok(Look(Some(tag), Some(classes), Some(attrs)))
  {
    assert !e.classes.Absent? && !e.attributes.Absent?;
  }

  lemma RepairedEntries()
    ensures "wrapper" in RepairedTemplate().properties && "subWrapper" in RepairedTemplate().properties
    ensures RepairedTemplate().properties["wrapper"] ==
      PerParent(map["default" := "div", "root" := "div"], Keyed(map["default" := [], "root" := ["codex-editor"]]), Defaults([]))
    ensures RepairedTemplate().properties["subWrapper"] ==
      PerParent(map["default" := "div", "root" := "div", "wrapper" := "div"],
        Keyed(map["default" := [], "root" := ["codex-editor__wrapper"], "wrapper" := ["codex-editor__redactor"]]), Defaults([]))
  {
  }

  /** With the repaired table `wrapper` under the root is a `div` of class `codex-editor`. */
  lemma RepairedWrapper()
    ensures PropertyLook(RepairedTemplate(), "wrapper", Some("root")) == Ok(Look(Some("div"), Some(["codex-editor"]), Some([])))
  {
    var t := RepairedTemplate();
    RepairedEntries();
    var e := t.properties["wrapper"];
    WrapperEntry(e);
    PropertyResolvesTo(t, "wrapper", "root", e, "div", ["codex-editor"], []);
  }

  /** The repaired `wrapper` entry under the root: a `div`, one valid class, no attributes. */
  lemma WrapperEntry(e: Entry)
    requires e == PerParent(map["default" := "div", "root" := "div"], Keyed(map["default" := [], "root" := ["codex-editor"]]), Defaults([]))
    ensures e.tags.ByParent? && PropertyTag(e, "root") == Some("div") && ValidElementName("div")
    ensures Fallback(e.classes, "root") == Some(["codex-editor"]) && TokenCheck(["codex-editor"]).Pass?
    ensures Fallback(e.attributes, "root") == Some([])
  {
    assert ValidElementName("div");
    assert TokenCheck(["codex-editor"]).Pass?;
  }

  /** With the repaired table `subWrapper` under `wrapper` is a `div` of class `codex-editor__redactor`. */
  lemma RepairedSubWrapper()
    ensures PropertyLook(RepairedTemplate(), "subWrapper", Some("wrapper")) == Ok(Look(Some("div"), Some(["codex-editor__redactor"]), Some([])))
  {
    var t := RepairedTemplate();
    RepairedEntries();
    var e := t.properties["subWrapper"];
    SubWrapperEntry(e);
    PropertyResolvesTo(t, "subWrapper", "wrapper", e, "div", ["codex-editor__redactor"], []);
  }

  /** The repaired `subWrapper` entry under `wrapper`: a `div`, one valid class, no attributes. */
  lemma SubWrapperEntry(e: Entry)
    requires e == PerParent(map["default" := "div", "root" := "div", "wrapper" := "div"],
      Keyed(map["default" := [], "root" := ["codex-editor__wrapper"], "wrapper" := ["codex-editor__redactor"]]), Defaults([]))
    ensures e.tags.ByParent? && PropertyTag(e, "wrapper") == Some("div") && ValidElementName("div")
    ensures Fallback(e.classes, "wrapper") == Some(["codex-editor__redactor"]) && TokenCheck(["codex-editor__redactor"]).Pass?
    ensures Fallback(e.attributes, "wrapper") == Some([])
  {
    assert ValidElementName("div");
    assert TokenCheck(["codex-editor__redactor"]).Pass?;
  }

  /** With the repaired table the scaffold resolves. */
  lemma RepairedScaffold()
    ensures ScaffoldOk(RepairedTemplate())
  {
    RepairedWrapper();
    RepairedSubWrapper();
  }

  /** The shipped and the repaired `caption` entries. */
  lemma CaptionEntries()
    ensures "caption" in DefaultTemplate().properties && "caption" in RepairedTemplate().properties
    ensures DefaultTemplate().properties["caption"] == PerParent(map["image" := "span", "quote" := "span"],
      Keyed(map["image" := ["editor-image-caption"], "quote" := ["blockquote-caption"]]), EmptyArray())
    ensures RepairedTemplate().properties["caption"] == PerParent(map["image" := "span", "quote" := "span"],
      Keyed(map["default" := [], "image" := ["editor-image-caption"], "quote" := ["blockquote-caption"]]), Defaults([]))
  {
  }

  /** A caption entry whose `attributes` field is an empty array: under an image, `forEach` meets undefined. */
  lemma CaptionWithoutAttributes(t: Template)
    requires "caption" in t.properties
    requires t.properties["caption"] == PerParent(map["image" := "span", "quote" := "span"],
      Keyed(map["image" := ["editor-image-caption"], "quote" := ["blockquote-caption"]]), EmptyArray())
    ensures PropertyLook(t, "caption", Some("image")) == Err(TypeError)
  {
    assert ValidElementName("span");
  }

  /** The repaired caption entry under an image: a `span`, one valid class, no attributes. */
  lemma CaptionEntry(e: Entry)
    requires e == PerParent(map["image" := "span", "quote" := "span"],
      Keyed(map["default" := [], "image" := ["editor-image-caption"], "quote" := ["blockquote-caption"]]), Defaults([]))
    ensures e.tags.ByParent? && PropertyTag(e, "image") == Some("span") && ValidElementName("span")
    ensures Fallback(e.classes, "image") == Some(["editor-image-caption"]) && TokenCheck(["editor-image-caption"]).Pass?
    ensures Fallback(e.attributes, "image") == Some([])
  {
    assert ValidElementName("span");
    assert TokenCheck(["editor-image-caption"]).Pass?;
  }

  /**
   * A caption under an image resolves to a `span` of class
   * `editor-image-caption` with the repaired table; with the shipped one the
   * caption's `attributes` field has neither key, so `fromProperty` throws.
   */
  lemma CaptionUnderImage()
    ensures PropertyLook(DefaultTemplate(), "caption", Some("image")) == Err(TypeError)
    ensures PropertyLook(RepairedTemplate(), "caption", Some("image")) == Ok(Look(Some("span"), Some(["editor-image-caption"]), Some([])))
  {
    CaptionEntries();
    CaptionWithoutAttributes(DefaultTemplate());
    var t := RepairedTemplate();
    var e := t.properties["caption"];
    CaptionEntry(e);
    PropertyResolvesTo(t, "caption", "image", e, "span", ["editor-image-caption"], []);
  }

  /**
   * The `pre` brick of the code routine: the shipped `tags` table has no
   * `pre` entry, so `fromTag('pre')` throws; the repaired one resolves it to
   * a `pre` without classes.
   */
  lemma PreUnderCode(prior: Look)
    ensures TagLook(DefaultTemplate(), "pre", prior) == Err(TypeError)
    ensures TagLook(RepairedTemplate(), "pre", prior) == Ok(Look(Some("pre"), Some([]), prior.attributes))
  {
    PreEntries();
    PreLook(DefaultTemplate(), prior);
    PreLook(RepairedTemplate(), prior);
  }

  /** With the shipped table the code routine never completes, whatever the block and its container. */
  lemma ShippedCodeFails(block: Block, key: string)
    requires block.kind == "code"
    ensures !RoutineOk(DefaultTemplate(), block, key)
  {
    PreUnderCode(Blank);
  }

  /** `fromTag('pre')` under a table without a `pre` entry, and under one with a class-free `pre` entry. */
  lemma PreLook(t: Template, prior: Look)
    requires "pre" in t.tags ==> t.tags["pre"] == Fixed("pre", Defaults([]), Defaults([]))
    ensures "pre" !in t.tags ==> TagLook(t, "pre", prior) == Err(TypeError)
    ensures "pre" in t.tags ==> TagLook(t, "pre", prior) == Ok(Look(Some("pre"), Some([]), prior.attributes))
  {
    assert ValidElementName("pre");
    assert TokenCheck([]).Pass?;
  }

  /** The shipped `tags` table lacks `pre`; the repaired one has it with no default classes. */
  lemma PreEntries()
    ensures "pre" !in DefaultTemplate().tags && "pre" in RepairedTemplate().tags
    ensures RepairedTemplate().tags["pre"] == Fixed("pre", Defaults([]), Defaults([]))
  {
  }

  /** The icon's class list under a file block, as shipped: one token holding spaces. */
  const ShippedIconClasses: Dim<seq<string>> :=
    Keyed(map["default" := [], "attaches" := ["file-icon"], "fileBlock" := ["fiv-cla fiv-icon-ppt fiv-size-lg"]])

  /**
   * The shipped icon classes stay wrong once the missing attribute list is
   * supplied: `classList.add` refuses a token holding a space.
   */
  lemma IconClassString(t: Template)
    requires "icon" in t.properties
    requires t.properties["icon"] == PerParent(map["default" := "span", "attaches" := "span", "fileBlock" := "span"],
      ShippedIconClasses, Defaults([]))
    ensures PropertyLook(t, "icon", Some("fileBlock")) == Err(InvalidCharacterError)
  {
    assert ValidElementName("span");
    var token := "fiv-cla fiv-icon-ppt fiv-size-lg";
    assert AsciiWhitespace(token[7]);
    assert !ValidToken(token);
  }

  /** The shipped and the repaired `icon` entries. */
  lemma IconEntries()
    ensures "icon" in DefaultTemplate().properties && "icon" in RepairedTemplate().properties
    ensures DefaultTemplate().properties["icon"] ==
      PerParent(map["default" := "span", "attaches" := "span", "fileBlock" := "span"], ShippedIconClasses, EmptyArray())
    ensures RepairedTemplate().properties["icon"] == PerParent(map["default" := "span", "attaches" := "span", "fileBlock" := "span"],
      Keyed(map["default" := [], "attaches" := ["file-icon"], "fileBlock" := ["fiv-cla", "fiv-icon-ppt", "fiv-size-lg"]]), Defaults([]))
  {
  }

  /** The shipped icon entry, whose `attributes` field is an empty array: under a file block `forEach` meets undefined. */
  lemma IconWithoutAttributes(t: Template)
    requires "icon" in t.properties
    requires t.properties["icon"] ==
      PerParent(map["default" := "span", "attaches" := "span", "fileBlock" := "span"], ShippedIconClasses, EmptyArray())
    ensures PropertyLook(t, "icon", Some("fileBlock")) == Err(TypeError)
  {
    assert ValidElementName("span");
  }

  /** The repaired icon entry under a file block: a `span` with three valid classes and no attributes. */
  lemma IconEntry(e: Entry)
    requires e == PerParent(map["default" := "span", "attaches" := "span", "fileBlock" := "span"],
      Keyed(map["default" := [], "attaches" := ["file-icon"], "fileBlock" := ["fiv-cla", "fiv-icon-ppt", "fiv-size-lg"]]), Defaults([]))
    ensures e.tags.ByParent? && PropertyTag(e, "fileBlock") == Some("span") && ValidElementName("span")
    ensures Fallback(e.classes, "fileBlock") == Some(["fiv-cla", "fiv-icon-ppt", "fiv-size-lg"])
    ensures TokenCheck(["fiv-cla", "fiv-icon-ppt", "fiv-size-lg"]).Pass?
    ensures Fallback(e.attributes, "fileBlock") == Some([])
  {
    assert ValidElementName("span");
    assert TokenCheck(["fiv-cla", "fiv-icon-ppt", "fiv-size-lg"]).Pass?;
  }

  /**
   * An icon under a file block: with the shipped table its `attributes`
   * field is an empty array and `fromProperty` throws; with the repaired one
   * it is a `span` of the three icon classes.
   */
  lemma IconUnderFileBlock()
    ensures PropertyLook(DefaultTemplate(), "icon", Some("fileBlock")) == Err(TypeError)
    ensures PropertyLook(RepairedTemplate(), "icon", Some("fileBlock")) ==
      Ok(Look(Some("span"), Some(["fiv-cla", "fiv-icon-ppt", "fiv-size-lg"]), Some([])))
  {
    IconEntries();
    IconWithoutAttributes(DefaultTemplate());
    var t := RepairedTemplate();
    var e := t.properties["icon"];
    IconEntry(e);
    PropertyResolvesTo(t, "icon", "fileBlock", e, "span", ["fiv-cla", "fiv-icon-ppt", "fiv-size-lg"], []);
  }

  /**
   * `new HtmlBricks().on(parent).fromProperty(name)` followed by `lay()`:
   * a property brick appended to `parent` and its element to the parent's.
   */
  method Sprout(parent: Brick, name: string, reg: Registry) returns (r: Outcome, b: Brick)
    requires parent.over.Children?
    modifies parent`over, parent.element
    ensures fresh(b) && b.under == parent
    ensures r.Pass? <==> parent.element != null && PropertyLook(reg.template, name, Some(KeyOf(parent.kind))).Ok?
    ensures parent.element != null ==> parent.element.classes == old(parent.element.classes) && parent.element.attrs == old(parent.element.attrs)
    ensures r.Pass? ==>
      && parent.element != null && parent.over == Children(old(parent.over.bricks) + [b]) && b.element != null
      && parent.element.children == old(parent.element.children) + [Child(b.element)]
      && b.nestingLevel == parent.nestingLevel + 1 && fresh(b.element)
      && MadeFromProperty(b, reg.template, name, KeyOf(parent.kind), []) && Leaf(b, [])
  {
    b := new Brick();
    r := b.On(parent);
    if r.Fail? {
      return;
    }
    r := b.FromProperty(name, reg);
    if r.Fail? {
      return;
    }
    r := b.Lay();
  }

  /**
   * The start of `build` (brick path): the target wrapped as the root brick,
   * a `wrapper` property brick laid under it and a `subWrapper` property
   * brick laid under that.
   */
  method Scaffold(target: Element?, reg: Registry) returns (r: Outcome, root: Brick, wrapper: Brick, sub: Brick)
    modifies target
    ensures fresh(root) && fresh(wrapper) && fresh(sub)
    ensures root.element == target && root.under == null && root.kind == Some("root")
    ensures root.position == Some(0) && root.nestingLevel == 0
    ensures r.Pass? <==> target != null && ScaffoldOk(reg.template)
    ensures target != null ==> target.classes == old(target.classes) && target.attrs == old(target.attrs)
    ensures r.Pass? ==>
      && target != null && root.over == Children([wrapper]) && wrapper.element != null
      && target.children == old(target.children) + [Child(wrapper.element)]
      && wrapper.under == root && wrapper.nestingLevel == 1 && fresh(wrapper.element)
      && MadeFromProperty(wrapper, reg.template, "wrapper", "root", [])
      && Laid(wrapper, [], [sub]) && fresh(sub.element)
      && MadeFromProperty(sub, reg.template, "subWrapper", "wrapper", []) && Leaf(sub, [])
  {
    r, root, wrapper := Wrap(target, reg);
    sub := wrapper;
    if r.Fail? {
      return;
    }
    label Sprouted:
    assert wrapper != root && wrapper.element != target;
    r, sub := Sprout(wrapper, "subWrapper", reg);
    if r.Pass? {
      StillMade@Sprouted(Made(wrapper, reg.template, "wrapper", "root"));
      LaidSingle(wrapper, sub);
    }
  }

  /** The target as the root brick, with the `wrapper` property brick laid under it. */
  method Wrap(target: Element?, reg: Registry) returns (r: Outcome, root: Brick, wrapper: Brick)
    modifies target
    ensures fresh(root) && fresh(wrapper) && root != wrapper
    ensures root.element == target && root.under == null && root.kind == Some("root")
    ensures root.position == Some(0) && root.nestingLevel == 0
    ensures r.Pass? <==> target != null && PropertyLook(reg.template, "wrapper", Some("root")).Ok?
    ensures target != null ==> target.classes == old(target.classes) && target.attrs == old(target.attrs)
    ensures r.Pass? ==>
      && target != null && root.over == Children([wrapper]) && wrapper.element != null
      && target.children == old(target.children) + [Child(wrapper.element)]
      && wrapper.under == root && wrapper.nestingLevel == 1 && fresh(wrapper.element)
      && MadeFromProperty(wrapper, reg.template, "wrapper", "root", []) && Leaf(wrapper, [])
  {
    root := new Brick();
    root.FromElement(target);
    root.AsRoot();
    r, wrapper := Sprout(root, "wrapper", reg);
  }

  /**
   * The scaffold as written: `new HtmlBricks()` leaves `over` undefined, so
   * once `wrapper` is laid, `subWrapper.on(wrapper)` pushes onto undefined
   * and throws; `build` never reaches its blocks.
   */
  method ScaffoldAsWritten(target: Element?, reg: Registry) returns (r: Outcome)
    modifies target
    ensures r.Fail?
    ensures target != null && PropertyLook(reg.template, "wrapper", Some("root")).Ok? ==> r == Fail(TypeError)
  {
    var root := new Brick.AsWritten();
    root.FromElement(target);
    root.AsRoot();
    var wrapper := new Brick.AsWritten();
    r := wrapper.On(root);
    if r.Fail? {
      return;
    }
    r := wrapper.FromProperty("wrapper", reg);
    if r.Fail? {
      return;
    }
    r := wrapper.Lay();
    if r.Fail? {
      return;
    }
    var sub := new Brick.AsWritten();
    r := sub.On(wrapper);
  }

  /** The tree `build` leaves under the root brick when every block's routine completes. */
  ghost predicate Built(root: Brick, t: Template, blocks: seq<Block>)
    reads *
  {
    && root.over.Children? && |root.over.bricks| == 1 && root.element != null
    && var wrapper := root.over.bricks[0];
    && wrapper.under == root && wrapper.nestingLevel == root.nestingLevel + 1 && wrapper.element != null
    && |root.element.children| > 0 && Last(root.element.children) == Child(wrapper.element)
    && MadeFromProperty(wrapper, t, "wrapper", "root", [])
    && wrapper.over.Children? && |wrapper.over.bricks| == 1 && Laid(wrapper, [], wrapper.over.bricks)
    && var sub := wrapper.over.bricks[0];
    && MadeFromProperty(sub, t, "subWrapper", "wrapper", [])
    && sub.over.Children? && |sub.over.bricks| == |blocks| && Laid(sub, [], sub.over.bricks)
    && forall k :: 0 <= k < |blocks| ==> Rendered(sub.over.bricks[k], t, blocks[k], "subWrapper")
  }

  lemma BuiltIntro(root: Brick, wrapper: Brick, sub: Brick, t: Template, blocks: seq<Block>)
    requires root.over == Children([wrapper]) && root.element != null
    requires wrapper.under == root && wrapper.nestingLevel == root.nestingLevel + 1 && wrapper.element != null
    requires |root.element.children| > 0 && Last(root.element.children) == Child(wrapper.element)
    requires MadeFromProperty(wrapper, t, "wrapper", "root", []) && Laid(wrapper, [], [sub])
    requires MadeFromProperty(sub, t, "subWrapper", "wrapper", [])
    requires sub.over.Children? && |sub.over.bricks| == |blocks| && Laid(sub, [], sub.over.bricks)
    requires forall k :: 0 <= k < |blocks| ==> Rendered(sub.over.bricks[k], t, blocks[k], "subWrapper")
    ensures Built(root, t, blocks)
  {
  }

  /** The argument of `new EJSHtmlBuilder(data)`: JSON text, or an object with or without a `blocks` array. */
  datatype Source = JsonText(text: string) | Document(blocks: Option<seq<Block>>)

  /** JavaScript truthiness of the constructor argument (`None` is null or undefined). */
  predicate TruthySource(data: Option<Source>)
  {
    data.Some? && data.value != JsonText("")
  }

  /** `rawData.blocks` as `forEach` needs it: only a document with a `blocks` array has one. */
  function BlocksOf(data: Option<Source>): Option<seq<Block>>
  {
    if data.Some? && data.value.Document? then data.value.blocks else None
  }

  /** The opening text of the raw build. */
  const RawPrefix := "<div class=\"codex-editor\"><div class=\"codex-editor__redactor\" style=\"padding-bottom:300px;\">"

  /**
   * A routine as written: linkTool and attaches first read `data.link`,
   * `data.meta` and `data.file`, which throws when they are missing; then
   * every routine tests `rawMode`, an identifier that is not in scope.
   */
  function RoutineAsWritten(block: Block): (f: Fault)
    ensures f == TypeError || f == ReferenceError("rawMode")
    ensures block.kind != "linkTool" && block.kind != "attaches" ==> f == ReferenceError("rawMode")
  {
    if block.kind == "linkTool" && (block.data.link.None? || block.data.meta.None?) then TypeError
    else if block.kind == "attaches" && block.data.file.None? then TypeError
    else ReferenceError("rawMode")
  }

  /** What `this.builder[block.type](block)` throws in the raw build. */
  function RawFault(block: Block, defined: bool): Fault
  {
    if defined && block.kind in RoutineNames then RoutineAsWritten(block) else TypeError
  }

  /** EJSHtmlBuilder: the saved data, the target and root brick of the last build, and the raw-mode text. */
  class HtmlBuilder {
    var rawData: Option<Source>
    var target: Element?
    var container: Brick
    var html: string
    var rawMode: bool
    /** `this.builder` holds the thirteen routines (the constructor returns before defining them for falsy data). */
    var defined: bool

    constructor (data: Option<Source>)
      ensures defined == TruthySource(data) && rawData == (if TruthySource(data) then data else None)
      ensures target == null && html == "" && !rawMode && fresh(container)
    {
      rawData := None;
      target := null;
      container := new Brick();
      html := "";
      rawMode := false;
      defined := false;
      if TruthySource(data) {
        rawData := data;
        defined := true;
      }
    }

    /**
     * `build(target, raw)`: records the mode and the target, then builds
     * either from the bricks or as raw text.
     */
    method Build(target: Element?, raw: bool, reg: Registry) returns (r: Result<Option<string>>)
      modifies this, target
      ensures this.target == target && rawMode == raw && rawData == old(rawData) && defined == old(defined)
      ensures !raw ==> BricksBuilt(r, target, reg.template)
      ensures raw ==> RawBuilt(r, target)
    {
      rawMode := raw;
      this.target := target;
      if raw {
        r := BuildRaw(target);
      } else {
        r := BuildBricks(target, reg);
      }
    }

    /** What the brick path of `build` promises. */
    ghost predicate BricksBuilt(r: Result<Option<string>>, target: Element?, t: Template)
      reads *
    {
      && container.element == target && container.kind == Some("root") && container.under == null
      && (r.Ok? <==>
            target != null && ScaffoldOk(t) && BlocksOf(rawData).Some?
            && AllOk(t, BlocksOf(rawData).value, defined, "subWrapper"))
      && (r.Ok? ==> r.value == None && Built(container, t, BlocksOf(rawData).value))
    }

    /** What the raw path of `build` promises. */
    ghost predicate RawBuilt(r: Result<Option<string>>, target: Element?)
      reads *
    {
      && (r.Ok? <==> BlocksOf(rawData) == Some([]) && target != null)
      && (r.Ok? ==> target != null && html == RawPrefix + "</div></div>" && r.value == Some(html) && target.children == [Html(html)])
      && (BlocksOf(rawData).Some? && |BlocksOf(rawData).value| > 0 ==> r == Err(RawFault(BlocksOf(rawData).value[0], defined)))
    }

    /**
     * The brick path: the scaffold, then every block's routine under
     * `subWrapper`, in order; the result is the root brick's `innerHTML`,
     * a property bricks do not have (undefined).
     */
    method BuildBricks(target: Element?, reg: Registry) returns (r: Result<Option<string>>)
      modifies this`container, target
      ensures fresh(container)
      ensures BricksBuilt(r, target, reg.template)
    {
      var blocks := BlocksOf(rawData);
      var s, root, wrapper, sub := Scaffold(target, reg);
      container := root;
      if s.Fail? {
        return Err(s.fault);
      }
      if blocks.None? {
        return Err(TypeError);
      }
      s := DispatchAll(sub, blocks.value, defined, reg);
      if s.Fail? {
        return Err(s.fault);
      }
      BuiltIntro(root, wrapper, sub, reg.template, blocks.value);
      r := Ok(None);
    }

    /**
     * The raw path: the opening text, then each block's routine (which
     * throws), then the closing text, written into the target.
     */
    method BuildRaw(target: Element?) returns (r: Result<Option<string>>)
      modifies this`html, target
      ensures RawBuilt(r, target)
    {
      var blocks := BlocksOf(rawData);
      html := RawPrefix;
      if blocks.None? {
        return Err(TypeError);
      }
      if |blocks.value| > 0 {
        return Err(RawFault(blocks.value[0], defined));
      }
      html := html + "</div></div>";
      if target == null {
        return Err(TypeError);
      }
      target.SetHtml(html);
      return Ok(Some(html));
    }
  }
}
