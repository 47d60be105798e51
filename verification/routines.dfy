/**
 * The per-type block routines of EJSHtmlBuilder (lib/ejs-html-builder.js),
 * brick path.  Each routine lays one new brick, with its own sub-bricks, as
 * the last child of the container brick `c`, and throws as soon as a brick
 * operation throws.  Each routine's contract gives its exact success
 * condition (in terms of the template lookups) and the tree it builds.
 */
module Routines {
  import opened Basics
  import opened Blocks
  import opened Dom
  import opened Templates
  import opened Streamline
  import opened Bricks

  /** `c` can take a child brick: its `over` is an array and it has an element. */
  predicate Open(c: Brick)
    reads c
  {
    c.over.Children? && c.element != null
  }

  /** The brick most recently placed on `c`. */
  function Top(c: Brick): Brick
    reads c
    requires c.over.Children? && |c.over.bricks| > 0
  {
    Last(c.over.bricks)
  }

  /** The child bricks of `c`, none when its `over` is not an array. */
  function Kids(c: Brick): seq<Brick>
    reads c`over
  {
    if c.over.Children? then c.over.bricks else []
  }

  /** `b`'s element, if it has one. */
  ghost function ElementOf(b: Brick): set<Element>
    reads b`element
  {
    if b.element != null then {b.element} else {}
  }

  /**
   * `c` gained exactly one child brick since it held `bricks` and its
   * element held `nodes`; the new brick's element is the new last node.
   */
  ghost predicate Grew(c: Brick, bricks: seq<Brick>, nodes: seq<Node>)
    reads c`over, c`element, c`nestingLevel, c.element, Kids(c)`under, Kids(c)`nestingLevel, Kids(c)`element
  {
    && c.over.Children? && |c.over.bricks| == |bricks| + 1 && c.over.bricks[..|bricks|] == bricks
    && var b := Last(c.over.bricks);
    && c.element != null && b.element != null && c.element.children == nodes + [Child(b.element)]
    && b.under == c && b.nestingLevel == c.nestingLevel + 1
  }

  /**
   * `p`'s children are exactly `kids`, each laid under `p` one level
   * deeper, and `p`'s element holds `nodes` followed by the kids' elements.
   */
  ghost predicate Laid(p: Brick, nodes: seq<Node>, kids: seq<Brick>)
    reads p`over, p`element, p`nestingLevel, p.element, kids`under, kids`nestingLevel, kids`element
  {
    && p.over == Children(kids) && p.element != null
    && |p.element.children| == |nodes| + |kids| && p.element.children[..|nodes|] == nodes
    && forall i :: 0 <= i < |kids| ==>
         && kids[i].under == p && kids[i].nestingLevel == p.nestingLevel + 1 && kids[i].element != null
         && p.element.children[|nodes| + i] == Child(kids[i].element)
  }

  /** `b` was shaped by `fromBlock(block)` as a new brick under a parent with key `key`. */
  ghost predicate MadeFromBlock(b: Brick, t: Template, block: Block, key: string)
    reads b`category, b`brickID, b`kind, b`tag, b`classes, b`element, ElementOf(b)`classes
  {
    var look := BlockLook(t, block, Some(key), Blank);
    && look.Ok? && b.category == Some(BlockBrick) && b.brickID == block.id && b.kind == Some(block.kind)
    && b.tag == look.value.tag && b.classes == look.value.classes
    && b.element != null && b.element.tag == NameOf(look.value.tag)
    && b.element.classes == (if block.kind in t.blocks then TokenSet(look.value.classes.value) else {})
  }

  /** `b` was shaped by `fromTag(name)` as a new brick. */
  ghost predicate MadeFromTag(b: Brick, t: Template, name: string)
    reads b`category, b`kind, b`tag, b`classes, b`attributes, b`element, b.element
  {
    var look := TagLook(t, name, Blank);
    && look.Ok? && b.category == Some(TagBrick) && b.kind == Some(name) && b.tag == Some(name)
    && b.classes == look.value.classes && b.attributes == None
    && b.element != null && b.element.tag == name
    && b.element.classes == TokenSet(look.value.classes.value) && b.element.attrs == map[]
  }

  /** `b` was shaped by `fromProperty(name)` under a parent with key `key`; `extra` was set on it afterwards. */
  ghost predicate MadeFromProperty(b: Brick, t: Template, name: string, key: string, extra: seq<Attr>)
    reads b`category, b`kind, b`tag, b`classes, b`attributes, b`element, ElementOf(b)`classes, ElementOf(b)`attrs
  {
    var look := PropertyLook(t, name, Some(key));
    && look.Ok? && b.category == Some(PropertyBrick) && b.kind == Some(name)
    && b.tag == look.value.tag && b.classes == look.value.classes
    && b.attributes == (if |extra| == 0 then look.value.attributes else Some(extra))
    && b.element != null && b.element.tag == NameOf(look.value.tag)
    && b.element.classes == TokenSet(look.value.classes.value)
    && b.element.attrs == ApplyAttrs(ApplyAttrs(map[], look.value.attributes.value), extra)
  }

  /** A brick with no children whose element holds only `nodes`. */
  ghost predicate Leaf(b: Brick, nodes: seq<Node>)
    reads b`over, b`element, b.element
  {
    b.over == Children([]) && b.element != null && b.element.children == nodes
  }

  /** A tag brick `name` holding `text`, laid under `p` at nesting level `level`. */
  ghost predicate TextCell(b: Brick, p: Brick, level: int, t: Template, name: string, text: string)
    reads b, b.element
  {
    MadeFromTag(b, t, name) && Leaf(b, TextChildren(text)) && b.under == p && b.nestingLevel == level
  }

  /** A property brick `name` under a parent with key `key`, holding `text`. */
  ghost predicate PropertyText(b: Brick, t: Template, name: string, key: string, text: string)
    reads b`category, b`kind, b`tag, b`classes, b`attributes, b`element, b`over, b.element
  {
    MadeFromProperty(b, t, name, key, []) && Leaf(b, TextChildren(text))
  }

  /** The elements of some bricks. */
  ghost function Elements(kids: seq<Brick>): set<object?>
    reads kids`element
  {
    set k | k in kids :: k.element as object?
  }

  /** `b`'s children are one `name` text cell per entry of `texts`, in order. */
  ghost predicate Cells(b: Brick, t: Template, name: string, texts: seq<string>)
    reads b`over, b`element, b`nestingLevel, b.element, if b.over.Children? then b.over.bricks else []
    reads if b.over.Children? then Elements(b.over.bricks) else {}
  {
    && b.over.Children? && Laid(b, [], b.over.bricks) && |b.over.bricks| == |texts|
    && forall j :: 0 <= j < |texts| ==> TextCell(b.over.bricks[j], b, b.nestingLevel + 1, t, name, texts[j])
  }

  /** `Cells` from its parts, one cell at a time. */
  lemma CellsIntro(p: Brick, kids: seq<Brick>, t: Template, name: string, texts: seq<string>)
    requires p.over == Children(kids) && p.element != null && |p.element.children| == |kids| == |texts|
    requires forall k :: 0 <= k < |kids| ==>
      kids[k].element != null && p.element.children[k] == Child(kids[k].element) && TextCell(kids[k], p, p.nestingLevel + 1, t, name, texts[k])
    ensures Cells(p, t, name, texts)
  {
  }

  /** The fromTag lookups a sequence of texts needs succeed (none are made for no texts). */
  predicate TextsOk(t: Template, name: string, texts: seq<string>)
  {
    |texts| == 0 || TagLook(t, name, Blank).Ok?
  }

  // ---------------------------------------------------------------------
  // One brick: `new HtmlBricks().on(p).fromBlock(...)`, `.fromTag(...)`, `.fromProperty(...)`

  /** The block brick of a routine succeeds under container key `key`. */
  predicate BlockOk(t: Template, block: Block, key: string)
  {
    BlockLook(t, block, Some(key), Blank).Ok?
  }

  /** `new HtmlBricks().on(p).fromBlock(block)` */
  method PlaceBlock(p: Brick, block: Block, reg: Registry) returns (r: Outcome, b: Brick)
    modifies p`over
    ensures fresh(b) && b.under == p
    ensures r.Pass? <==> old(p.over.Children?) && BlockOk(reg.template, block, KeyOf(p.kind))
    ensures r.Pass? ==>
      && p.over == Children(old(p.over.bricks) + [b]) && b.nestingLevel == p.nestingLevel + 1
      && b.over == Children([]) && b.attributes == None
      && b.element != null && fresh(b.element) && b.element.attrs == map[] && b.element.children == []
      && MadeFromBlock(b, reg.template, block, KeyOf(p.kind))
  {
    b := new Brick();
    r := b.On(p);
    if r.Fail? {
      return;
    }
    r := b.FromBlock(block, reg);
  }

  /** `new HtmlBricks().on(p).fromTag(name)` */
  method PlaceTag(p: Brick, name: string, reg: Registry) returns (r: Outcome, b: Brick)
    modifies p`over
    ensures fresh(b) && b.under == p
    ensures r.Pass? <==> old(p.over.Children?) && TagLook(reg.template, name, Blank).Ok?
    ensures r.Pass? ==>
      && p.over == Children(old(p.over.bricks) + [b]) && b.nestingLevel == p.nestingLevel + 1
      && b.over == Children([]) && b.element != null && fresh(b.element) && b.element.children == []
      && MadeFromTag(b, reg.template, name)
  {
    b := new Brick();
    r := b.On(p);
    if r.Fail? {
      return;
    }
    r := b.FromTag(name, reg);
  }

  /** `new HtmlBricks().on(p).fromProperty(name)` */
  method PlaceProperty(p: Brick, name: string, reg: Registry) returns (r: Outcome, b: Brick)
    requires p.over.Children?
    modifies p`over
    ensures fresh(b) && b.under == p && p.over == Children(old(p.over.bricks) + [b])
    ensures r.Pass? <==> PropertyLook(reg.template, name, Some(KeyOf(p.kind))).Ok?
    ensures r.Pass? ==>
      && b.nestingLevel == p.nestingLevel + 1
      && b.over == Children([]) && b.element != null && fresh(b.element) && b.element.children == []
      && MadeFromProperty(b, reg.template, name, KeyOf(p.kind), [])
  {
    b := new Brick();
    var placed := b.On(p);
    r := b.FromProperty(name, reg);
  }

  /** One step of the `forEach` over texts: a new tag brick `name` holding `text`, laid as `p`'s last child. */
  method LayText(p: Brick, name: string, text: string, reg: Registry) returns (r: Outcome, b: Brick)
    requires p.over.Children? && p.element != null
    modifies p`over, p.element
    ensures r.Pass? <==> TagLook(reg.template, name, Blank).Ok?
    ensures p.element.classes == old(p.element.classes) && p.element.attrs == old(p.element.attrs)
    ensures r.Pass? ==>
      && fresh(b) && b.element != null && fresh(b.element) && TextCell(b, p, p.nestingLevel + 1, reg.template, name, text)
      && p.over == Children(old(p.over.bricks) + [b]) && p.element.children == old(p.element.children) + [Child(b.element)]
  {
    r, b := PlaceTag(p, name, reg);
    if r.Fail? {
      return;
    }
    var written := b.WithText(Some(text));
    var laid := b.Lay();
  }

  /**
   * The `forEach` over texts shared by list items and table cells: one tag
   * brick per text, in order, each holding its text and laid under `p`.
   */
  method LayTexts(p: Brick, name: string, texts: seq<string>, reg: Registry) returns (r: Outcome)
    requires p.over == Children([]) && p.element != null && p.element.children == []
    modifies p`over, p.element
    ensures r.Pass? <==> TextsOk(reg.template, name, texts)
    ensures p.element.classes == old(p.element.classes) && p.element.attrs == old(p.element.attrs)
    ensures r.Pass? ==>
      && Cells(p, reg.template, name, texts)
      && forall i :: 0 <= i < |texts| ==> fresh(p.over.bricks[i]) && fresh(p.over.bricks[i].element)
  {
    var i := 0;
    ghost var kids: seq<Brick> := [];
    r := Pass;
    while i < |texts|
      invariant 0 <= i <= |texts| && |kids| == i
      invariant r.Pass? && (i > 0 ==> TagLook(reg.template, name, Blank).Ok?)
      invariant p.element.classes == old(p.element.classes) && p.element.attrs == old(p.element.attrs)
      invariant p.over == Children(kids) && |p.element.children| == i
      invariant forall k :: 0 <= k < i ==>
        && fresh(kids[k]) && fresh(kids[k].element) && kids[k] != p && kids[k].element != p.element
        && p.element.children[k] == Child(kids[k].element)
        && TextCell(kids[k], p, p.nestingLevel + 1, reg.template, name, texts[k])
    {
      var b;
      r, b := LayText(p, name, texts[i], reg);
      if r.Fail? {
        return;
      }
      kids := kids + [b];
      i := i + 1;
    }
    CellsIntro(p, kids, reg.template, name, texts);
  }

  // ---------------------------------------------------------------------
  // The routines

  /** The element of the brick most recently placed on `c`, if any. */
  ghost function TopElement(c: Brick): set<Element>
    reads c`over, Kids(c)`element
  {
    if |Kids(c)| > 0 then ElementOf(Last(Kids(c))) else {}
  }

  /**
   * The common shape of a routine's result: `c` gained one fresh block brick
   * made from `block`.
   */
  ghost predicate PlacedBlock(c: Brick, t: Template, block: Block, bricks: seq<Brick>, nodes: seq<Node>)
    reads c`over, c`element, c`nestingLevel, c`kind, c.element
    reads Kids(c)`under, Kids(c)`nestingLevel, Kids(c)`element, Kids(c)`category, Kids(c)`brickID, Kids(c)`kind
    reads Kids(c)`tag, Kids(c)`classes, TopElement(c)`classes
  {
    && Grew(c, bricks, nodes)
    && MadeFromBlock(Last(c.over.bricks), t, block, KeyOf(c.kind))
  }

  /** What `PlacedBlock` is stated about: the parent, the template, the block and the parent's earlier children. */
  datatype Placement = Placement(c: Brick, t: Template, block: Block, bricks: seq<Brick>, nodes: seq<Node>)

  /** A placed block stays placed while only the new brick's own tree changes. */
  twostate lemma StillPlaced(p: Placement)
    requires old(PlacedBlock(p.c, p.t, p.block, p.bricks, p.nodes))
    requires unchanged(p.c) && unchanged(old(p.c.element))
    requires unchanged(Kids(p.c)`under, Kids(p.c)`nestingLevel, Kids(p.c)`element, Kids(p.c)`category, Kids(p.c)`brickID, Kids(p.c)`kind)
    requires unchanged(Kids(p.c)`tag, Kids(p.c)`classes, TopElement(p.c)`classes)
    ensures PlacedBlock(p.c, p.t, p.block, p.bricks, p.nodes)
  {
  }

  /**
   * The opening shared by several routines: a block brick placed on `c`,
   * given `given` as its attributes when present, and laid, still empty.
   */
  method OpenBlock(c: Brick, block: Block, given: Option<seq<Attr>>, reg: Registry) returns (r: Outcome, b: Brick)
    modifies c`over, c.element
    ensures r.Pass? <==> old(Open(c)) && BlockOk(reg.template, block, KeyOf(c.kind))
    ensures c.element != null ==> c.element.classes == old(c.element.classes) && c.element.attrs == old(c.element.attrs)
    ensures r.Pass? ==>
      && PlacedBlock(c, reg.template, block, old(c.over.bricks), old(c.element.children))
      && b == Top(c) && fresh(b) && fresh(b.element) && Leaf(b, []) && b.attributes == given && b.kind == Some(block.kind)
      && b.element.attrs == ApplyAttrs(map[], if given.Some? then given.value else [])
  {
    r, b := PlaceBlock(c, block, reg);
    if r.Fail? {
      return;
    }
    if given.Some? {
      var applied := b.WithAttributes(given);
    }
    r := b.Lay();
  }

  /** `new HtmlBricks().on(c).fromBlock(block).withText(data.text).lay()` */
  method OpenTextBlock(c: Brick, block: Block, reg: Registry) returns (r: Outcome, b: Brick)
    modifies c`over, c.element
    ensures r.Pass? <==> old(Open(c)) && BlockOk(reg.template, block, KeyOf(c.kind))
    ensures c.element != null ==> c.element.classes == old(c.element.classes) && c.element.attrs == old(c.element.attrs)
    ensures r.Pass? ==>
      && PlacedBlock(c, reg.template, block, old(c.over.bricks), old(c.element.children))
      && b == Top(c) && fresh(b) && fresh(b.element) && b.attributes == None && b.element.attrs == map[]
      && Leaf(b, TextChildren(TextOf(block.data.text))) && b.kind == Some(block.kind)
  {
    r, b := PlaceBlock(c, block, reg);
    if r.Fail? {
      return;
    }
    var written := b.WithText(block.data.text);
    r := b.Lay();
  }

  /** `new HtmlBricks().on(p).fromTag(name).lay()` */
  method OpenTag(p: Brick, name: string, reg: Registry) returns (r: Outcome, b: Brick)
    modifies p`over, p.element
    ensures r.Pass? <==> old(Open(p)) && TagLook(reg.template, name, Blank).Ok?
    ensures p.element != null ==> p.element.classes == old(p.element.classes) && p.element.attrs == old(p.element.attrs)
    ensures r.Pass? ==>
      && fresh(b) && b.element != null && fresh(b.element) && b.under == p && b.nestingLevel == p.nestingLevel + 1
      && p.over == Children(old(p.over.bricks) + [b]) && p.element.children == old(p.element.children) + [Child(b.element)]
      && MadeFromTag(b, reg.template, name) && Leaf(b, [])
  {
    r, b := PlaceTag(p, name, reg);
    if r.Fail? {
      return;
    }
    r := b.Lay();
  }

  /** paragraph, header (identical bodies): a block brick holding `data.text`; the header tag carries the level. */
  method TextBlock(block: Block, c: Brick, reg: Registry) returns (r: Outcome)
    modifies c`over, c.element
    ensures r.Pass? <==> old(Open(c)) && BlockOk(reg.template, block, KeyOf(c.kind))
    ensures c.element != null ==> c.element.classes == old(c.element.classes) && c.element.attrs == old(c.element.attrs)
    ensures r.Pass? ==>
      && PlacedBlock(c, reg.template, block, old(c.over.bricks), old(c.element.children))
      && (var b := Top(c);
          fresh(b) && fresh(b.element) && b.attributes == None && b.element.attrs == map[]
          && Leaf(b, TextChildren(TextOf(block.data.text))))
  {
    var b;
    r, b := OpenTextBlock(c, block, reg);
  }

  /** hr, warning: a block brick with nothing inside. */
  method Bare(block: Block, c: Brick, reg: Registry) returns (r: Outcome)
    modifies c`over, c.element
    ensures r.Pass? <==> old(Open(c)) && BlockOk(reg.template, block, KeyOf(c.kind))
    ensures c.element != null ==> c.element.classes == old(c.element.classes) && c.element.attrs == old(c.element.attrs)
    ensures r.Pass? ==>
      && PlacedBlock(c, reg.template, block, old(c.over.bricks), old(c.element.children))
      && (var b := Top(c);
          fresh(b) && fresh(b.element) && b.attributes == None && b.element.attrs == map[] && Leaf(b, []))
  {
    var b;
    r, b := OpenBlock(c, block, None, reg);
  }

  /** The attributes the image routine sets: `src` and `alt`, stringified. */
  function ImageAttrs(block: Block): seq<Attr>
  {
    [Attr("src", Str(block.data.url)), Attr("alt", Str(block.data.alt))]
  }

  /** The lookups the image and quote routines make: the block, and the caption when there is one. */
  predicate CaptionedOk(t: Template, block: Block, key: string)
  {
    && BlockOk(t, block, key)
    && (Truthy(block.data.caption) ==> PropertyLook(t, "caption", Some(block.kind)).Ok?)
  }

  /**
   * The optional caption of the image and quote routines: when the caption
   * is truthy, a `caption` property brick holding it is laid under `p`.
   */
  method LayCaption(p: Brick, caption: Option<string>, reg: Registry) returns (r: Outcome)
    requires p.over == Children([]) && p.element != null
    modifies p`over, p.element
    ensures r.Pass? <==> (Truthy(caption) ==> PropertyLook(reg.template, "caption", Some(KeyOf(p.kind))).Ok?)
    ensures p.element.classes == old(p.element.classes) && p.element.attrs == old(p.element.attrs)
    ensures r.Pass? ==>
      && p.over.Children? && Laid(p, old(p.element.children), p.over.bricks)
      && |p.over.bricks| == (if Truthy(caption) then 1 else 0)
      && (Truthy(caption) ==> PropertyText(p.over.bricks[0], reg.template, "caption", KeyOf(p.kind), caption.value))
  {
    r := Pass;
    if Truthy(caption) {
      var b;
      r, b := PlaceProperty(p, "caption", reg);
      if r.Fail? {
        return;
      }
      var written := b.WithText(caption);
      var laid := b.Lay();
    }
  }

  /** image: a block brick with `src`/`alt`, and a caption brick under it when the caption is truthy. */
  method Image(block: Block, c: Brick, reg: Registry) returns (r: Outcome)
    modifies c`over, c.element
    ensures r.Pass? <==> old(Open(c)) && CaptionedOk(reg.template, block, KeyOf(c.kind))
    ensures c.element != null ==> c.element.classes == old(c.element.classes) && c.element.attrs == old(c.element.attrs)
    ensures r.Pass? ==>
      && PlacedBlock(c, reg.template, block, old(c.over.bricks), old(c.element.children))
      && (var img := Top(c);
          && fresh(img) && fresh(img.element) && img.attributes == Some(ImageAttrs(block))
          && img.element.attrs == ApplyAttrs(map[], ImageAttrs(block))
          && img.over.Children? && Laid(img, [], img.over.bricks)
          && |img.over.bricks| == (if Truthy(block.data.caption) then 1 else 0)
          && (Truthy(block.data.caption) ==>
                PropertyText(img.over.bricks[0], reg.template, "caption", block.kind, block.data.caption.value)))
  {
    var img;
    r, img := OpenBlock(c, block, Some(ImageAttrs(block)), reg);
    if r.Fail? {
      return;
    }
    r := LayCaption(img, block.data.caption, reg);
  }

  /** The attributes the embed routine sets; the number 0 and `true` are stringified. */
  function EmbedAttrs(block: Block): seq<Attr>
  {
    [ Attr("src", Str(block.data.url)), Attr("width", Str(block.data.width)), Attr("height", Str(block.data.height)),
      Attr("frameborder", "0"), Attr("allowfullscreen", "true") ]
  }

  /** embed: a block brick with the five iframe attributes. */
  method Embed(block: Block, c: Brick, reg: Registry) returns (r: Outcome)
    modifies c`over, c.element
    ensures r.Pass? <==> old(Open(c)) && BlockOk(reg.template, block, KeyOf(c.kind))
    ensures c.element != null ==> c.element.classes == old(c.element.classes) && c.element.attrs == old(c.element.attrs)
    ensures r.Pass? ==>
      && PlacedBlock(c, reg.template, block, old(c.over.bricks), old(c.element.children))
      && (var b := Top(c);
          fresh(b) && fresh(b.element) && b.attributes == Some(EmbedAttrs(block))
          && b.element.attrs == ApplyAttrs(map[], EmbedAttrs(block)) && Leaf(b, []))
  {
    var b;
    r, b := OpenBlock(c, block, Some(EmbedAttrs(block)), reg);
  }

  /** code: a `pre` tag brick holding the block brick, which holds `data.text`. */
  method Code(block: Block, c: Brick, reg: Registry) returns (r: Outcome)
    modifies c`over, c.element
    ensures r.Pass? <==> old(Open(c)) && TagLook(reg.template, "pre", Blank).Ok? && BlockOk(reg.template, block, "pre")
    ensures c.element != null ==> c.element.classes == old(c.element.classes) && c.element.attrs == old(c.element.attrs)
    ensures r.Pass? ==>
      && Grew(c, old(c.over.bricks), old(c.element.children))
      && (var pre := Top(c);
          && fresh(pre) && fresh(pre.element) && MadeFromTag(pre, reg.template, "pre")
          && pre.over.Children? && Laid(pre, [], pre.over.bricks) && |pre.over.bricks| == 1
          && (var code := pre.over.bricks[0];
                MadeFromBlock(code, reg.template, block, "pre") && code.attributes == None && code.element.attrs == map[]
                && Leaf(code, TextChildren(TextOf(block.data.text)))))
  {
    var pre;
    r, pre := OpenTag(c, "pre", reg);
    if r.Fail? {
      return;
    }
    assert KeyOf(pre.kind) == "pre" && Open(pre);
    assert pre != c && pre.element != c.element;
    label placed:
    var code;
    r, code := OpenTextBlock(pre, block, reg);
    assert c.over == old@placed(c.over) && c.element.children == old@placed(c.element.children);
  }

  /** quote: a block brick holding `data.text`, then a caption brick when the caption is truthy. */
  method Quote(block: Block, c: Brick, reg: Registry) returns (r: Outcome)
    modifies c`over, c.element
    ensures r.Pass? <==> old(Open(c)) && CaptionedOk(reg.template, block, KeyOf(c.kind))
    ensures c.element != null ==> c.element.classes == old(c.element.classes) && c.element.attrs == old(c.element.attrs)
    ensures r.Pass? ==>
      && PlacedBlock(c, reg.template, block, old(c.over.bricks), old(c.element.children))
      && (var q := Top(c);
          && fresh(q) && fresh(q.element) && q.attributes == None && q.element.attrs == map[]
          && q.over.Children? && Laid(q, TextChildren(TextOf(block.data.text)), q.over.bricks)
          && |q.over.bricks| == (if Truthy(block.data.caption) then 1 else 0)
          && (Truthy(block.data.caption) ==>
                PropertyText(q.over.bricks[0], reg.template, "caption", block.kind, block.data.caption.value)))
  {
    var q;
    r, q := OpenTextBlock(c, block, reg);
    if r.Fail? {
      return;
    }
    r := LayCaption(q, block.data.caption, reg);
  }

  /** media: a block brick holding one `body` property brick. */
  method Media(block: Block, c: Brick, reg: Registry) returns (r: Outcome)
    modifies c`over, c.element
    ensures r.Pass? <==>
      old(Open(c)) && BlockOk(reg.template, block, KeyOf(c.kind)) && PropertyLook(reg.template, "body", Some(block.kind)).Ok?
    ensures c.element != null ==> c.element.classes == old(c.element.classes) && c.element.attrs == old(c.element.attrs)
    ensures r.Pass? ==>
      && PlacedBlock(c, reg.template, block, old(c.over.bricks), old(c.element.children))
      && (var m := Top(c);
          && fresh(m) && fresh(m.element) && m.attributes == None && m.element.attrs == map[]
          && m.over.Children? && Laid(m, [], m.over.bricks) && |m.over.bricks| == 1
          && PropertyText(m.over.bricks[0], reg.template, "body", block.kind, ""))
  {
    var m;
    r, m := OpenBlock(c, block, None, reg);
    if r.Fail? {
      return;
    }
    var body;
    r, body := LayProperty(m, "body", reg);
  }

  /** `new HtmlBricks().on(p).fromProperty(name)` followed by `lay()`. */
  method LayProperty(p: Brick, name: string, reg: Registry) returns (r: Outcome, b: Brick)
    requires p.over.Children? && p.element != null
    modifies p`over, p.element
    ensures r.Pass? <==> PropertyLook(reg.template, name, Some(KeyOf(p.kind))).Ok?
    ensures p.element.classes == old(p.element.classes) && p.element.attrs == old(p.element.attrs)
    ensures fresh(b) && p.over == Children(old(p.over.bricks) + [b])
    ensures r.Pass? ==>
      && b.element != null && fresh(b.element) && b.under == p && b.nestingLevel == p.nestingLevel + 1
      && PropertyText(b, reg.template, name, KeyOf(p.kind), "")
      && p.element.children == old(p.element.children) + [Child(b.element)]
      && (old(Laid(p, [], p.over.bricks)) ==> Laid(p, [], p.over.bricks))
  {
    r, b := PlaceProperty(p, name, reg);
    if r.Fail? {
      return;
    }
    var laid := b.Lay();
  }

  /** `new HtmlBricks().on(p).fromProperty(name).withText(text)` followed by `lay()`. */
  method LayPropertyText(p: Brick, name: string, text: string, reg: Registry) returns (r: Outcome, b: Brick)
    requires p.over.Children? && p.element != null
    modifies p`over, p.element
    ensures r.Pass? <==> PropertyLook(reg.template, name, Some(KeyOf(p.kind))).Ok?
    ensures p.element.classes == old(p.element.classes) && p.element.attrs == old(p.element.attrs)
    ensures fresh(b) && p.over == Children(old(p.over.bricks) + [b])
    ensures r.Pass? ==>
      && b.element != null && fresh(b.element) && b.under == p && b.nestingLevel == p.nestingLevel + 1
      && PropertyText(b, reg.template, name, KeyOf(p.kind), text)
      && p.element.children == old(p.element.children) + [Child(b.element)]
      && (old(Laid(p, [], p.over.bricks)) ==> Laid(p, [], p.over.bricks))
  {
    r, b := PlaceProperty(p, name, reg);
    if r.Fail? {
      return;
    }
    var written := b.WithText(Some(text));
    var laid := b.Lay();
  }

  /** The lookups the list routine makes: the block, the item list, and `li` when there are items. */
  predicate ListOk(t: Template, block: Block, key: string)
  {
    BlockOk(t, block, key) && block.data.items.Some? && TextsOk(t, "li", block.data.items.value)
  }

  /** list (items placed on the list brick): a block brick holding one `li` brick per item, in order. */
  method List(block: Block, c: Brick, reg: Registry) returns (r: Outcome)
    modifies c`over, c.element
    ensures r.Pass? <==> old(Open(c)) && ListOk(reg.template, block, KeyOf(c.kind))
    ensures c.element != null ==> c.element.classes == old(c.element.classes) && c.element.attrs == old(c.element.attrs)
    ensures r.Pass? ==>
      && PlacedBlock(c, reg.template, block, old(c.over.bricks), old(c.element.children))
      && (var l := Top(c);
          fresh(l) && fresh(l.element) && l.attributes == None && l.element.attrs == map[]
          && Cells(l, reg.template, "li", block.data.items.value))
  {
    var l;
    r, l := OpenBlock(c, block, None, reg);
    if r.Fail? {
      return;
    }
    if block.data.items.None? {
      return Fail(TypeError);
    }
    r := LayTexts(l, "li", block.data.items.value, reg);
  }

  /**
   * list as written: each item brick is placed `on(list)`, an identifier
   * that is not in scope, so any non-empty list throws at its first item.
   */
  method ListAsWritten(block: Block, c: Brick, reg: Registry) returns (r: Outcome)
    modifies c`over, c.element
    ensures r.Pass? <==>
      old(Open(c)) && BlockOk(reg.template, block, KeyOf(c.kind)) && block.data.items.Some? && |block.data.items.value| == 0
    ensures old(Open(c)) && BlockOk(reg.template, block, KeyOf(c.kind)) && block.data.items.Some? && |block.data.items.value| > 0
      ==> r == Fail(ReferenceError("list"))
  {
    var l;
    r, l := OpenBlock(c, block, None, reg);
    if r.Fail? {
      return;
    }
    if block.data.items.None? {
      return Fail(TypeError);
    }
    if |block.data.items.value| > 0 {
      return Fail(ReferenceError("list"));
    }
  }

  /** A tag brick `name` whose children are one `cell` text brick per entry of `texts`. */
  ghost predicate RowBrick(b: Brick, t: Template, name: string, cell: string, texts: seq<string>)
    reads b`category, b`kind, b`tag, b`classes, b`attributes, b`element, b.element
    reads b`over, b`nestingLevel, if b.over.Children? then b.over.bricks else []
    reads if b.over.Children? then Elements(b.over.bricks) else {}
  {
    MadeFromTag(b, t, name) && Cells(b, t, cell, texts)
  }

  /**
   * `RowBrick` together with the objects it depends on: `parts` holds the
   * brick, its element, its children and their elements, so that the row is
   * known to be untouched by any change outside `parts`.
   */
  ghost predicate FramedRow(b: Brick, parts: set<object?>, t: Template, name: string, cell: string, texts: seq<string>)
    reads parts
  {
    && b in parts && b.element in parts && b.over.Children?
    && (forall x :: x in b.over.bricks ==> x in parts)
    && Elements(b.over.bricks) <= parts
    && RowBrick(b, t, name, cell, texts)
  }

  /** `thead` with its `th` cells, or `tr` with its `td` cells: a tag brick laid under `p`, then one text brick per cell. */
  method LayRow(p: Brick, name: string, cell: string, texts: seq<string>, reg: Registry)
    returns (r: Outcome, b: Brick, ghost parts: set<object?>)
    requires p.over.Children? && p.element != null
    modifies p`over, p.element
    ensures r.Pass? <==> TagLook(reg.template, name, Blank).Ok? && TextsOk(reg.template, cell, texts)
    ensures p.element.classes == old(p.element.classes) && p.element.attrs == old(p.element.attrs)
    ensures r.Pass? ==>
      && fresh(b) && b.element != null && b.under == p && b.nestingLevel == p.nestingLevel + 1
      && FramedRow(b, parts, reg.template, name, cell, texts) && fresh(parts - {null}) && p !in parts && p.element !in parts
      && p.over == Children(old(p.over.bricks) + [b]) && p.element.children == old(p.element.children) + [Child(b.element)]
  {
    parts := {};
    r, b := OpenTag(p, name, reg);
    if r.Fail? {
      return;
    }
    r := LayTexts(b, cell, texts, reg);
    if r.Pass? {
      assert MadeFromTag(b, reg.template, name);
      assert RowBrick(b, reg.template, name, cell, texts);
      parts := {b as object?, b.element as object?} + (set x | x in b.over.bricks :: x as object?) + Elements(b.over.bricks);
      assert Elements(b.over.bricks) <= parts;
    }
  }

  /** The lookups a table with `rows` makes (the `thead`, `th` and `tbody` lookups only when there is a first row). */
  predicate RowsOk(t: Template, rows: seq<seq<string>>)
  {
    |rows| == 0 ||
      (&& TagLook(t, "thead", Blank).Ok? && TextsOk(t, "th", rows[0]) && TagLook(t, "tbody", Blank).Ok?
       && BodyRowsOk(t, rows[1..]))
  }

  /** The lookups the rows after the first make: `tr`, and `td` for a row with cells. */
  predicate BodyRowsOk(t: Template, rows: seq<seq<string>>)
  {
    (|rows| > 0 ==> TagLook(t, "tr", Blank).Ok?) && forall k :: 0 <= k < |rows| ==> TextsOk(t, "td", rows[k])
  }

  /** Rows known together with their frames are rows. */
  lemma RowsIntro(trs: seq<Brick>, partsOf: seq<set<object?>>, t: Template, rows: seq<seq<string>>)
    requires |trs| == |partsOf| == |rows|
    requires forall k :: 0 <= k < |rows| ==> FramedRow(trs[k], partsOf[k], t, "tr", "td", rows[k])
    ensures forall k :: 0 <= k < |rows| ==> RowBrick(trs[k], t, "tr", "td", rows[k])
  {
  }

  /** The rows laid so far under `body`: one framed `tr` brick per row, none of whose parts is `body` or its element. */
  ghost predicate RowsSoFar(body: Brick, trs: seq<Brick>, partsOf: seq<set<object?>>, t: Template, rows: seq<seq<string>>)
    reads *
  {
    && |trs| == |partsOf| <= |rows| && Laid(body, [], trs)
    && forall k :: 0 <= k < |trs| ==>
         body !in partsOf[k] && body.element !in partsOf[k] && FramedRow(trs[k], partsOf[k], t, "tr", "td", rows[k])
  }

  /** The cells of one more row pass their lookup. */
  lemma TextsOkSnoc(t: Template, rows: seq<seq<string>>, i: nat)
    requires i < |rows| && TextsOk(t, "td", rows[i])
    requires forall k :: 0 <= k < i ==> TextsOk(t, "td", rows[k])
    ensures forall k :: 0 <= k < i + 1 ==> TextsOk(t, "td", rows[k])
  {
  }

  /** One turn of the rows loop: the `tr` brick for `rows[i]`, after the `i` laid so far. */
  method NextRow(body: Brick, rows: seq<seq<string>>, i: nat, reg: Registry, ghost trs: seq<Brick>, ghost partsOf: seq<set<object?>>)
    returns (r: Outcome, ghost trs': seq<Brick>, ghost partsOf': seq<set<object?>>)
    requires i == |trs| < |rows| && RowsSoFar(body, trs, partsOf, reg.template, rows)
    modifies body`over, body.element
    ensures body.element != null && body.element.classes == old(body.element.classes) && body.element.attrs == old(body.element.attrs)
    ensures r.Pass? <==> TagLook(reg.template, "tr", Blank).Ok? && TextsOk(reg.template, "td", rows[i])
    ensures r.Pass? ==> |trs'| == i + 1 && RowsSoFar(body, trs', partsOf', reg.template, rows)
  {
    var tr;
    ghost var parts;
    trs', partsOf' := trs, partsOf;
    r, tr, parts := LayRow(body, "tr", "td", rows[i], reg);
    if r.Fail? {
      return;
    }
    forall k | 0 <= k < i
      ensures body !in partsOf[k] && body.element !in partsOf[k] && FramedRow(trs[k], partsOf[k], reg.template, "tr", "td", rows[k])
    {
    }
    trs', partsOf' := trs + [tr], partsOf + [parts];
    assert Laid(body, [], trs');
  }

  /** The `forEach` branch for the rows after the first: one `tr` brick per row under `body`, each with its `td` cells. */
  method LayRows(body: Brick, rows: seq<seq<string>>, reg: Registry) returns (r: Outcome)
    requires body.over == Children([]) && body.element != null && body.element.children == []
    modifies body`over, body.element
    ensures r.Pass? <==> BodyRowsOk(reg.template, rows)
    ensures body.element.classes == old(body.element.classes) && body.element.attrs == old(body.element.attrs)
    ensures r.Pass? ==>
      && body.over.Children? && Laid(body, [], body.over.bricks) && |body.over.bricks| == |rows|
      && forall k :: 0 <= k < |rows| ==> RowBrick(body.over.bricks[k], reg.template, "tr", "td", rows[k])
  {
    ghost var trs: seq<Brick> := [];
    ghost var partsOf: seq<set<object?>> := [];
    var i := 0;
    r := Pass;
    while i < |rows|
      invariant 0 <= i <= |rows| && |trs| == i && r.Pass?
      invariant i > 0 ==> TagLook(reg.template, "tr", Blank).Ok?
      invariant forall k :: 0 <= k < i ==> TextsOk(reg.template, "td", rows[k])
      invariant body.element != null && body.element.classes == old(body.element.classes) && body.element.attrs == old(body.element.attrs)
      invariant RowsSoFar(body, trs, partsOf, reg.template, rows)
    {
      r, trs, partsOf := NextRow(body, rows, i, reg, trs, partsOf);
      if r.Fail? {
        assert !BodyRowsOk(reg.template, rows);
        return;
      }
      TextsOkSnoc(reg.template, rows, i);
      i := i + 1;
    }
    RowsIntro(trs, partsOf, reg.template, rows);
  }


  predicate TableOk(t: Template, block: Block, key: string)
  {
    BlockOk(t, block, key) && block.data.content.Some? && RowsOk(t, block.data.content.value)
  }

  /**
   * The tree under a table brick: nothing for no rows; otherwise a `thead`
   * holding the first row's `th` cells and a `tbody` holding one `tr` per
   * further row with its `td` cells.
   */
  ghost predicate TableShape(tb: Brick, t: Template, rows: seq<seq<string>>)
    reads *
  {
    && tb.over.Children? && Laid(tb, [], tb.over.bricks)
    && |tb.over.bricks| == (if |rows| == 0 then 0 else 2)
    && (|rows| > 0 ==>
          && RowBrick(tb.over.bricks[0], t, "thead", "th", rows[0])
          && var body := tb.over.bricks[1];
          && MadeFromTag(body, t, "tbody") && body.over.Children? && Laid(body, [], body.over.bricks)
          && |body.over.bricks| == |rows| - 1
          && forall k :: 0 <= k < |rows| - 1 ==> RowBrick(body.over.bricks[k], t, "tr", "td", rows[1..][k]))
  }

  /** `TableShape` from the head row, known with its frame, and the body. */
  lemma TableIntro(tb: Brick, head: Brick, body: Brick, parts: set<object?>, t: Template, rows: seq<seq<string>>)
    requires |rows| > 0 && Laid(tb, [], [head, body]) && FramedRow(head, parts, t, "thead", "th", rows[0])
    requires MadeFromTag(body, t, "tbody") && body.over.Children? && Laid(body, [], body.over.bricks)
    requires |body.over.bricks| == |rows| - 1
    requires forall k :: 0 <= k < |rows| - 1 ==> RowBrick(body.over.bricks[k], t, "tr", "td", rows[1..][k])
    ensures TableShape(tb, t, rows)
  {
  }

  /** One kid laid under a brick that had none. */
  lemma LaidSingle(p: Brick, a: Brick)
    requires p.over == Children([] + [a]) && p.element != null && a.element != null
    requires p.element.children == [] + [Child(a.element)]
    requires a.under == p && a.nestingLevel == p.nestingLevel + 1
    ensures Laid(p, [], [a])
  {
    assert [] + [a] == [a];
  }

  /** What `MadeFromProperty` is stated about: the brick, the template, the property's name and the parent's key. */
  datatype Made = Made(b: Brick, t: Template, name: string, key: string)

  /** A property brick keeps its look while only its children change. */
  twostate lemma StillMade(m: Made)
    requires old(MadeFromProperty(m.b, m.t, m.name, m.key, []))
    requires unchanged(m.b`category, m.b`kind, m.b`tag, m.b`classes, m.b`attributes, m.b`element)
    requires m.b.element != null && unchanged(m.b.element`classes, m.b.element`attrs)
    ensures MadeFromProperty(m.b, m.t, m.name, m.key, [])
  {
  }

  /** Two kids laid one after the other under `p`. */
  lemma LaidPair(p: Brick, a: Brick, b: Brick)
    requires p.over == Children([] + [a] + [b]) && p.element != null && a.element != null && b.element != null
    requires p.element.children == [] + [Child(a.element)] + [Child(b.element)]
    requires a.under == p && b.under == p && a.nestingLevel == p.nestingLevel + 1 && b.nestingLevel == p.nestingLevel + 1
    ensures Laid(p, [], [a, b])
  {
    assert [] + [a] + [b] == [a, b];
  }

  /** The first row's branch: a `thead` brick with one `th` per cell, then the `tbody` brick, both laid under `tb`. */
  method LayHead(tb: Brick, row: seq<string>, reg: Registry) returns (r: Outcome, head: Brick, body: Brick?, ghost parts: set<object?>)
    requires tb.over == Children([]) && tb.element != null && tb.element.children == []
    modifies tb`over, tb.element
    ensures r.Pass? <==> TagLook(reg.template, "thead", Blank).Ok? && TextsOk(reg.template, "th", row) && TagLook(reg.template, "tbody", Blank).Ok?
    ensures tb.element.classes == old(tb.element.classes) && tb.element.attrs == old(tb.element.attrs)
    ensures r.Pass? ==>
      && body != null && fresh(body) && fresh(body.element) && body !in parts && body.element !in parts
      && Laid(tb, [], [head, body]) && FramedRow(head, parts, reg.template, "thead", "th", row)
      && MadeFromTag(body, reg.template, "tbody") && body.over == Children([]) && body.element.children == []
  {
    body := null;
    r, head, parts := LayRow(tb, "thead", "th", row, reg);
    if r.Fail? {
      return;
    }
    r, body := OpenTag(tb, "tbody", reg);
    if r.Pass? {
      LaidPair(tb, head, body);
    }
  }

  /** The `forEach` over a table's rows, with the `tbody` brick visible to every row. */
  method LayTable(tb: Brick, rows: seq<seq<string>>, reg: Registry) returns (r: Outcome)
    requires tb.over == Children([]) && tb.element != null && tb.element.children == []
    modifies tb`over, tb.element
    ensures r.Pass? <==> RowsOk(reg.template, rows)
    ensures tb.element.classes == old(tb.element.classes) && tb.element.attrs == old(tb.element.attrs)
    ensures r.Pass? ==> TableShape(tb, reg.template, rows)
  {
    r := Pass;
    if |rows| == 0 {
      return;
    }
    var head, body;
    ghost var parts;
    r, head, body, parts := LayHead(tb, rows[0], reg);
    if r.Fail? {
      return;
    }
    r := LayRows(body, rows[1..], reg);
    if r.Pass? {
      TableIntro(tb, head, body, parts, reg.template, rows);
    }
  }

  /** table (the `tbody` brick visible to every row): a block brick holding the table's head and body. */
  method Table(block: Block, c: Brick, reg: Registry) returns (r: Outcome)
    modifies c`over, c.element
    ensures r.Pass? <==> old(Open(c)) && TableOk(reg.template, block, KeyOf(c.kind))
    ensures c.element != null ==> c.element.classes == old(c.element.classes) && c.element.attrs == old(c.element.attrs)
    ensures r.Pass? ==>
      && PlacedBlock(c, reg.template, block, old(c.over.bricks), old(c.element.children))
      && (var tb := Top(c);
          fresh(tb) && fresh(tb.element) && tb.attributes == None && tb.element.attrs == map[]
          && TableShape(tb, reg.template, block.data.content.value))
  {
    var tb;
    r, tb := OpenBlock(c, block, None, reg);
    if r.Fail? {
      return;
    }
    if block.data.content.None? {
      return Fail(TypeError);
    }
    r := LayTable(tb, block.data.content.value, reg);
  }

  /**
   * table as written: `tbodyBrick` is declared inside the first row's
   * branch, so the second row refers to an identifier that is not in scope.
   */
  method TableAsWritten(block: Block, c: Brick, reg: Registry) returns (r: Outcome)
    modifies c`over, c.element
    ensures r.Pass? <==> old(Open(c)) && TableOk(reg.template, block, KeyOf(c.kind)) && |block.data.content.value| <= 1
    ensures old(Open(c)) && TableOk(reg.template, block, KeyOf(c.kind)) && |block.data.content.value| > 1
      ==> r == Fail(ReferenceError("tbodyBrick"))
  {
    var tb;
    r, tb := OpenBlock(c, block, None, reg);
    if r.Fail? {
      return;
    }
    if block.data.content.None? {
      return Fail(TypeError);
    }
    var rows := block.data.content.value;
    if |rows| == 0 {
      return;
    }
    var head, body;
    ghost var parts;
    r, head, body, parts := LayHead(tb, rows[0], reg);
    if r.Fail? {
      return;
    }
    if |rows| > 1 {
      return Fail(ReferenceError("tbodyBrick"));
    }
  }

  /** linkTool's title: `meta.title` when truthy, else "No Title". */
  function Title(block: Block): string
  {
    if block.data.meta.Some? && Truthy(block.data.meta.value.title) then block.data.meta.value.title.value else "No Title"
  }

  /** linkTool's description: `meta.description` when truthy, else "No Description". */
  function Description(block: Block): string
  {
    if block.data.meta.Some? && Truthy(block.data.meta.value.description) then block.data.meta.value.description.value
    else "No Description"
  }

  /** The attributes of linkTool's image: `meta.image.url` and the title. */
  function LinkImageAttrs(block: Block): seq<Attr>
  {
    var url := if block.data.meta.Some? && block.data.meta.value.image.Some? then block.data.meta.value.image.value.url else None;
    [Attr("src", Str(url)), Attr("alt", Title(block))]
  }

  /** The lookups `LayLinkImage` makes, and the image the `src` attribute reads. */
  predicate LinkImageOk(t: Template, block: Block)
  {
    && block.data.meta.Some? && PropertyLook(t, "linkImg", Some("link")).Ok?
    && block.data.meta.value.image.Some? && PropertyLook(t, "image", Some("linkImg")).Ok?
  }

  /** The lookups `LayLinkTexts` makes. */
  predicate LinkTextsOk(t: Template)
  {
    && PropertyLook(t, "title", Some("link")).Ok?
    && PropertyLook(t, "description", Some("link")).Ok?
    && PropertyLook(t, "anchor", Some("link")).Ok?
  }

  /** The lookups `LayLink` makes. */
  predicate LinkOk(t: Template, block: Block)
  {
    PropertyLook(t, "link", Some(block.kind)).Ok? && LinkImageOk(t, block) && LinkTextsOk(t)
  }

  /** Every lookup and field read of the linkTool routine succeeds. */
  predicate LinkToolOk(t: Template, block: Block, key: string)
  {
    block.data.link.Some? && block.data.meta.Some? && BlockOk(t, block, key) && LinkOk(t, block)
  }

  /** The `image` brick of linkTool, with its `src` and `alt`, laid under the wrapper `wrap`. */
  method LayLinkPicture(wrap: Brick, block: Block, reg: Registry) returns (r: Outcome, img: Brick)
    requires wrap.over == Children([]) && wrap.element != null && wrap.element.children == [] && wrap.kind == Some("linkImg")
    modifies wrap`over, wrap.element
    ensures r.Pass? <==> PropertyLook(reg.template, "image", Some("linkImg")).Ok?
    ensures wrap.element.classes == old(wrap.element.classes) && wrap.element.attrs == old(wrap.element.attrs)
    ensures r.Pass? ==>
      && fresh(img) && img.element != null && fresh(img.element)
      && wrap.over == Children([img]) && wrap.element.children == [Child(img.element)]
      && img.under == wrap && img.nestingLevel == wrap.nestingLevel + 1
      && MadeFromProperty(img, reg.template, "image", "linkImg", LinkImageAttrs(block)) && Leaf(img, [])
  {
    r, img := PlaceProperty(wrap, "image", reg);
    if r.Fail? {
      return;
    }
    var given := img.WithAttributes(Some(LinkImageAttrs(block)));
    var laid := img.Lay();
  }

  /**
   * The `link` brick's image part: a `linkImg` brick laid under `lk`, then
   * its `image` brick.  The image is read from `meta.image.url`, which
   * throws when `meta.image` is missing.
   */
  method LayLinkImage(lk: Brick, block: Block, reg: Registry) returns (r: Outcome, wrap: Brick)
    requires lk.over.Children? && lk.element != null && lk.kind == Some("link")
    requires block.data.meta.Some?
    modifies lk`over, lk.element
    ensures r.Pass? <==> LinkImageOk(reg.template, block)
    ensures lk.element.classes == old(lk.element.classes) && lk.element.attrs == old(lk.element.attrs)
    ensures r.Pass? ==>
      && fresh(wrap) && wrap.element != null && fresh(wrap.element)
      && lk.over == Children(old(lk.over.bricks) + [wrap]) && lk.element.children == old(lk.element.children) + [Child(wrap.element)]
      && wrap.under == lk && wrap.nestingLevel == lk.nestingLevel + 1
      && MadeFromProperty(wrap, reg.template, "linkImg", "link", []) && wrap.over.Children? && |wrap.over.bricks| == 1
  {
    r, wrap := LayProperty(lk, "linkImg", reg);
    if r.Fail? {
      return;
    }
    if block.data.meta.value.image.None? {
      r := Fail(TypeError);
      return;
    }
    var img;
    r, img := LayLinkPicture(wrap, block, reg);
  }

  /**
   * The title, description and anchor bricks of linkTool, laid one after the
   * other under the `link` brick `lk`, each holding its text.
   */
  method LayLinkTexts(lk: Brick, block: Block, reg: Registry) returns (r: Outcome, title: Brick, description: Brick, anchor: Brick)
    requires lk.over.Children? && lk.element != null && lk.kind == Some("link") && block.data.link.Some?
    modifies lk`over, lk.element
    ensures r.Pass? <==> LinkTextsOk(reg.template)
    ensures lk.element.classes == old(lk.element.classes) && lk.element.attrs == old(lk.element.attrs)
    ensures r.Pass? ==>
      && fresh(title) && fresh(description) && fresh(anchor)
      && title.element != null && description.element != null && anchor.element != null
      && fresh(title.element) && fresh(description.element) && fresh(anchor.element)
      && lk.over == Children(((old(lk.over.bricks) + [title]) + [description]) + [anchor])
      && lk.element.children ==
           ((old(lk.element.children) + [Child(title.element)]) + [Child(description.element)]) + [Child(anchor.element)]
      && PropertyText(title, reg.template, "title", "link", Title(block))
      && PropertyText(description, reg.template, "description", "link", Description(block))
      && PropertyText(anchor, reg.template, "anchor", "link", SetProtocol(block.data.link.value))
  {
    r, title := LayPropertyText(lk, "title", Title(block), reg);
    description, anchor := title, title;
    if r.Fail? {
      return;
    }
    r, description := LayPropertyText(lk, "description", Description(block), reg);
    if r.Fail? {
      return;
    }
    r, anchor := LayPropertyText(lk, "anchor", SetProtocol(block.data.link.value), reg);
  }

  /**
   * Everything linkTool lays under its block brick `lt`: one `link` brick
   * holding the image wrapper, then the title, description and anchor
   * bricks (`LayLinkImage`, `LayLinkTexts`).
   */
  method LayLink(lt: Brick, block: Block, reg: Registry) returns (r: Outcome, lk: Brick)
    requires lt.over == Children([]) && lt.element != null && lt.element.children == [] && lt.kind == Some(block.kind)
    requires block.data.link.Some? && block.data.meta.Some?
    modifies lt`over, lt.element
    ensures r.Pass? <==> LinkOk(reg.template, block)
    ensures lt.element.classes == old(lt.element.classes) && lt.element.attrs == old(lt.element.attrs)
  {
    r, lk := LayProperty(lt, "link", reg);
    if r.Fail? {
      return;
    }
    var wrap;
    r, wrap := LayLinkImage(lk, block, reg);
    if r.Fail? {
      return;
    }
    var title, description, anchor;
    r, title, description, anchor := LayLinkTexts(lk, block, reg);
  }

  /**
   * linkTool: `setProtocol(data.link)` and the `meta` fields are read first
   * (a missing link or meta throws); then a block brick holding the link
   * tree that `LayLink` lays.
   */
  method LinkTool(block: Block, c: Brick, reg: Registry) returns (r: Outcome)
    modifies c`over, c.element
    ensures r.Pass? <==> old(Open(c)) && LinkToolOk(reg.template, block, KeyOf(c.kind))
    ensures c.element != null ==> c.element.classes == old(c.element.classes) && c.element.attrs == old(c.element.attrs)
    ensures r.Pass? ==>
      && PlacedBlock(c, reg.template, block, old(c.over.bricks), old(c.element.children))
      && (var lt := Top(c); fresh(lt) && fresh(lt.element) && lt.attributes == None && lt.element.attrs == map[])
  {
    if block.data.link.None? || block.data.meta.None? {
      return Fail(TypeError);
    }
    var lt;
    r, lt := OpenBlock(c, block, None, reg);
    if r.Fail? {
      return;
    }
    var lk;
    r, lk := LayLink(lt, block, reg);
  }

  /** The attribute attaches sets: `href` from `file.url`. */
  function AttachesAttrs(block: Block): seq<Attr>
  {
    [Attr("href", Str(if block.data.file.Some? then block.data.file.value.url else None))]
  }

  /** Every lookup and field read of the attaches routine succeeds. */
  predicate AttachesOk(t: Template, block: Block, key: string)
  {
    block.data.file.Some? && BlockOk(t, block, key) && FileOk(t, block)
  }

  /** The lookups `LayFile` makes. */
  predicate FileOk(t: Template, block: Block)
  {
    && PropertyLook(t, "fileBlock", Some(block.kind)).Ok?
    && PropertyLook(t, "icon", Some("fileBlock")).Ok?
    && PropertyLook(t, "fileName", Some("fileBlock")).Ok?
  }

  /** The `icon` and `fileName` bricks, both empty, laid under `fb`. */
  ghost predicate FileParts(fb: Brick, t: Template)
    reads fb`over, fb`element, fb`nestingLevel, fb.element, Kids(fb), Elements(Kids(fb))
  {
    && fb.over.Children? && |fb.over.bricks| == 2 && Laid(fb, [], fb.over.bricks)
    && PropertyText(fb.over.bricks[0], t, "icon", "fileBlock", "")
    && PropertyText(fb.over.bricks[1], t, "fileName", "fileBlock", "")
  }

  /** The `icon` and `fileName` bricks of attaches. */
  method LayFileParts(fb: Brick, reg: Registry) returns (r: Outcome)
    requires fb.over == Children([]) && fb.element != null && fb.element.children == [] && fb.kind == Some("fileBlock")
    modifies fb`over, fb.element
    ensures r.Pass? <==>
      PropertyLook(reg.template, "icon", Some("fileBlock")).Ok? && PropertyLook(reg.template, "fileName", Some("fileBlock")).Ok?
    ensures fb.element.classes == old(fb.element.classes) && fb.element.attrs == old(fb.element.attrs)
    ensures r.Pass? ==> FileParts(fb, reg.template)
  {
    var icon;
    r, icon := LayProperty(fb, "icon", reg);
    if r.Fail? {
      return;
    }
    var name;
    r, name := LayProperty(fb, "fileName", reg);
  }

  /** The tree under an attaches block brick: a `fileBlock` brick holding an empty `icon` and an empty `fileName` brick. */
  ghost predicate FileShape(at: Brick, t: Template, block: Block)
    reads at`over, at`element, at`nestingLevel, at.element, Kids(at), Elements(Kids(at))
    reads if |Kids(at)| > 0 then Kids(Kids(at)[0]) else [], if |Kids(at)| > 0 then Elements(Kids(Kids(at)[0])) else {}
  {
    && at.over.Children? && |at.over.bricks| == 1 && Laid(at, [], at.over.bricks)
    && MadeFromProperty(at.over.bricks[0], t, "fileBlock", block.kind, []) && FileParts(at.over.bricks[0], t)
  }

  /** The `fileBlock` brick and its two children, laid under the attaches brick `at`. */
  method LayFile(at: Brick, block: Block, reg: Registry) returns (r: Outcome)
    requires at.over == Children([]) && at.element != null && at.element.children == [] && at.kind == Some(block.kind)
    modifies at`over, at.element
    ensures r.Pass? <==> FileOk(reg.template, block)
    ensures at.element.classes == old(at.element.classes) && at.element.attrs == old(at.element.attrs)
    ensures r.Pass? ==> FileShape(at, reg.template, block)
  {
    var fb;
    r, fb := LayProperty(at, "fileBlock", reg);
    if r.Fail? {
      return;
    }
    r := LayFileParts(fb, reg);
  }

  /**
   * attaches: `data.file.url` is read first (a missing file throws); then a
   * block brick whose attributes become the single `href`, holding the file tree.
   */
  method Attaches(block: Block, c: Brick, reg: Registry) returns (r: Outcome)
    modifies c`over, c.element
    ensures r.Pass? <==> old(Open(c)) && AttachesOk(reg.template, block, KeyOf(c.kind))
    ensures c.element != null ==> c.element.classes == old(c.element.classes) && c.element.attrs == old(c.element.attrs)
    ensures r.Pass? ==>
      && PlacedBlock(c, reg.template, block, old(c.over.bricks), old(c.element.children))
      && (var at := Top(c);
          && fresh(at) && fresh(at.element) && at.attributes == Some(AttachesAttrs(block))
          && at.element.attrs == ApplyAttrs(map[], AttachesAttrs(block)))
  {
    if block.data.file.None? {
      return Fail(TypeError);
    }
    var at;
    r, at := OpenBlock(c, block, Some(AttachesAttrs(block)), reg);
    if r.Fail? {
      return;
    }
    label Opened:
    r := LayFile(at, block, reg);
    StillPlaced@Opened(Placement(c, reg.template, block, old(c.over.bricks), old(c.element.children)));
  }
}
