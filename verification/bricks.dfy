/**
 * HtmlBricks (lib/ejs-html-bricks.js): a brick is a node of the tree the
 * builder assembles.  It owns one element, knows its parent (`under`) and
 * its children (`over`), and is shaped by one of the constructors
 * `FromBlock`, `FromTag`, `FromProperty`, `FromElement` or `AsRoot` using
 * the shared template table.  The class's static state (the template table
 * and the `stack`) lives in a `Registry` object.
 */
module Bricks {
  import opened Basics
  import opened Blocks
  import opened Dom
  import opened Templates
  import opened Shipped

  /** The template category a brick was made from. */
  datatype Category = BlockBrick | TagBrick | PropertyBrick

  /**
   * The `over` field: undefined, the array of child bricks, or the single
   * brick the instance `setRoot` assigns.
   */
  datatype Over = Undefined | Children(bricks: seq<Brick>) | Single(brick: Brick)

  /** What `identify` returns: the brick itself (for chaining) or its current id. */
  datatype Identity = Chained | Current(id: Option<string>)

  class Brick {
    var element: Element?
    var over: Over
    var under: Brick?
    var brickID: Option<string>
    var classes: Option<seq<string>>
    var attributes: Option<seq<Attr>>
    var position: Option<int>
    var nestingLevel: int
    var kind: Option<string>
    var category: Option<Category>
    var tag: Option<string>
    var root: Brick?

    /** A new brick whose child list starts empty, so that it can be a parent. */
    constructor ()
      ensures element == null && over == Children([]) && under == null && root == null
      ensures brickID == None && classes == None && attributes == None && position == None
      ensures nestingLevel == 0 && kind == None && category == None && tag == None
    {
      element := null;
      over := Children([]);
      under := null;
      brickID := None;
      classes := None;
      attributes := None;
      position := None;
      nestingLevel := 0;
      kind := None;
      category := None;
      tag := None;
      root := null;
    }

    /** `new HtmlBricks()` as written: `over` stays undefined until `asRoot`. */
    constructor AsWritten()
      ensures element == null && over == Undefined && under == null && root == null
      ensures brickID == None && classes == None && attributes == None && position == None
      ensures nestingLevel == 0 && kind == None && category == None && tag == None
    {
      element := null;
      over := Undefined;
      under := null;
      brickID := None;
      classes := None;
      attributes := None;
      position := None;
      nestingLevel := 0;
      kind := None;
      category := None;
      tag := None;
      root := null;
    }

    function CurrentLook(): Look
      reads this
    {
      Look(tag, classes, attributes)
    }

    /** The key this brick's lookups use: the parent's type, `None` without a parent. */
    function ParentKey(): Option<string>
      reads this, under
    {
      if under == null then None else Some(KeyOf(under.kind))
    }

    /**
     * `on(parent)`: records the parent, appends this brick to the parent's
     * children and sets the nesting level one deeper than the parent's.
     * Pushing onto an `over` that is not an array throws.
     */
    method On(parent: Brick) returns (r: Outcome)
      modifies this`under, this`nestingLevel, parent`over
      ensures under == parent
      ensures r.Pass? <==> old(parent.over).Children?
      ensures r.Pass? ==> parent.over == Children(old(parent.over).bricks + [this])
      ensures r.Pass? ==> nestingLevel == old(parent.nestingLevel) + 1
      ensures r.Fail? ==> r.fault == TypeError && parent.over == old(parent.over) && nestingLevel == old(nestingLevel)
    {
      under := parent;
      match parent.over
      case Children(bricks) =>
        parent.over := Children(bricks + [this]);
        nestingLevel := parent.nestingLevel + 1;
        r := Pass;
      case _ =>
        r := Fail(TypeError);
    }

    /**
     * `fromBlock(block)`: sets category, id and type, chooses the tag from
     * the block entry (header level, list style, nestable parent lookup or
     * the fixed tag), creates the element and adds the entry's default
     * classes.  A block type without an entry keeps the previous tag and
     * classes.  No template attributes are applied.
     */
    method FromBlock(block: Block, reg: Registry) returns (r: Outcome)
      modifies this`category, this`brickID, this`kind, this`tag, this`classes, this`element
      ensures category == Some(BlockBrick) && brickID == block.id && kind == Some(block.kind)
      ensures r == Completion(BlockLook(reg.template, block, ParentKey(), old(CurrentLook())))
      ensures r.Pass? ==>
        var look := BlockLook(reg.template, block, ParentKey(), old(CurrentLook())).value;
        && tag == look.tag && classes == look.classes && attributes == look.attributes
        && element != null && fresh(element) && element.tag == NameOf(look.tag)
        && element.classes == (if block.kind in reg.template.blocks then TokenSet(look.classes.value) else {})
        && element.attrs == map[] && element.children == []
    {
      category := Some(BlockBrick);
      brickID := block.id;
      kind := Some(block.kind);
      var t := reg.template;
      var entry := if block.kind in t.blocks then Some(t.blocks[block.kind]) else None;
      if entry.Some? {
        var picked := BlockTag(entry.value, block, ParentKey());
        if picked.Err? {
          return Fail(picked.fault);
        }
        tag := picked.value;
      }
      if !ValidElementName(NameOf(tag)) {
        return Fail(InvalidCharacterError);
      }
      var created := new Element(NameOf(tag));
      element := created;
      if entry.Some? {
        if entry.value.classes.Absent? {
          return Fail(TypeError);
        }
        classes := At(entry.value.classes, "default");
        if classes.None? {
          return Fail(TypeError);
        }
        r := created.AddClasses(classes.value);
        if r.Fail? {
          return;
        }
      }
      r := Pass;
    }

    /**
     * `fromTag(name)`: the tag and type are the name; the classes are the
     * `'default'` classes of the tags entry of that name.
     */
    method FromTag(name: string, reg: Registry) returns (r: Outcome)
      modifies this`category, this`kind, this`tag, this`classes, this`element
      ensures category == Some(TagBrick) && tag == Some(name) && kind == Some(name)
      ensures r == Completion(TagLook(reg.template, name, old(CurrentLook())))
      ensures r.Pass? ==>
        var look := TagLook(reg.template, name, old(CurrentLook())).value;
        && classes == look.classes && attributes == look.attributes
        && element != null && fresh(element) && element.tag == name
        && element.classes == TokenSet(look.classes.value)
        && element.attrs == map[] && element.children == []
    {
      category := Some(TagBrick);
      tag := Some(name);
      kind := Some(name);
      if !ValidElementName(name) {
        return Fail(InvalidCharacterError);
      }
      var created := new Element(name);
      element := created;
      var t := reg.template;
      if name !in t.tags || t.tags[name].classes.Absent? {
        return Fail(TypeError);
      }
      classes := At(t.tags[name].classes, "default");
      if classes.None? {
        return Fail(TypeError);
      }
      r := created.AddClasses(classes.value);
    }

    /**
     * `fromProperty(name)`: tag, classes and attributes are each looked up
     * under the parent's type with a `'default'` fallback; the attributes are
     * set on the new element in order, then the classes are added.
     */
    method FromProperty(name: string, reg: Registry) returns (r: Outcome)
      modifies this`category, this`kind, this`tag, this`classes, this`attributes, this`element
      ensures category == Some(PropertyBrick) && kind == Some(name)
      ensures r == Completion(PropertyLook(reg.template, name, ParentKey()))
      ensures r.Pass? ==>
        var look := PropertyLook(reg.template, name, ParentKey()).value;
        && tag == look.tag && classes == look.classes && attributes == look.attributes
        && element != null && fresh(element) && element.tag == NameOf(look.tag)
        && element.classes == TokenSet(look.classes.value)
        && element.attrs == ApplyAttrs(map[], look.attributes.value) && element.children == []
    {
      category := Some(PropertyBrick);
      kind := Some(name);
      var parent := under;
      var t := reg.template;
      if name !in t.properties || parent == null {
        return Fail(TypeError);
      }
      var e := t.properties[name];
      var key := KeyOf(parent.kind);
      if e.tags.Unset? {
        return Fail(TypeError);
      }
      tag := PropertyTag(e, key);
      if !ValidElementName(NameOf(tag)) {
        return Fail(InvalidCharacterError);
      }
      var created := new Element(NameOf(tag));
      element := created;
      if e.classes.Absent? {
        return Fail(TypeError);
      }
      classes := Fallback(e.classes, key);
      if e.attributes.Absent? {
        return Fail(TypeError);
      }
      attributes := Fallback(e.attributes, key);
      if attributes.None? {
        return Fail(TypeError);
      }
      SetEachAttribute(attributes.value);
      if classes.None? {
        return Fail(TypeError);
      }
      r := created.AddClasses(classes.value);
    }

    /** The `forEach` that calls `setAttribute` for each entry of a list, in order. */
    method SetEachAttribute(list: seq<Attr>)
      requires element != null
      modifies element`attrs
      ensures element.attrs == ApplyAttrs(old(element.attrs), list)
    {
      var i := 0;
      while i < |list|
        invariant 0 <= i <= |list|
        invariant element.attrs == ApplyAttrs(old(element.attrs), list[..i])
      {
        ApplyAttrsSnoc(old(element.attrs), list[..i], list[i]);
        assert list[..i + 1] == list[..i] + [list[i]];
        element.SetAttribute(list[i].name, list[i].value);
        i := i + 1;
      }
      assert list[..i] == list;
    }

    /** `fromElement(e)`: adopts an existing element. */
    method FromElement(e: Element?)
      modifies this`element
      ensures element == e
    {
      element := e;
    }

    /** `asRoot()`: no parent, type "root", no children, position 0, nesting level 0. */
    method AsRoot()
      modifies this`under, this`kind, this`over, this`position, this`nestingLevel
      ensures under == null && kind == Some("root") && over == Children([])
      ensures position == Some(0) && nestingLevel == 0
    {
      under := null;
      kind := Some("root");
      over := Children([]);
      position := Some(0);
      nestingLevel := 0;
    }

    /** `lay()`: appends this brick's element to the parent's element. */
    method Lay() returns (r: Outcome)
      modifies if under == null then null else under.element
      ensures r.Pass? <==> under != null && under.element != null && element != null
      ensures r.Fail? ==> r.fault == TypeError
      ensures r.Pass? ==> under.element.children == old(under.element.children) + [Child(element)]
      ensures under != null && under.element != null ==>
        && under.element.classes == old(under.element.classes)
        && under.element.attrs == old(under.element.attrs)
        && (r.Fail? ==> under.element.children == old(under.element.children))
    {
      if under == null || under.element == null || element == null {
        return Fail(TypeError);
      }
      under.element.AppendChild(element);
      r := Pass;
    }

    /** `withClasses(list)`: without a list nothing happens; otherwise the list replaces `classes` and is added to the element. */
    method WithClasses(list: Option<seq<string>>) returns (r: Outcome)
      modifies this`classes, element
      ensures list.None? ==> r.Pass? && classes == old(classes)
      ensures list.Some? ==> classes == list
      ensures list.Some? ==> r == if element == null then Fail(TypeError) else TokenCheck(list.value)
      ensures element != null ==>
        && element.classes == (if list.Some? && r.Pass? then old(element.classes) + TokenSet(list.value) else old(element.classes))
        && element.attrs == old(element.attrs) && element.children == old(element.children)
    {
      if list.Some? {
        classes := list;
        if element == null {
          return Fail(TypeError);
        }
        r := element.AddClasses(list.value);
      } else {
        r := Pass;
      }
    }

    /**
     * `withAttributes(list)`: a given list replaces `attributes`; then every
     * entry of the current attribute list is set on the element in order, a
     * later entry overriding an earlier one of the same name.
     */
    method WithAttributes(list: Option<seq<Attr>>) returns (r: Outcome)
      modifies this`attributes, element
      ensures attributes == if list.Some? then list else old(attributes)
      ensures r.Pass? <==> element != null || attributes.None? || |attributes.value| == 0
      ensures r.Fail? ==> r.fault == TypeError
      ensures element != null ==>
        && element.attrs == (if attributes.Some? then ApplyAttrs(old(element.attrs), attributes.value) else old(element.attrs))
        && element.classes == old(element.classes) && element.children == old(element.children)
    {
      if list.Some? {
        attributes := list;
      }
      if attributes.Some? {
        if element == null {
          if |attributes.value| > 0 {
            return Fail(TypeError);
          }
        } else {
          SetEachAttribute(attributes.value);
        }
      }
      r := Pass;
    }

    /** `withText(text)`: the element's text becomes `text`; `undefined` clears it. */
    method WithText(text: Option<string>) returns (r: Outcome)
      modifies element
      ensures r.Pass? <==> element != null
      ensures r.Fail? ==> r.fault == TypeError
      ensures element != null ==>
        && element.children == TextChildren(TextOf(text))
        && element.classes == old(element.classes) && element.attrs == old(element.attrs)
    {
      if element == null {
        return Fail(TypeError);
      }
      element.SetText(TextOf(text));
      r := Pass;
    }

    /** `withHTML(markup)`: the element's content becomes `markup`; `undefined` becomes the text "undefined". */
    method WithHtml(markup: Option<string>) returns (r: Outcome)
      modifies element
      ensures r.Pass? <==> element != null
      ensures r.Fail? ==> r.fault == TypeError
      ensures element != null ==>
        && element.children == (if Str(markup) == "" then [] else [Html(Str(markup))])
        && element.classes == old(element.classes) && element.attrs == old(element.attrs)
    {
      if element == null {
        return Fail(TypeError);
      }
      element.SetHtml(Str(markup));
      r := Pass;
    }

    /** `identify(id)`: a truthy id is stored and the brick returned; otherwise the current id is returned. */
    method Identify(id: Option<string>) returns (r: Identity)
      modifies this`brickID
      ensures Truthy(id) ==> brickID == id && r == Chained
      ensures !Truthy(id) ==> brickID == old(brickID) && r == Current(brickID)
    {
      if Truthy(id) {
        brickID := id;
        r := Chained;
      } else {
        r := Current(brickID);
      }
    }

    /**
     * Instance `setRoot(wrapper, subWrapper)`: this brick's root becomes the
     * wrapper and the shared stack starts with it; a given sub-wrapper
     * becomes the wrapper's single `over`, gets the wrapper as parent, and
     * takes the stack's second slot.
     */
    method SetRoot(wrapper: Brick, subWrapper: Brick?, reg: Registry)
      modifies this`root, wrapper`over, subWrapper, reg`stack
      ensures root == wrapper
      ensures reg.stack == RootStack(old(reg.stack), wrapper, subWrapper)
      ensures subWrapper == null ==> wrapper.over == old(wrapper.over)
      ensures subWrapper != null ==> wrapper.over == Single(subWrapper) && subWrapper.under == wrapper
      ensures subWrapper != null ==>
        && subWrapper.element == old(subWrapper.element) && subWrapper.brickID == old(subWrapper.brickID)
        && subWrapper.classes == old(subWrapper.classes) && subWrapper.attributes == old(subWrapper.attributes)
        && subWrapper.position == old(subWrapper.position) && subWrapper.nestingLevel == old(subWrapper.nestingLevel)
        && subWrapper.kind == old(subWrapper.kind) && subWrapper.category == old(subWrapper.category)
        && subWrapper.tag == old(subWrapper.tag)
        && (subWrapper != wrapper ==> subWrapper.over == old(subWrapper.over))
        && (subWrapper != this ==> subWrapper.root == old(subWrapper.root))
    {
      root := wrapper;
      reg.SetRoot(wrapper, subWrapper);
      if subWrapper != null {
        wrapper.over := Single(subWrapper);
        subWrapper.under := wrapper;
      }
    }
  }

  /** `stack[index] = x` on a JavaScript array, for an index no greater than its length. */
  function Put(stack: seq<Brick>, index: nat, x: Brick): (r: seq<Brick>)
    requires index <= |stack|
    ensures |r| == if index == |stack| then |stack| + 1 else |stack|
    ensures r[index] == x && forall i :: 0 <= i < |stack| && i != index ==> r[i] == stack[i]
  {
    if index == |stack| then stack + [x] else stack[index := x]
  }

  /** The stack after `setRoot(wrapper, subWrapper)`: slot 0 is the wrapper, slot 1 a given sub-wrapper. */
  function RootStack(stack: seq<Brick>, wrapper: Brick, subWrapper: Brick?): (r: seq<Brick>)
    ensures |r| >= 1 && r[0] == wrapper
    ensures subWrapper != null ==> |r| >= 2 && r[1] == subWrapper
    ensures |r| == if subWrapper != null && |stack| <= 1 then 2 else if |stack| == 0 then 1 else |stack|
    ensures forall i :: (if subWrapper == null then 1 else 2) <= i < |stack| ==> r[i] == stack[i]
  {
    var first := Put(stack, 0, wrapper);
    if subWrapper != null then Put(first, 1, subWrapper) else first
  }

  /** The first brick of `stack` whose id is `id`, as `Array.prototype.find` returns it. */
  function FirstWithId(stack: seq<Brick>, id: Option<string>): (r: Option<Brick>)
    reads stack
    ensures r.None? <==> forall i :: 0 <= i < |stack| ==> stack[i].brickID != id
    ensures r.Some? ==> exists i :: (0 <= i < |stack| && stack[i] == r.value && r.value.brickID == id
      && forall j :: 0 <= j < i ==> stack[j].brickID != id)
  {
    if |stack| == 0 then None
    else if stack[0].brickID == id then
      assert stack[0] == stack[0];
      Some(stack[0])
    else
      var rest := FirstWithId(stack[1..], id);
      assert forall i :: 1 <= i < |stack| ==> stack[i] == stack[1..][i - 1];
      rest
  }

  /** The static state of HtmlBricks: the template table and the brick stack. */
  class Registry {
    var template: Template
    var stack: seq<Brick>

    constructor ()
      ensures template == DefaultTemplate() && stack == []
    {
      template := DefaultTemplate();
      stack := [];
    }

    /** `retemplate(t)`: the whole table is replaced. */
    method Retemplate(t: Template)
      modifies this`template
      ensures template == t
    {
      template := t;
    }

    /** `redefineBlock` as intended: one field of one block entry is replaced. */
    method RedefineBlock(blockName: string, s: Setting) returns (r: Outcome)
      modifies this`template
      ensures r == Completion(Templates.RedefineBlock(old(template), blockName, s))
      ensures template == if r.Pass? then Templates.RedefineBlock(old(template), blockName, s).value else old(template)
    {
      var res := Templates.RedefineBlock(template, blockName, s);
      r := Completion(res);
      if res.Ok? {
        template := res.value;
      }
    }

    method RedefineProperty(name: string, s: Setting) returns (r: Outcome)
      modifies this`template
      ensures r == Completion(Templates.RedefineProperty(old(template), name, s))
      ensures template == if r.Pass? then Templates.RedefineProperty(old(template), name, s).value else old(template)
    {
      var res := Templates.RedefineProperty(template, name, s);
      r := Completion(res);
      if res.Ok? {
        template := res.value;
      }
    }

    method RedefineTag(name: string, s: Setting) returns (r: Outcome)
      modifies this`template
      ensures r == Completion(Templates.RedefineTag(old(template), name, s))
      ensures template == if r.Pass? then Templates.RedefineTag(old(template), name, s).value else old(template)
    {
      var res := Templates.RedefineTag(template, name, s);
      r := Completion(res);
      if res.Ok? {
        template := res.value;
      }
    }

    method SetDefaultClasses(category: string, name: string, classes: seq<string>) returns (r: Outcome)
      modifies this`template
      ensures r == Completion(Templates.SetDefaultClasses(old(template), category, name, classes))
      ensures template == if r.Pass? then Templates.SetDefaultClasses(old(template), category, name, classes).value else old(template)
    {
      var res := Templates.SetDefaultClasses(template, category, name, classes);
      r := Completion(res);
      if res.Ok? {
        template := res.value;
      }
    }

    method SetPropertyNestedClasses(name: string, parent: string, classes: seq<string>) returns (r: Outcome)
      modifies this`template
      ensures r == Completion(Templates.SetPropertyNestedClasses(old(template), name, parent, classes))
      ensures template == if r.Pass? then Templates.SetPropertyNestedClasses(old(template), name, parent, classes).value else old(template)
    {
      var res := Templates.SetPropertyNestedClasses(template, name, parent, classes);
      r := Completion(res);
      if res.Ok? {
        template := res.value;
      }
    }

    /** `find(id)`: the first brick on the stack with that id. */
    function Find(id: Option<string>): (r: Option<Brick>)
      reads this, stack
      ensures r.Some? ==> r.value in stack && r.value.brickID == id
      ensures r.None? <==> forall b :: b in stack ==> b.brickID != id
      ensures r.Some? ==> exists i :: (0 <= i < |stack| && stack[i] == r.value
        && forall j :: 0 <= j < i ==> stack[j].brickID != id)
    {
      FirstWithId(stack, id)
    }

    /** Static `setRoot(wrapper, subWrapper)`: stack slot 0 is the wrapper, slot 1 a given sub-wrapper. */
    method SetRoot(wrapper: Brick, subWrapper: Brick?)
      modifies this`stack
      ensures stack == RootStack(old(stack), wrapper, subWrapper)
    {
      stack := Put(stack, 0, wrapper);
      if subWrapper != null {
        stack := Put(stack, 1, subWrapper);
      }
    }
  }
}
