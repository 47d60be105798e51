/**
 * The template table of HtmlBricks (lib/ejs-html-bricks.js) and the lookups
 * the brick constructors perform on it.
 *
 * The table has three categories (`blocks`, `properties`, `tags`), each
 * mapping a name to an entry.  An entry's `tag`/`tags`, `classes` and
 * `attributes` fields are written in several shapes: a fixed value, an
 * object keyed by the parent brick's type, or an array.  A lookup that
 * reaches `undefined` is kept explicit here, because the code then either
 * uses `undefined` (an element named "undefined") or throws.
 */
module Templates {
  import opened Basics
  import opened Blocks
  import opened Dom

  /** A `tag` or `tags` field. */
  datatype TagField =
    | Unset                                // the field is not present
    | Name(name: string)                   // a string
    | ByParent(names: map<string, string>) // an object keyed by parent type
    | Number(n: int)                       // a number: `'ul' | 'ol'` evaluates to 0

  /**
   * A `classes` or `attributes` field: absent, an object keyed by parent
   * type, or an array used directly as the value.  No lookup reads an
   * array's own elements; keys assigned on an array later are kept in
   * `named`.
   */
  datatype Dim<T> =
    | Absent
    | Keyed(keys: map<string, T>)
    | Listed(items: T, named: map<string, T>)

  datatype Entry = Entry(
    tag: TagField,
    tags: TagField,
    classes: Dim<seq<string>>,
    attributes: Dim<seq<Attr>>,
    nestable: bool)

  datatype Template = Template(
    blocks: map<string, Entry>,
    properties: map<string, Entry>,
    tags: map<string, Entry>)

  /** What a brick constructor decides: its tag, class list and attribute list (`None` is undefined). */
  datatype Look = Look(tag: Option<string>, classes: Option<seq<string>>, attributes: Option<seq<Attr>>)

  /** The look of a brick nothing has been decided for yet. */
  const Blank := Look(None, None, None)

  /** `field[key]` on a tag field that is not undefined. */
  function TagAt(f: TagField, key: string): Option<string>
  {
    if f.ByParent? && key in f.names then Some(f.names[key]) else None
  }

  /** `field[key]` on a classes or attributes field that is not undefined. */
  function At<T>(d: Dim<T>, key: string): Option<T>
  {
    match d
    case Absent => None
    case Keyed(m) => if key in m then Some(m[key]) else None
    case Listed(_, m) => if key in m then Some(m[key]) else None
  }

  /** The text JavaScript makes of a tag value when it is used as an element name. */
  function TagText(f: TagField): Option<string>
  {
    match f
    case Unset => None
    case Name(s) => Some(s)
    case ByParent(_) => Some("[object Object]")
    case Number(n) => Some(Decimal(n))
  }

  /** `document.createElement(tag)` receives "undefined" for an undefined tag. */
  function NameOf(tag: Option<string>): string
  {
    if tag.Some? then tag.value else "undefined"
  }

  /** The key a child looks itself up under: the parent's type, "undefined" when unset. */
  function KeyOf(kind: Option<string>): string
  {
    if kind.Some? then kind.value else "undefined"
  }

  /** `templateElement.tag + level` for a header with a level of at least 1. */
  function HeaderTag(f: TagField, level: int): string
  {
    match f
    case Unset => "NaN"
    case Name(s) => s + Decimal(level)
    case ByParent(_) => "[object Object]" + Decimal(level)
    case Number(n) => Decimal(n + level)
  }

  predicate HasLevel(block: Block)
  {
    block.data.level.Some? && block.data.level.value >= 1
  }

  /** The list tag is chosen by `data.style` alone. */
  function ListTag(block: Block): string
  {
    if block.data.style == Some("ordered") then "ol" else "ul"
  }

  /**
   * The tag `fromBlock` chooses from a block entry; `parent` is the key of
   * the parent brick, `None` when the brick has no parent.
   */
  function BlockTag(e: Entry, block: Block, parent: Option<string>): Result<Option<string>>
  {
    if block.kind == "header" && HasLevel(block) then Ok(Some(HeaderTag(e.tag, block.data.level.value)))
    else if block.kind == "list" then Ok(Some(ListTag(block)))
    else if e.nestable then
      if parent.None? || e.tag.Unset? then Err(TypeError)
      else if Truthy(TagAt(e.tag, parent.value)) then Ok(TagAt(e.tag, parent.value))
      else Ok(TagAt(e.tag, "default"))
    else Ok(TagText(e.tag))
  }

  /** The class list a validated token list is added with, or the fault `classList.add` raises. */
  function Tokens(classes: Option<seq<string>>): Result<seq<string>>
  {
    if classes.None? then Err(TypeError)
    else if TokenCheck(classes.value).Fail? then Err(TokenCheck(classes.value).fault)
    else Ok(classes.value)
  }

  /**
   * `fromBlock`: the look of a brick made from `block`.  Without an entry
   * for the block's type the previous look is kept, and the element is
   * created from the previous tag.  With one, the tag is `'h'`-style
   * `tag + level` for a header of level at least 1, `ol`/`ul` for a list,
   * `tag[parent type]` (when truthy, else `tag['default']`) for a nestable
   * entry and the fixed `tag` otherwise; the classes are the entry's
   * `'default'` classes; the attributes are left as they were.  It fails
   * exactly when a nestable entry has no parent or no `tag` field, when the
   * tag is not a valid element name, or when the default class list is
   * missing or holds an invalid token.
   */
  function BlockLook(t: Template, block: Block, parent: Option<string>, prior: Look): (r: Result<Look>)
    ensures block.kind !in t.blocks ==> (r.Ok? <==> ValidElementName(NameOf(prior.tag))) && (r.Ok? ==> r.value == prior)
    ensures block.kind in t.blocks ==>
      var e := t.blocks[block.kind];
      var header := block.kind == "header" && HasLevel(block);
      var list := !header && block.kind == "list";
      var tag :=
        if header then Some(HeaderTag(e.tag, block.data.level.value))
        else if list then Some(ListTag(block))
        else if !e.nestable then TagText(e.tag)
        else if parent.Some? && Truthy(TagAt(e.tag, parent.value)) then TagAt(e.tag, parent.value)
        else TagAt(e.tag, "default");
      var classes := At(e.classes, "default");
      && (r.Ok? <==>
           && (header || list || !e.nestable || (parent.Some? && !e.tag.Unset?))
           && ValidElementName(NameOf(tag))
           && classes.Some? && TokenCheck(classes.value).Pass?)
      && (r.Ok? ==> r.value == Look(tag, classes, prior.attributes))
  {
    if block.kind !in t.blocks then
      if ValidElementName(NameOf(prior.tag)) then Ok(prior) else Err(InvalidCharacterError)
    else
      var e := t.blocks[block.kind];
      match BlockTag(e, block, parent)
      case Err(f) => Err(f)
      case Ok(tag) =>
        if !ValidElementName(NameOf(tag)) then Err(InvalidCharacterError)
        else if e.classes.Absent? then Err(TypeError)
        else
          match Tokens(At(e.classes, "default"))
          case Err(f) => Err(f)
          case Ok(cs) => Ok(Look(tag, Some(cs), prior.attributes))
  }

  /**
   * A header under an entry with the fixed tag `'h'` and an empty default
   * class list: `'h'` followed by the level's digits when the level is at
   * least 1, and `'h'` alone otherwise.
   */
  lemma HeaderLook(t: Template, block: Block, parent: Option<string>, prior: Look)
    requires block.kind == "header" && "header" in t.blocks
    requires t.blocks["header"].tag == Name("h") && !t.blocks["header"].nestable
    requires !t.blocks["header"].classes.Absent? && At(t.blocks["header"].classes, "default") == Some([])
    ensures HasLevel(block) ==>
      BlockLook(t, block, parent, prior) == Ok(Look(Some("h" + Decimal(block.data.level.value)), Some([]), prior.attributes))
    ensures !HasLevel(block) ==> BlockLook(t, block, parent, prior) == Ok(Look(Some("h"), Some([]), prior.attributes))
  {
    assert TokenCheck([]).Pass?;
    if HasLevel(block) {
      var digits := Decimal(block.data.level.value);
      var name := "h" + digits;
      assert forall i :: 1 <= i < |name| ==> name[i] == digits[i - 1];
      assert ValidElementName(name);
    } else {
      assert ValidElementName("h");
    }
  }

  /**
   * A list under an entry with an empty default class list: the tag is
   * `ol` exactly when the style is "ordered" and `ul` otherwise, whatever
   * the entry's own tag.
   */
  lemma ListLook(t: Template, block: Block, parent: Option<string>, prior: Look)
    requires block.kind == "list" && "list" in t.blocks
    requires !t.blocks["list"].classes.Absent? && At(t.blocks["list"].classes, "default") == Some([])
    ensures BlockLook(t, block, parent, prior) == Ok(Look(Some(ListTag(block)), Some([]), prior.attributes))
    ensures ListTag(block) == "ol" <==> block.data.style == Some("ordered")
  {
    assert TokenCheck([]).Pass?;
    assert ValidElementName("ol") && ValidElementName("ul");
  }

  /** The tags entry `name` exists and has a `'default'` class list. */
  predicate HasDefaultClasses(t: Template, name: string)
  {
    name in t.tags && At(t.tags[name].classes, "default").Some?
  }

  /** `fromTag(name)` succeeds: a valid element name whose default classes exist and are valid tokens. */
  predicate TagResolves(t: Template, name: string)
  {
    ValidElementName(name) && HasDefaultClasses(t, name) && TokenCheck(At(t.tags[name].classes, "default").value).Pass?
  }

  /**
   * `fromTag`: the tag is the name itself; the classes are the `'default'`
   * classes of the tags entry of that name.  It succeeds exactly when the
   * name is a valid element name with a tags entry whose default class list
   * exists and holds valid tokens.
   */
  function TagLook(t: Template, name: string, prior: Look): (r: Result<Look>)
    ensures r.Ok? <==> TagResolves(t, name)
    ensures !ValidElementName(name) ==> r == Err(InvalidCharacterError)
    ensures ValidElementName(name) && !HasDefaultClasses(t, name) ==> r == Err(TypeError)
    ensures r.Ok? ==> r.value.tag == Some(name) && r.value.attributes == prior.attributes
    ensures r.Ok? ==> name in t.tags && r.value.classes == At(t.tags[name].classes, "default")
  {
    if !ValidElementName(name) then Err(InvalidCharacterError)
    else if name !in t.tags || t.tags[name].classes.Absent? then Err(TypeError)
    else
      match Tokens(At(t.tags[name].classes, "default"))
      case Err(f) => Err(f)
      case Ok(cs) => Ok(Look(Some(name), Some(cs), prior.attributes))
  }

  /** The tag of a property under `key`: `tags[key]` when truthy, else `tags['default']`. */
  function PropertyTag(e: Entry, key: string): Option<string>
  {
    if Truthy(TagAt(e.tags, key)) then TagAt(e.tags, key) else TagAt(e.tags, "default")
  }

  /** Classes and attributes of a property under `key`: `field[key]` when present, else `field['default']`. */
  function Fallback<T>(d: Dim<T>, key: string): Option<T>
  {
    if At(d, key).Some? then At(d, key) else At(d, "default")
  }

  /**
   * `fromProperty`: tag, classes and attributes are each resolved against
   * the parent's key with their own `'default'` fallback.  A missing parent,
   * entry, `tags`, `classes` or `attributes` field, or a missing class or
   * attribute list, throws.
   */
  function PropertyLook(t: Template, name: string, parent: Option<string>): (r: Result<Look>)
    ensures r.Ok? ==> r.value.classes.Some? && r.value.attributes.Some?
  {
    if parent.None? || name !in t.properties then Err(TypeError)
    else
      var e := t.properties[name];
      var key := parent.value;
      if e.tags.Unset? then Err(TypeError)
      else if !ValidElementName(NameOf(PropertyTag(e, key))) then Err(InvalidCharacterError)
      else if e.classes.Absent? || e.attributes.Absent? then Err(TypeError)
      else if Fallback(e.attributes, key).None? then Err(TypeError)
      else
        match Tokens(Fallback(e.classes, key))
        case Err(f) => Err(f)
        case Ok(cs) => Ok(Look(PropertyTag(e, key), Some(cs), Fallback(e.attributes, key)))
  }

  /**
   * A property resolves exactly when it has a parent and an entry whose
   * `tags`, `classes` and `attributes` fields exist, whose resolved tag is a
   * valid element name, and whose resolved class and attribute lists exist
   * with valid class tokens; the look is then the three independent
   * fallback lookups.
   */
  lemma PropertyLookResolves(t: Template, name: string, parent: Option<string>)
    ensures PropertyLook(t, name, parent).Ok? <==>
      && parent.Some? && name in t.properties
      && var e := t.properties[name];
      && !e.tags.Unset? && ValidElementName(NameOf(PropertyTag(e, parent.value)))
      && Fallback(e.classes, parent.value).Some? && Fallback(e.attributes, parent.value).Some?
      && TokenCheck(Fallback(e.classes, parent.value).value).Pass?
    ensures PropertyLook(t, name, parent).Ok? ==> var e := t.properties[name];
      PropertyLook(t, name, parent).value ==
        Look(PropertyTag(e, parent.value), Fallback(e.classes, parent.value), Fallback(e.attributes, parent.value))
  {
  }

  // ---------------------------------------------------------------------
  // Changing the table (the static redefine*/set* helpers)

  /** One field of an entry and the value assigned to it; `Unread` is a field no lookup reads. */
  datatype Setting =
    | SetTag(tag: TagField)
    | SetTags(tags: TagField)
    | SetClasses(classes: Dim<seq<string>>)
    | SetAttributes(attributes: Dim<seq<Attr>>)
    | SetNestable(nestable: bool)
    | Unread(field: string)

  function Apply(e: Entry, s: Setting): Entry
  {
    match s
    case SetTag(f) => e.(tag := f)
    case SetTags(f) => e.(tags := f)
    case SetClasses(d) => e.(classes := d)
    case SetAttributes(d) => e.(attributes := d)
    case SetNestable(b) => e.(nestable := b)
    case Unread(_) => e
  }

  /** `template[category]`, for the three category names. */
  function Table(t: Template, category: string): Option<map<string, Entry>>
  {
    if category == "blocks" then Some(t.blocks)
    else if category == "properties" then Some(t.properties)
    else if category == "tags" then Some(t.tags)
    else None
  }

  function WithTable(t: Template, category: string, m: map<string, Entry>): Template
    requires Table(t, category).Some?
  {
    if category == "blocks" then t.(blocks := m)
    else if category == "properties" then t.(properties := m)
    else t.(tags := m)
  }

  /** `field[key] = value` on a classes field that is not undefined. */
  function SetKey<T>(d: Dim<T>, key: string, value: T): (r: Dim<T>)
    requires !d.Absent?
    ensures At(r, key) == Some(value)
    ensures forall k :: k != key ==> At(r, k) == At(d, k)
  {
    match d
    case Keyed(m) => Keyed(m[key := value])
    case Listed(items, m) => Listed(items, m[key := value])
  }

  /**
   * `redefineBlock` as written: `template[blockName][attributeName] = value`.
   * It indexes the template by the block name, so it only succeeds when the
   * "block name" is a category name, and then replaces the whole entry named
   * `attributeName` in that category.
   */
  function RedefineBlockAsWritten(t: Template, blockName: string, attributeName: string, value: Entry): (r: Result<Template>)
    ensures r.Ok? <==> blockName in {"blocks", "properties", "tags"}
    ensures r.Ok? ==> Table(r.value, blockName) == Some(Table(t, blockName).value[attributeName := value])
  {
    match Table(t, blockName)
    case None => Err(TypeError)
    case Some(m) => Ok(WithTable(t, blockName, m[attributeName := value]))
  }

  /** `redefineBlock` as intended: `template.blocks[blockName][attributeName] = value`; every other entry stays. */
  function RedefineBlock(t: Template, blockName: string, s: Setting): (r: Result<Template>)
    ensures r.Ok? <==> blockName in t.blocks
    ensures r.Ok? ==>
      && r.value.properties == t.properties && r.value.tags == t.tags
      && r.value.blocks.Keys == t.blocks.Keys && r.value.blocks[blockName] == Apply(t.blocks[blockName], s)
      && forall n :: n in t.blocks && n != blockName ==> r.value.blocks[n] == t.blocks[n]
  {
    if blockName in t.blocks then Ok(t.(blocks := t.blocks[blockName := Apply(t.blocks[blockName], s)]))
    else Err(TypeError)
  }

  /** `redefineProperty`: `template.properties[name][attribute] = value`; every other entry stays. */
  function RedefineProperty(t: Template, name: string, s: Setting): (r: Result<Template>)
    ensures r.Ok? <==> name in t.properties
    ensures r.Ok? ==>
      && r.value.blocks == t.blocks && r.value.tags == t.tags
      && r.value.properties.Keys == t.properties.Keys && r.value.properties[name] == Apply(t.properties[name], s)
      && forall n :: n in t.properties && n != name ==> r.value.properties[n] == t.properties[n]
  {
    if name in t.properties then Ok(t.(properties := t.properties[name := Apply(t.properties[name], s)]))
    else Err(TypeError)
  }

  /** Redefining one property leaves the lookups of every other property, block and tag as they were. */
  lemma RedefinePropertyKeepsOthers(t: Template, name: string, s: Setting, other: string, parent: Option<string>, block: Block, prior: Look)
    requires RedefineProperty(t, name, s).Ok? && other != name
    ensures var t' := RedefineProperty(t, name, s).value;
      && PropertyLook(t', other, parent) == PropertyLook(t, other, parent)
      && BlockLook(t', block, parent, prior) == BlockLook(t, block, parent, prior)
      && TagLook(t', other, prior) == TagLook(t, other, prior)
  {
    var t' := RedefineProperty(t, name, s).value;
    assert other in t'.properties <==> other in t.properties;
    if other in t.properties {
      assert t'.properties[other] == t.properties[other];
    }
  }

  /** `redefineTag`: `template.tags[name][attribute] = value`; every other entry stays. */
  function RedefineTag(t: Template, name: string, s: Setting): (r: Result<Template>)
    ensures r.Ok? <==> name in t.tags
    ensures r.Ok? ==>
      && r.value.blocks == t.blocks && r.value.properties == t.properties
      && r.value.tags.Keys == t.tags.Keys && r.value.tags[name] == Apply(t.tags[name], s)
      && forall n :: n in t.tags && n != name ==> r.value.tags[n] == t.tags[n]
  {
    if name in t.tags then Ok(t.(tags := t.tags[name := Apply(t.tags[name], s)]))
    else Err(TypeError)
  }

  /**
   * `setDefaultClasses`: `template[category][name].classes['default'] = classes`.
   * It throws for an unknown category or name and for an entry without classes.
   */
  function SetDefaultClasses(t: Template, category: string, name: string, classes: seq<string>): (r: Result<Template>)
    ensures r.Ok? <==>
      Table(t, category).Some? && name in Table(t, category).value && !Table(t, category).value[name].classes.Absent?
    ensures r.Ok? ==>
      var e := Table(t, category).value[name];
      && Table(r.value, category) == Some(Table(t, category).value[name := e.(classes := SetKey(e.classes, "default", classes))])
      && forall c :: c != category ==> Table(r.value, c) == Table(t, c)
  {
    match Table(t, category)
    case None => Err(TypeError)
    case Some(m) =>
      if name !in m || m[name].classes.Absent? then Err(TypeError)
      else Ok(WithTable(t, category, m[name := m[name].(classes := SetKey(m[name].classes, "default", classes))]))
  }

  /** `setPropertyNestedClasses`: `template.properties[name].classes[parent] = classes`. */
  function SetPropertyNestedClasses(t: Template, name: string, parent: string, classes: seq<string>): (r: Result<Template>)
    ensures r.Ok? <==> name in t.properties && !t.properties[name].classes.Absent?
    ensures r.Ok? ==>
      && r.value.blocks == t.blocks && r.value.tags == t.tags && r.value.properties.Keys == t.properties.Keys
      && forall n :: n in t.properties && n != name ==> r.value.properties[n] == t.properties[n]
  {
    if name !in t.properties || t.properties[name].classes.Absent? then Err(TypeError)
    else
      var e := t.properties[name];
      Ok(t.(properties := t.properties[name := e.(classes := SetKey(e.classes, parent, classes))]))
  }

  /**
   * After `setPropertyNestedClasses(name, parent, classes)` the property
   * resolves its classes to `classes` under `parent`, and (unless `parent`
   * is "default" itself) under every other key exactly as before; its tag
   * and attributes are untouched.
   */
  lemma NestedClassesTakeEffect(t: Template, name: string, parent: string, classes: seq<string>, key: string)
    requires SetPropertyNestedClasses(t, name, parent, classes).Ok?
    ensures var e, e' := t.properties[name], SetPropertyNestedClasses(t, name, parent, classes).value.properties[name];
      && Fallback(e'.classes, parent) == Some(classes)
      && (key != parent && parent != "default" ==> Fallback(e'.classes, key) == Fallback(e.classes, key))
      && PropertyTag(e', key) == PropertyTag(e, key) && e'.attributes == e.attributes
  {
    var e, e' := t.properties[name], SetPropertyNestedClasses(t, name, parent, classes).value.properties[name];
    assert e'.classes == SetKey(e.classes, parent, classes);
    if key != parent && parent != "default" {
      assert At(e'.classes, key) == At(e.classes, key);
      assert At(e'.classes, "default") == At(e.classes, "default");
    }
  }
}
