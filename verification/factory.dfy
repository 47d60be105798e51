/**
 * `EJSFactory` (index.js): the package entry point.  It holds the JSON text
 * of a document, the HTML of the last render and the builder it made, and
 * checks an editor configuration's tools against the block types it knows.
 * JSON.stringify is a parameter.
 */
module Factory {
  import opened Basics
  import opened Dom
  import opened Bricks
  import opened Builder

  /**
   * A JavaScript value handed to the constructor or `from`, by its `typeof`:
   * objects (including arrays) carry a payload for JSON.stringify; `null`
   * is apart because it is falsy although its `typeof` is "object".
   */
  datatype Input<O> =
    | Undefined
    | Null
    | Text(text: string)
    | Object(value: O)
    | Boolean(b: bool)
    | Number(nonZero: bool)
    | Function

  /** JavaScript truthiness of an input. */
  predicate TruthyInput<O>(data: Input<O>)
  {
    match data
    case Undefined => false
    case Null => false
    case Text(s) => s != ""
    case Object(_) => true
    case Boolean(b) => b
    case Number(nonZero) => nonZero
    case Function => true
  }

  /** The block types the factory knows, in their declared order (index.js:22). */
  const BlockTypes: seq<string> :=
    ["paragraph", "header", "list", "image", "embed", "code", "quote", "table", "hr", "warning", "linkTool", "media", "attaches"]

  /** The factory's list names exactly the builder's thirteen routines. */
  lemma BlockTypesAreRoutines()
    ensures (set t | t in BlockTypes) == RoutineNames
  {
  }

  /** An entry of `tools` as `Object.keys` sees it: a null or undefined entry throws. */
  datatype Tool = Missing | Keys(keys: seq<string>)

  /**
   * `editorconfig.tools`: absent or falsy, a truthy value without a numeric
   * `length` (a plain object keyed by tool name), or an array of entries.
   */
  datatype Tools = NoTools | Unindexed | Entries(entries: seq<Tool>)

  /** A tool whose first key is one of the known block types. */
  predicate Known(tool: Tool)
  {
    tool.Keys? && |tool.keys| > 0 && tool.keys[0] in BlockTypes
  }

  /** A value the presence tests compare: undefined, null or a string. */
  datatype Probe = Unset | NullProbe | Str(s: string)

  /** An optional field as such a value: unset is undefined. */
  function ProbeOf(field: Option<string>): Probe
  {
    if field.Some? then Str(field.value) else Unset
  }

  /**
   * The arrow fields `hasJSON` and `hasHTML` as written: three inequalities
   * joined by `||`, which no value makes all false (the fields they read,
   * `JSONstring` and `HTMLstring`, are never assigned in any case).
   */
  function ArrowCheck(v: Probe): (b: bool)
    ensures b
  {
    v != NullProbe || v != Unset || v != Str("")
  }

  /** The presence test the class methods state: neither null nor undefined. */
  function PresenceCheck(v: Probe): (b: bool)
    ensures b <==> v.Str?
  {
    v != NullProbe && v != Unset
  }

  class EjsFactory {
    var json: Option<string>
    var html: Option<string>
    var htmlBuilder: HtmlBuilder?

    /**
     * The corrected `hasJSON()`: the method declared at index.js:170-172.
     * As shipped it cannot be reached: the arrow field of the same name
     * (index.js:58) is an own property of every instance and shadows it.
     */
    function HasJson(): bool
      reads this
    {
      PresenceCheck(ProbeOf(json))
    }

    /**
     * The corrected `hasHTML()`: the method declared at index.js:179-181,
     * shadowed as shipped by the arrow field of the same name (index.js:65).
     */
    function HasHtml(): bool
      reads this
    {
      PresenceCheck(ProbeOf(html))
    }

    /**
     * `factory.hasJSON()` as shipped: the arrow field runs, and it tests
     * `JSONstring`, a property no code assigns, so what `JSON` holds plays
     * no part.
     */
    function ShippedHasJson(): bool
    {
      ArrowCheck(ProbeOf(None))
    }

    /** `factory.hasHTML()` as shipped: the arrow field testing the never-assigned `HTMLstring`. */
    function ShippedHasHtml(): bool
    {
      ArrowCheck(ProbeOf(None))
    }

    /** `new EJSFactory()` (or with a falsy argument): `JSON`, `HTML` and `HTMLBuilder` unset. */
    constructor ()
      ensures json == None && html == None && htmlBuilder == null
    {
      json := None;
      html := None;
      htmlBuilder := null;
    }

    /**
     * `new EJSFactory(data)`: a truthy string is kept as the JSON text and a
     * truthy object stringified, and a builder is made from the text; any
     * other truthy value throws `Error`, and a falsy one leaves the factory
     * unset.
     */
    static method Create<O>(data: Input<O>, stringify: O -> string) returns (r: Result<EjsFactory>)
      ensures !TruthyInput(data) ==> r.Ok? && r.value.json == None && r.value.html == None && r.value.htmlBuilder == null
      ensures TruthyInput(data) && (data.Boolean? || data.Number? || data.Function?) ==> r == Err(PlainError)
      ensures TruthyInput(data) && data.Text? ==> r.Ok? && r.value.json == Some(data.text)
      ensures TruthyInput(data) && data.Object? ==> r.Ok? && r.value.json == Some(stringify(data.value))
      ensures r.Ok? ==> fresh(r.value) && r.value.html == None
      ensures r.Ok? && TruthyInput(data) ==>
        && r.value.htmlBuilder != null && fresh(r.value.htmlBuilder)
        && r.value.htmlBuilder.rawData == (if r.value.json == Some("") then None else Some(JsonText(r.value.json.value)))
    {
      var f := new EjsFactory();
      if TruthyInput(data) {
        match data {
          case Text(s) =>
            f.json := Some(s);
          case Object(v) =>
            f.json := Some(stringify(v));
          case _ =>
            return Err(PlainError);
        }
        f.htmlBuilder := new HtmlBuilder(Some(JsonText(f.json.value)));
      }
      r := Ok(f);
    }

    /**
     * `from(data)`: a string is kept and an object (or null, which
     * stringifies to "null") stringified, a new builder is made from the
     * text, and the factory itself is returned; any other type throws
     * `TypeError` and changes nothing.
     */
    method From<O>(data: Input<O>, stringify: O -> string) returns (r: Result<EjsFactory>)
      modifies this
      ensures data.Text? ==> json == Some(data.text)
      ensures data.Object? ==> json == Some(stringify(data.value))
      ensures data.Null? ==> json == Some("null")
      ensures data.Text? || data.Object? || data.Null? ==>
        && r == Ok(this) && HasJson() && html == old(html) && htmlBuilder != null && fresh(htmlBuilder)
        && htmlBuilder.rawData == (if json == Some("") then None else Some(JsonText(json.value)))
      ensures !(data.Text? || data.Object? || data.Null?) ==>
        r == Err(TypeError) && json == old(json) && html == old(html) && htmlBuilder == old(htmlBuilder)
    {
      match data {
        case Text(s) =>
          json := Some(s);
        case Object(v) =>
          json := Some(stringify(v));
        case Null =>
          json := Some("null");
        case _ =>
          return Err(TypeError);
      }
      htmlBuilder := new HtmlBuilder(Some(JsonText(json.value)));
      r := Ok(this);
    }

    /**
     * `render()`: without JSON text it throws `Error`; otherwise it makes a
     * new builder from the text and builds with no target, which throws
     * before `HTML` is assigned: rendering never completes.
     */
    method Render(reg: Registry) returns (r: Result<Option<string>>)
      modifies this
      ensures r.Err? && html == old(html) && json == old(json)
      ensures json.None? ==> r == Err(PlainError) && htmlBuilder == old(htmlBuilder)
      ensures json.Some? ==> htmlBuilder != null && fresh(htmlBuilder)
    {
      if json.None? {
        return Err(PlainError);
      }
      htmlBuilder := new HtmlBuilder(Some(JsonText(json.value)));
      r := htmlBuilder.Build(null, false, reg);
    }

    /**
     * `reset()`: `HTML` and `JSON` become undefined; the builder stays.  The
     * corrected presence checks then give false, while the shipped ones
     * still give true.
     */
    method Reset()
      modifies this`html, this`json
      ensures html == None && json == None
      ensures !HasJson() && !HasHtml()
      ensures ShippedHasJson() && ShippedHasHtml()
    {
      html := None;
      json := None;
    }

    /**
     * `checkBlockTypes(editorconfig)`: true without tools; otherwise the
     * entries are read in order and the first one whose first key is not a
     * known block type gives false, unless a null entry throws first.
     */
    method CheckBlockTypes(config: Option<Tools>) returns (r: Result<bool>)
      ensures config.None? ==> r == Err(TypeError)
      ensures config.Some? && !config.value.Entries? ==> r == Ok(true)
      ensures config.Some? && config.value.Entries? ==>
        var tools := config.value.entries;
        && (r == Ok(true) <==> forall k :: 0 <= k < |tools| ==> Known(tools[k]))
        && (r == Ok(false) <==> exists k :: 0 <= k < |tools| && tools[k].Keys? && !Known(tools[k]) && forall j :: 0 <= j < k ==> Known(tools[j]))
        && (r == Err(TypeError) <==> exists k :: 0 <= k < |tools| && tools[k].Missing? && forall j :: 0 <= j < k ==> Known(tools[j]))
        && (r.Ok? || r == Err(TypeError))
    {
      if config.None? {
        return Err(TypeError);
      }
      if !config.value.Entries? {
        return Ok(true);
      }
      var tools := config.value.entries;
      var i := 0;
      while i < |tools|
        invariant 0 <= i <= |tools|
        invariant forall j :: 0 <= j < i ==> Known(tools[j])
      {
        if tools[i].Missing? {
          return Err(TypeError);
        }
        if !Known(tools[i]) {
          return Ok(false);
        }
        i := i + 1;
      }
      r := Ok(true);
    }
  }
}
