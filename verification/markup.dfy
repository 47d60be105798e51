/**
 * `EJSHtmlBuilder.JSONtoHTMLstring` (lib/ejs-html-builder.js:407-523): the
 * pure string renderer.  Text that is not a JSON object or array comes back
 * unchanged; otherwise the fixed opening text, one fragment per block in
 * input order, and the closing `</div></div>`.  JSON.parse is a parameter;
 * its result is reduced to the parsed object's `blocks` array.
 */
module Markup {
  import opened Basics
  import opened Blocks
  import opened Streamline

  /** The opening text of the document (with a space between the two `div`s). */
  const Prefix := "<div class=\"codex-editor\"> <div class=\"codex-editor__redactor\" style=\"padding-bottom:300px;\">"

  /** The closing text of the document. */
  const Suffix := "</div></div>"

  /** A line break followed by `n` spaces: the indentation inside the multi-line fragments. */
  function Break(n: nat): string
  {
    "\n" + seq(n, _ => ' ')
  }

  /** Concatenation regroups freely. */
  lemma Regroup<T>(a: seq<T>, b: seq<T>, c: seq<T>)
    ensures a + b + c == a + (b + c)
  {
  }

  /** `${level}` of a header: the decimal number, or "undefined". */
  function LevelText(level: Option<int>): string
  {
    if level.Some? then Decimal(level.value) else "undefined"
  }

  /** `style == "ordered" ? 'ol' : 'ul'` */
  function ListName(style: Option<string>): string
  {
    if style == Some("ordered") then "ol" else "ul"
  }

  /** `items.forEach(item => markup += open + item + close)`: every item wrapped, in order. */
  function Each(items: seq<string>, open: string, close: string): string
  {
    if |items| == 0 then "" else Each(items[..|items| - 1], open, close) + open + Last(items) + close
  }

  /** Wrapping a concatenation is the concatenation of the wrappings. */
  lemma {:induction false} EachAppend(a: seq<string>, b: seq<string>, open: string, close: string)
    ensures Each(a + b, open, close) == Each(a, open, close) + Each(b, open, close)
    decreases |b|
  {
    if |b| == 0 {
      assert a + b == a;
    } else {
      var c := b[..|b| - 1];
      assert (a + b)[..|a + b| - 1] == a + c;
      assert Last(a + b) == Last(b);
      EachAppend(a, c, open, close);
    }
  }

  /** The first item comes first: an independent, head-first reading of `Each`. */
  lemma EachCons(x: string, rest: seq<string>, open: string, close: string)
    ensures Each([x] + rest, open, close) == open + x + close + Each(rest, open, close)
  {
    EachAppend([x], rest, open, close);
    assert Each([x], open, close) == Each([], open, close) + open + x + close;
  }

  /** One table row: row 0 as the `thead` of `th` cells, any other as a `tr` of `td` cells. */
  function RowMarkup(row: seq<string>, head: bool): string
  {
    if head then "<thead>" + Each(row, "<th>", "</th>") + "</thead>"
    else "<tr>" + Each(row, "<td>", "</td>") + "</tr>"
  }

  /** `content.forEach((row, index) => ...)`: the rows in order, the one at index 0 as the head. */
  function Rows(content: seq<seq<string>>): string
  {
    if |content| == 0 then "" else Rows(content[..|content| - 1]) + RowMarkup(Last(content), |content| == 1)
  }

  /** Rows after the first, read head first: one `tr` each. */
  function BodyRows(rows: seq<seq<string>>): string
  {
    if |rows| == 0 then "" else RowMarkup(rows[0], false) + BodyRows(rows[1..])
  }

  lemma {:induction false} BodyRowsSnoc(rows: seq<seq<string>>, row: seq<string>)
    ensures BodyRows(rows + [row]) == BodyRows(rows) + RowMarkup(row, false)
    decreases |rows|
  {
    if |rows| == 0 {
      assert [] + [row] == [row];
      assert [row][1..] == [];
    } else {
      var first, rest, tail := RowMarkup(rows[0], false), BodyRows(rows[1..]), RowMarkup(row, false);
      assert BodyRows(rows + [row]) == first + (rest + tail) by {
        assert (rows + [row])[0] == rows[0];
        assert (rows + [row])[1..] == rows[1..] + [row];
        BodyRowsSnoc(rows[1..], row);
      }
      Regroup(first, rest, tail);
    }
  }

  /** A non-empty table is the head built from row 0 followed by one `tr` per later row, in order. */
  lemma {:induction false} TableLayout(content: seq<seq<string>>)
    requires |content| > 0
    ensures Rows(content) == RowMarkup(content[0], true) + BodyRows(content[1..])
    decreases |content|
  {
    if |content| == 1 {
      assert content[..0] == [];
      assert content[1..] == [];
    } else {
      var init := content[..|content| - 1];
      var last := Last(content);
      var head, middle, tail := RowMarkup(content[0], true), BodyRows(init[1..]), RowMarkup(last, false);
      assert Rows(content) == head + middle + tail by {
        assert Rows(content) == Rows(init) + tail;
        TableLayout(init);
        assert init[0] == content[0];
      }
      assert BodyRows(content[1..]) == middle + tail by {
        assert content[1..] == init[1..] + [last];
        BodyRowsSnoc(init[1..], last);
      }
      Regroup(head, middle, tail);
    }
  }

  /** The linkTool fragment once link, title, description and image block are resolved. */
  function LinkCard(link: string, title: string, description: string, image: string): string
  {
    "<div class=\"link-tool\">" + Break(28)
    + "<a class=\"link-tool__content link-tool__content--rendered\" target=\"_blank\" rel=\"nofollow noindex noreferrer\" href=\""
    + link + "\">" + image
    + "<div class=\"link-tool__title\">" + title + "</div>" + Break(28)
    + "<p class=\"link-tool__description\">" + description + "</p>" + Break(28)
    + "<span class=\"link-tool__anchor\">" + link + "</span></a>" + Break(26)
    + "</div>"
  }

  /** The attaches fragment for a file URL and a file name. */
  function FileCard(url: string, name: string): string
  {
    "<a class=\"file-link\" href=\"" + url + "\" target=\"_blank\" rel=\"nofollow noindex noreferrer\">" + Break(22)
    + "<div class=\"file-block\">" + Break(24) + Break(24) + Break(24)
    + "<span class=\"fiv-cla fiv-icon-ppt fiv-size-lg\"></span>&nbsp;" + Break(24)
    + "<span class=\"file-name\">" + name + "</span>" + Break(24) + Break(22)
    + "</div></a>"
  }

  /**
   * linkTool: the link gets a protocol (reading `indexOf` of an undefined
   * link throws), title and description fall back when falsy, and the image
   * block appears only for a truthy `meta.image.url`.
   */
  function LinkFragment(d: Data): Result<string>
  {
    if d.link.None? || d.meta.None? then Err(TypeError)
    else
      var meta := d.meta.value;
      var link := SetProtocol(d.link.value);
      var title := if Truthy(meta.title) then meta.title.value else "No Title";
      var description := if Truthy(meta.description) then meta.description.value else "No Description";
      var image :=
        if meta.image.Some? && Truthy(meta.image.value.url) then
          "<div class=\"link-tool__image\"><img src=\"" + meta.image.value.url.value + "\" alt=\"" + title + "\" /></div>"
        else "";
      Ok(LinkCard(link, title, description, image))
  }

  /** The placeholder for a block type the renderer does not know. */
  function Unknown(kind: string): string
  {
    "<p>The block " + kind + " could not be created.</p>"
  }

  /**
   * The fragment of one block, with the list and media fragments built by
   * appending (`+=`) to their opening tag.
   */
  function Fragment(block: Block): Result<string>
  {
    var d := block.data;
    var k := block.kind;
    if k == "paragraph" then Ok("<p>" + Str(d.text) + "</p>")
    else if k == "header" then Ok("<h" + LevelText(d.level) + ">" + Str(d.text) + "</h" + LevelText(d.level) + ">")
    else if k == "list" then
      if d.items.None? then Err(TypeError)
      else Ok("<" + ListName(d.style) + ">" + Each(d.items.value, "<li>", "</li>") + "</" + ListName(d.style) + ">")
    else if k == "image" then
      if d.file.None? then Err(TypeError)
      else Ok("<img src=\"" + Str(d.file.value.url) + "\" alt=\"" + Str(d.alt) + "\" />"
              + "<span class=\"editor-image-caption\">" + Str(d.caption) + "</span>")
    else if k == "embed" then
      Ok("<iframe src=\"" + Str(d.url) + "\" width=\"" + Str(d.width) + "\" height=\"" + Str(d.height)
         + "\" frameborder=\"0\" allowfullscreen></iframe>")
    else if k == "quote" then
      Ok("<blockquote class=\"blockquote\">\"" + Str(d.text) + "\"</blockquote>"
         + "<span class=\"blockquote-caption\">" + Str(d.caption) + "</span>")
    else if k == "code" then Ok("<pre><code>" + Str(d.code) + "</code></pre>")
    else if k == "table" then
      if d.content.None? then Err(TypeError) else Ok("<table>" + Rows(d.content.value) + "</table>")
    else if k == "hr" then Ok("<hr>")
    else if k == "warning" then
      Ok("<div class=\"warning-title\">" + Str(d.title) + "</div>" + "<div class=\"warning-message\">" + Str(d.message) + "</div>")
    else if k == "linkTool" then LinkFragment(d)
    else if k == "media" then
      if d.items.None? then Err(TypeError)
      else Ok("<div class=\"media\">" + Each(d.items.value, "<div class=\"media-body\">", "</div>") + "</div>")
    else if k == "attaches" then
      if d.file.None? then Err(TypeError) else Ok(FileCard(Str(d.file.value.url), Str(d.title)))
    else Ok(Unknown(k))
  }

  /** The type names the renderer has a case for. */
  const KnownTypes: set<string> :=
    {"paragraph", "header", "list", "image", "embed", "quote", "code", "table", "hr", "warning", "linkTool", "media", "attaches"}

  /**
   * A fragment throws exactly when a field it dereferences is missing:
   * `items` of a list or media, `file` of an image or attaches, `content`
   * of a table, `link` or `meta` of a linkTool; every other block renders.
   */
  lemma FragmentFails(block: Block)
    ensures Fragment(block).Err? <==>
      || (block.kind in {"list", "media"} && block.data.items.None?)
      || (block.kind in {"image", "attaches"} && block.data.file.None?)
      || (block.kind == "table" && block.data.content.None?)
      || (block.kind == "linkTool" && (block.data.link.None? || block.data.meta.None?))
    ensures Fragment(block).Err? ==> Fragment(block).fault == TypeError
  {
  }

  /** A block of a type the renderer has no case for renders as the placeholder naming that type. */
  lemma UnknownPlaceholder(block: Block)
    requires block.kind !in KnownTypes
    ensures Fragment(block) == Ok(Unknown(block.kind))
  {
  }

  /** A list fragment is the list tag chosen by `style` around one `li` per item, in order. */
  lemma ListFragment(block: Block, x: string, rest: seq<string>)
    requires block.kind == "list" && block.data.items == Some([x] + rest)
    ensures Fragment(block) == Ok("<" + ListName(block.data.style) + ">" + "<li>" + x + "</li>"
                                  + Each(rest, "<li>", "</li>") + "</" + ListName(block.data.style) + ">")
    ensures ListName(block.data.style) == "ol" <==> block.data.style == Some("ordered")
  {
    var open := "<" + ListName(block.data.style) + ">";
    var rest' := Each(rest, "<li>", "</li>");
    EachCons(x, rest, "<li>", "</li>");
    Regroup(open, "<li>", x);
    Regroup(open, "<li>" + x, "</li>");
    Regroup(open, "<li>" + x + "</li>", rest');
  }

  /** The list and media fragments as written: `markup = ` replaces everything built before the closing tag. */
  function FragmentAsWritten(block: Block): (r: Result<string>)
    ensures block.kind !in {"list", "media"} ==> r == Fragment(block)
    ensures block.kind in {"list", "media"} ==> r.Err? == Fragment(block).Err?
  {
    if block.kind == "list" then
      if block.data.items.None? then Err(TypeError) else Ok("</" + ListName(block.data.style) + ">")
    else if block.kind == "media" then
      if block.data.items.None? then Err(TypeError) else Ok("</div>")
    else Fragment(block)
  }

  /** A data object with no fields. */
  const NoData := Data(None, None, None, None, None, None, None, None, None, None, None, None, None, None, None, None)

  /** An unordered list of one item loses the item and its opening tag. */
  lemma ListOverwritten()
    ensures FragmentAsWritten(Block(None, "list", NoData.(items := Some(["x"])))) == Ok("</ul>")
    ensures Fragment(Block(None, "list", NoData.(items := Some(["x"])))) == Ok("<ul><li>x</li></ul>")
  {
    var list := Block(None, "list", NoData.(items := Some(["x"])));
    assert ListName(list.data.style) == "ul";
    assert Each(["x"], "<li>", "</li>") == "<li>x</li>" by {
      assert ["x"][..0] == [];
    }
    assert "<" + "ul" + ">" + "<li>x</li>" + "</" + "ul" + ">" == "<ul><li>x</li></ul>";
    assert "</" + "ul" + ">" == "</ul>";
  }

  /** A media block of one item loses the item and its opening tag. */
  lemma MediaOverwritten()
    ensures FragmentAsWritten(Block(None, "media", NoData.(items := Some(["x"])))) == Ok("</div>")
    ensures Fragment(Block(None, "media", NoData.(items := Some(["x"])))) == Ok("<div class=\"media\">" + "<div class=\"media-body\">x</div>" + "</div>")
  {
    assert Each(["x"], "<div class=\"media-body\">", "</div>") == "<div class=\"media-body\">x</div>" by {
      assert ["x"][..0] == [];
    }
  }

  /** The fragments `render` gives for `blocks`, concatenated in order, or the fault of the first block that throws. */
  function Body(blocks: seq<Block>, render: Block -> Result<string>): Result<string>
  {
    if |blocks| == 0 then Ok("")
    else match Body(blocks[..|blocks| - 1], render)
      case Err(f) => Err(f)
      case Ok(s) =>
        match render(Last(blocks))
        case Err(f) => Err(f)
        case Ok(m) => Ok(s + m)
  }

  /** The body fails exactly when some block's fragment fails. */
  lemma {:induction false} BodyFails(blocks: seq<Block>, render: Block -> Result<string>)
    ensures Body(blocks, render).Err? <==> exists k :: 0 <= k < |blocks| && render(blocks[k]).Err?
    decreases |blocks|
  {
    if |blocks| > 0 {
      var init := blocks[..|blocks| - 1];
      BodyFails(init, render);
      if exists k :: 0 <= k < |init| && render(init[k]).Err? {
        var k :| 0 <= k < |init| && render(init[k]).Err?;
        assert blocks[k] == init[k];
      }
      if exists k :: 0 <= k < |blocks| && render(blocks[k]).Err? {
        var k :| 0 <= k < |blocks| && render(blocks[k]).Err?;
        if k < |init| {
          assert init[k] == blocks[k];
        }
      }
    }
  }

  /** Rendering two runs of blocks one after the other renders their concatenation. */
  lemma {:induction false} BodyAppend(a: seq<Block>, b: seq<Block>, render: Block -> Result<string>)
    ensures Body(a, render).Err? ==> Body(a + b, render) == Body(a, render)
    ensures Body(a, render).Ok? && Body(b, render).Ok? ==> Body(a + b, render) == Ok(Body(a, render).value + Body(b, render).value)
    ensures Body(a, render).Ok? && Body(b, render).Err? ==> Body(a + b, render) == Body(b, render)
    decreases |b|
  {
    if |b| == 0 {
      assert a + b == a;
      assert Body(b, render) == Ok("");
      if Body(a, render).Ok? {
        assert Body(a, render).value + "" == Body(a, render).value;
      }
    } else {
      var c := b[..|b| - 1];
      assert (a + b)[..|a + b| - 1] == a + c;
      assert Last(a + b) == Last(b);
      BodyAppend(a, c, render);
      if Body(a, render).Ok? && Body(b, render).Ok? {
        assert Body(c, render).Ok? && render(Last(b)).Ok?;
        assert Body(b, render).value == Body(c, render).value + render(Last(b)).value;
        var x, y, z := Body(a, render).value, Body(c, render).value, render(Last(b)).value;
        assert Body(a + b, render).value == x + y + z;
        assert x + y + z == x + (y + z);
      }
    }
  }

  /** One pass of the document loop: the next fragment is appended, or its fault ends the whole body. */
  lemma BodyStep(blocks: seq<Block>, index: nat, body: string, render: Block -> Result<string>)
    requires index < |blocks| && Body(blocks[..index], render) == Ok(body)
    ensures render(blocks[index]).Ok? ==> Body(blocks[..index + 1], render) == Ok(body + render(blocks[index]).value)
    ensures render(blocks[index]).Err? ==> Body(blocks, render) == Err(render(blocks[index]).fault)
  {
    var next := blocks[..index + 1];
    assert next[..index] == blocks[..index] && Last(next) == blocks[index];
    if render(blocks[index]).Err? {
      BodyAppend(next, blocks[index + 1..], render);
      assert next + blocks[index + 1..] == blocks;
    }
  }

  /**
   * What `JSONtoHTMLstring(data)` returns once the prefix, the body and the
   * suffix are assembled.  The parsed value's `blocks` is `None` when the
   * object has no such field; an array never has one, so `blocks.forEach`
   * throws for it whatever `parse` reports.
   */
  function Document(data: string, parse: string -> Parsed<Option<seq<Block>>>): Result<string>
  {
    if !IsJson(data, parse) then Ok(data)
    else if parse(data).kind == ArrayValue || parse(data).value.None? then Err(TypeError)
    else match Body(parse(data).value.value, Fragment)
      case Err(f) => Err(f)
      case Ok(s) => Ok(Prefix + s + Suffix)
  }

  /**
   * Text that is not a JSON object or array comes back unchanged; an array
   * has no `blocks` and throws TypeError; a document that renders starts with the opening text and ends with
   * `</div></div>`, with the fragments of its blocks in between.
   */
  lemma DocumentShape(data: string, parse: string -> Parsed<Option<seq<Block>>>)
    ensures !IsJson(data, parse) ==> Document(data, parse) == Ok(data)
    ensures IsJson(data, parse) && parse(data).kind == ArrayValue ==> Document(data, parse) == Err(TypeError)
    ensures IsJson(data, parse) && Document(data, parse).Ok? ==>
      var r := Document(data, parse).value;
      && |r| >= |Prefix| + |Suffix| && r[..|Prefix|] == Prefix && r[|r| - |Suffix|..] == Suffix
      && r[|Prefix|..|r| - |Suffix|] == Body(parse(data).value.value, Fragment).value
  {
  }

  /**
   * `JSONtoHTMLstring` as written: its first statement calls `EJSBlueprint`,
   * whose import is commented out, so every call throws. The statement
   * after it would throw the same way: it calls a bare `isJSON`, which the
   * module imports only as `Streamline.isJSON`. `JsonToHtml` calls the
   * `Streamline` helper.
   */
  function JsonToHtmlAsWritten(data: string): (r: Result<string>)
    ensures r.Err? && r.fault == ReferenceError("EJSBlueprint")
  {
    Err(ReferenceError("EJSBlueprint"))
  }

  /** `markup += open + item + close` for every item, in order. */
  method AppendEach(markup: string, items: seq<string>, open: string, close: string) returns (m: string)
    ensures m == markup + Each(items, open, close)
  {
    m := markup;
    var i := 0;
    while i < |items|
      invariant 0 <= i <= |items|
      invariant m == markup + Each(items[..i], open, close)
    {
      assert items[..i + 1][..i] == items[..i];
      m := m + open + items[i] + close;
      i := i + 1;
    }
    assert items[..i] == items;
  }

  lemma RowsSnoc(content: seq<seq<string>>, index: nat)
    requires index < |content|
    ensures Rows(content[..index + 1]) == Rows(content[..index]) + RowMarkup(content[index], index == 0)
  {
    assert content[..index + 1][..index] == content[..index];
  }

  /** One pass of the table loop: the head for row 0, a `tr` otherwise. */
  method AppendRow(markup: string, row: seq<string>, head: bool) returns (m: string)
    ensures m == markup + RowMarkup(row, head)
  {
    var cells: string;
    if head {
      m := markup + "<thead>";
      m := AppendEach(m, row, "<th>", "</th>");
      m := m + "</thead>";
      cells := Each(row, "<th>", "</th>");
      assert markup + "<thead>" + cells + "</thead>" == markup + ("<thead>" + cells + "</thead>");
    } else {
      m := markup + "<tr>";
      m := AppendEach(m, row, "<td>", "</td>");
      m := m + "</tr>";
      cells := Each(row, "<td>", "</td>");
      assert markup + "<tr>" + cells + "</tr>" == markup + ("<tr>" + cells + "</tr>");
    }
  }

  /** The table loop: each row appended, row 0 as the head. */
  method AppendRows(markup: string, content: seq<seq<string>>) returns (m: string)
    ensures m == markup + Rows(content)
  {
    m := markup;
    var index := 0;
    while index < |content|
      invariant 0 <= index <= |content|
      invariant m == markup + Rows(content[..index])
    {
      m := AppendRow(m, content[index], index == 0);
      RowsAppended(markup, content, index);
      index := index + 1;
    }
    assert content[..index] == content;
  }

  lemma RowsAppended(markup: string, content: seq<seq<string>>, index: nat)
    requires index < |content|
    ensures markup + Rows(content[..index]) + RowMarkup(content[index], index == 0) == markup + Rows(content[..index + 1])
  {
    RowsSnoc(content, index);
  }

  /** The `switch (block.type)` of the loop: the markup of one block. */
  method RenderBlock(block: Block) returns (r: Result<string>)
    ensures r == Fragment(block)
  {
    var d := block.data;
    var markup := "";
    match block.kind {
      case "list" =>
        if d.items.None? {
          return Err(TypeError);
        }
        var kind := ListName(d.style);
        markup := "<" + kind + ">";
        markup := AppendEach(markup, d.items.value, "<li>", "</li>");
        markup := markup + "</" + kind + ">";
      case "table" =>
        if d.content.None? {
          return Err(TypeError);
        }
        markup := "<table>";
        markup := AppendRows(markup, d.content.value);
        markup := markup + "</table>";
      case "media" =>
        if d.items.None? {
          return Err(TypeError);
        }
        markup := "<div class=\"media\">";
        markup := AppendEach(markup, d.items.value, "<div class=\"media-body\">", "</div>");
        markup := markup + "</div>";
      case _ =>
        return Fragment(block);
    }
    r := Ok(markup);
  }

  /**
   * `JSONtoHTMLstring(data)` with the renderer's own reference made to
   * resolve: the blocks are rendered one by one and appended to the
   * document text.
   */
  method JsonToHtml(data: string, parse: string -> Parsed<Option<seq<Block>>>) returns (r: Result<string>)
    ensures r == Document(data, parse)
  {
    if !IsJson(data, parse) {
      return Ok(data);
    }
    var blueprint := parse(data).value;
    if parse(data).kind == ArrayValue || blueprint.None? {
      return Err(TypeError);
    }
    var blocks := blueprint.value;
    var html := Prefix;
    ghost var body := "";
    var index := 0;
    while index < |blocks|
      invariant 0 <= index <= |blocks|
      invariant Body(blocks[..index], Fragment) == Ok(body) && html == Prefix + body
    {
      var markup := RenderBlock(blocks[index]);
      BodyStep(blocks, index, body, Fragment);
      if markup.Err? {
        return Err(markup.fault);
      }
      Regroup(Prefix, body, markup.value);
      html := html + markup.value;
      body := body + markup.value;
      index := index + 1;
    }
    assert blocks[..index] == blocks;
    Regroup(Prefix, body, Suffix);
    html := html + Suffix;
    r := Ok(html);
  }
}
