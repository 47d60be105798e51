# EJS factory — a Dafny model

EJS factory turns Editor.js output into HTML. An Editor.js document is JSON:
a list of blocks, each with an optional id, a type such as `paragraph`,
`header`, `list` or `table`, and a `data` object. The library renders it in
two ways.

- **The brick engine.** `HtmlBricks` is a node of an element tree under
  construction. A brick takes its tag, classes and attributes from a
  process-wide template table. The table has three categories: `blocks`,
  `properties` (looked up per parent type, with a `'default'` fallback) and
  `tags`. A brick records its parent (`under`) and its children (`over`).
  `EJSHtmlBuilder.build` wraps a target element as the root brick and lays
  a `wrapper` and a `subWrapper` brick under it. It then hands every block,
  in order, to the routine named by the block's type. There are thirteen
  such routines; each lays a small tree of bricks.
- **The string renderer.** `JSONtoHTMLstring` appends one HTML fragment per
  block to a fixed opening text, then adds the closing text.

`EJSFactory` (index.js) keeps the JSON text and makes a builder from it. It
also validates a list of editor tools against the known block types.

The model follows the code. Bricks, elements, the registry, the builder and
the factory are Dafny classes whose fields the methods update. Template
lookups, the string renderer and the helpers in `utils/streamline.js` are
pure functions. A JavaScript exception is a `Fault` carried in an `Outcome`
or a `Result`.

Where the code as written cannot do what it evidently means to do, the
model has both versions (see Findings):

- A member named `...AsWritten` (or named after the failure) models the code
  as written. A lemma shows the input that exposes the problem.
- The corrected member is the one the rest of the model uses.

The template table the library ships with (`Shipped.DefaultTemplate`) has
entries that make `fromTag` or `fromProperty` throw. `Shipped.RepairedTemplate`
corrects each of them, and each correction has its own Findings row. Two
further normalisations have no observable effect and have no row: the image
block's `attributes: []` (lib/ejs-html-bricks.js:415) becomes
`{'default': []}`, though `fromBlock` never reads block attributes, and the
caption gets `'default'` classes, though it is only laid under image and
quote, which have their own.

Modules, in dependency order:

| module | file | models |
|---|---|---|
| `Basics` | basics.dfy | faults, `Outcome`, `Result`, `Option` |
| `Blocks` | blocks.dfy | the Editor.js block and the `data` fields the routines read |
| `Streamline` | streamline.dfy | `isJSON`, `setProtocol`, `extractFileExtension` |
| `Dom` | dom.dfy | the part of a DOM element the bricks touch: `classList`, attributes, children |
| `Templates` | templates.dfy | the template table and its lookups (`fromBlock`, `fromTag`, `fromProperty`) and the `redefine*` / `set*Classes` updates |
| `Shipped` | shipped.dfy | the table HtmlBricks ships with, and a repaired one |
| `Bricks` | bricks.dfy | `HtmlBricks` instances (`Brick`) and its static state (`Registry`: template and stack) |
| `Routines` | routines.dfy | the thirteen block routines, on the brick path |
| `Builder` | builder.dfy | the dispatcher, the scaffold and `build` |
| `Markup` | markup.dfy | `JSONtoHTMLstring` |
| `Factory` | factory.dfy | `EJSFactory` |
| `Defects` | defects.dfy | the shipped template entries that make `fromTag` and `fromProperty` throw, each against its repaired form, and what they mean for the routines |

## Model

| member | source | states |
|---|---|---|
| Blocks.Decimal | lib/ejs-html-bricks.js:147-150 | the decimal text appended to `'h'` for a header level: a `-` exactly when the level is negative, then a non-empty run of digits with no leading zero whose value is the level's magnitude |
| Blocks.Natural | lib/ejs-html-bricks.js:147-150 | the digits of a non-negative level, by induction on the number: non-empty, all decimal digits, no leading zero, and their value is the number; `Decimal` rests on it |
| Streamline.IndexFrom | utils/streamline.js:31 | `indexOf` from a start position: -1 exactly when there is no occurrence at or after the start; otherwise the first such occurrence |
| Streamline.IndexOf | utils/streamline.js:31 | `indexOf`: -1 exactly when the text does not occur; otherwise the position of its first occurrence |
| Streamline.SetProtocol | utils/streamline.js:29-35 | the result contains "http" and ends with the URL. It is the URL itself when "http" occurs anywhere in it, and `http://` + URL otherwise |
| Streamline.SetProtocolIdempotent | utils/streamline.js:29-35 | applying `setProtocol` twice equals applying it once |
| Streamline.Split | utils/streamline.js:42 | `split` on one character: at least one piece, no piece holds the separator, and the pieces joined with the separator give the text back |
| Streamline.ExtensionIsTextAfterLastDot | utils/streamline.js:41-43 | `split('.').pop()` is a suffix of the name with no dot in it. It is either the whole name or is preceded by a dot, so it is the text after the last dot |
| Streamline.LastPieceIsDotFreeSuffix | utils/streamline.js:42 | the last piece of `split(sep)` is a separator-free suffix preceded by the separator. With one piece it is the whole text; with several it is shorter |
| Streamline.SplitStep | utils/streamline.js:42 | how the pieces of a text relate to the pieces of its tail |
| Streamline.IsJson | utils/streamline.js:11-22 | true exactly when the text parses to an object or an array. Text that does not parse, and null or scalar values, give false |
| Dom.TokenCheck | lib/ejs-html-bricks.js:168-171 | `classList.add` passes exactly when every token is non-empty and holds no ASCII whitespace. Otherwise it throws SyntaxError or InvalidCharacterError |
| Dom.AddTokensIsUnion | lib/ejs-html-bricks.js:241-247 | adding class tokens one by one gives the union of the old classes and the tokens |
| Dom.AddTokensIdempotent | lib/ejs-html-bricks.js:241-247 | adding the same tokens twice changes nothing |
| Dom.ApplyAttrsSnoc | lib/ejs-html-bricks.js:253-257 | applying one more attribute updates exactly that name |
| Dom.LastWriteWins | lib/ejs-html-bricks.js:253-257 | after `setAttribute` over a list, a name holds the value of its last entry, or its old value when no entry names it |
| Dom.TextChildren | lib/ejs-html-bricks.js:346-349 | assigning `textContent` leaves at most one child: no child exactly when the text is "", and otherwise one text node holding the text |
| Dom.Element.constructor | lib/ejs-html-bricks.js:166 | `createElement` gives an element of that tag with no classes, attributes or children |
| Dom.Element.AddClasses | lib/ejs-html-bricks.js:168-171 | classes grow by the token set exactly when every token is valid; otherwise they are unchanged |
| Dom.Element.SetAttribute | lib/ejs-html-bricks.js:214-216 | the attribute map is updated at one name |
| Dom.Element.SetText | lib/ejs-html-bricks.js:346-349 | children become the text children of the text |
| Dom.Element.SetHtml | lib/ejs-html-bricks.js:341-344 | children become the markup, or none for "" |
| Dom.Element.AppendChild | lib/ejs-html-bricks.js:236-239 | the child is appended after the existing children |
| Templates.BlockLook | lib/ejs-html-bricks.js:141-173 | `fromBlock`. Without an entry for the type: it succeeds exactly when the prior tag is a valid element name, and keeps the prior look. With one: the tag is `'h'` + level for a header with a level of at least 1, `ul`/`ol` for a list, the entry's tag for a non-nestable entry, else the tag under the parent's type when truthy and the `'default'` tag otherwise; it succeeds exactly when that tag can be resolved and is a valid element name and the entry's `'default'` classes exist and are valid tokens; the classes are those, the attributes are kept |
| Templates.HeaderLook | lib/ejs-html-bricks.js:147-150 | with a fixed `'h'` entry, a header of level at least 1 gets `h<level>`, and any other header gets `h` |
| Templates.ListLook | lib/ejs-html-bricks.js:151-153 | a list gets `ol` exactly when its style is "ordered", and `ul` otherwise, whatever the entry's tag |
| Templates.TagLook | lib/ejs-html-bricks.js:175-183 | `fromTag` succeeds exactly when the name is a valid element name, the `tags` table has an entry for it and that entry's `'default'` classes exist and are valid tokens. An invalid name throws InvalidCharacterError; a missing entry or missing `'default'` classes throw TypeError. On success the tag is the name, the classes are the `'default'` classes and the attributes are kept |
| Templates.PropertyLook | lib/ejs-html-bricks.js:185-219 | a resolved property always has a class list and an attribute list |
| Templates.PropertyLookResolves | lib/ejs-html-bricks.js:185-219 | `fromProperty` succeeds iff there is a parent and an entry with `tags`, `classes` and `attributes`; the resolved tag must be a valid name and the resolved lists must exist with valid class tokens. The look is then the three fallback lookups under the parent's type |
| Templates.SetKey | lib/ejs-html-bricks.js:285-291 | `field[key] = value` sets that key and no other |
| Templates.RedefineBlockAsWritten | lib/ejs-html-bricks.js:273-275 | as written, `template[blockName][attr]` succeeds only when the block name is a category name; it then replaces the whole entry named by the attribute |
| Templates.RedefineBlock | lib/ejs-html-bricks.js:273-275 | as intended: succeeds iff the block exists. That block's entry gets the new field; every other entry and category stays |
| Templates.RedefineProperty | lib/ejs-html-bricks.js:277-279 | succeeds iff the property exists. Its entry gets the new field; every other entry and category stays |
| Templates.RedefinePropertyKeepsOthers | lib/ejs-html-bricks.js:277-279 | after redefining one property, every other property, every block and every tag looks up exactly as before |
| Templates.RedefineTag | lib/ejs-html-bricks.js:281-283 | succeeds iff the tag exists. Its entry gets the new field; every other entry and category stays |
| Templates.SetDefaultClasses | lib/ejs-html-bricks.js:285-287 | succeeds iff the category and name exist and the entry has classes. Only that entry's `'default'` classes change |
| Templates.SetPropertyNestedClasses | lib/ejs-html-bricks.js:289-291 | succeeds iff the property exists and has classes. The other properties and categories stay |
| Templates.NestedClassesTakeEffect | lib/ejs-html-bricks.js:289-291 | afterwards the property's classes under that parent are the new list; under other keys they are as before (unless the parent is `'default'`); its tag and attributes are untouched |
| Shipped.ShippedHeaderEntry | lib/ejs-html-bricks.js:401-406 | the shipped header entry is a fixed `'h'` with empty default classes |
| Shipped.ShippedHeaderTag | lib/ejs-html-bricks.js:147-150 | with the shipped table a header of level n (n >= 1) is an `h<n>`, and any other header an `h` |
| Shipped.ShippedListEntry | lib/ejs-html-bricks.js:407-411 | the shipped list tag `'ul' \| 'ol'` is the number 0 |
| Shipped.ShippedListTag | lib/ejs-html-bricks.js:151-153 | with the shipped table a list is an `ol` exactly when its style is "ordered", and a `ul` otherwise |
| Bricks.Brick.constructor | lib/ejs-html-bricks.js:121-123 | corrected: a new brick has every field unset and an empty child list |
| Bricks.Brick.AsWritten | lib/ejs-html-bricks.js:121-123 | as written: a new brick has every field unset, including `over` |
| Bricks.Brick.On | lib/ejs-html-bricks.js:130-135 | records the parent. The push succeeds iff the parent's `over` is an array; then the brick is appended and sits one level deeper. Otherwise TypeError and the parent is unchanged |
| Bricks.Brick.FromBlock | lib/ejs-html-bricks.js:141-173 | sets category, id and type. Succeeds exactly when the block lookup does, and then the brick carries that look; the new element has its tag and the entry's default classes |
| Bricks.Brick.FromTag | lib/ejs-html-bricks.js:175-183 | succeeds exactly when the tag lookup does. The new element is named by the tag and carries the default classes |
| Bricks.Brick.FromProperty | lib/ejs-html-bricks.js:185-219 | succeeds exactly when the property lookup does. The new element carries the resolved tag and classes, and the attributes applied in order |
| Bricks.Brick.SetEachAttribute | lib/ejs-html-bricks.js:214-216 | the `forEach` of `setAttribute` applies the list in order |
| Bricks.Brick.FromElement | lib/ejs-html-bricks.js:221-224 | the brick adopts the element |
| Bricks.Brick.AsRoot | lib/ejs-html-bricks.js:226-234 | no parent, type "root", no children, position 0, level 0 |
| Bricks.Brick.Lay | lib/ejs-html-bricks.js:236-239 | appends the element to the parent's element exactly when both exist; otherwise TypeError. The parent's classes and attributes stay |
| Bricks.Brick.WithClasses | lib/ejs-html-bricks.js:241-247 | no list changes nothing. A list replaces `classes`; its tokens are added when valid, otherwise the call throws |
| Bricks.Brick.WithAttributes | lib/ejs-html-bricks.js:249-259 | a given list replaces `attributes`. The current list is applied in order; it fails only for a non-empty list without an element |
| Bricks.Brick.WithText | lib/ejs-html-bricks.js:346-349 | the element's children become the text (`undefined` clears them); without an element, TypeError |
| Bricks.Brick.WithHtml | lib/ejs-html-bricks.js:341-344 | the element's content becomes the markup (`undefined` becomes the text "undefined"); without an element, TypeError |
| Bricks.Brick.Identify | lib/ejs-html-bricks.js:261-267 | a truthy id is stored and the brick returned; otherwise the current id is returned |
| Bricks.Brick.SetRoot | lib/ejs-html-bricks.js:310-319 | root becomes the wrapper and stack slot 0 the wrapper. A given sub-wrapper becomes the wrapper's `over` and stack slot 1, with the wrapper as its parent; nothing else of the sub-wrapper changes (its `over` unless it is the wrapper, its `root` unless it is the receiver). Without a sub-wrapper the wrapper's `over` is unchanged |
| Bricks.Put | lib/ejs-html-bricks.js:298-301 | array slot assignment: the slot holds the value, the other slots are unchanged, and the array grows by one at its end |
| Bricks.RootStack | lib/ejs-html-bricks.js:297-302 | slot 0 holds the wrapper and slot 1 a given sub-wrapper; later slots are unchanged |
| Bricks.FirstWithId | lib/ejs-html-bricks.js:293-295 | `find`: none exactly when no brick has the id; otherwise the first brick with it |
| Bricks.Registry.constructor | lib/ejs-html-bricks.js:9 | the shipped table and an empty stack |
| Bricks.Registry.Retemplate | lib/ejs-html-bricks.js:269-271 | the whole table is replaced |
| Bricks.Registry.RedefineBlock | lib/ejs-html-bricks.js:273-275 | the table becomes the intended redefinition, or stays as it was when that fails |
| Bricks.Registry.RedefineProperty | lib/ejs-html-bricks.js:277-279 | the table becomes the redefinition, or stays when it fails |
| Bricks.Registry.RedefineTag | lib/ejs-html-bricks.js:281-283 | the table becomes the redefinition, or stays when it fails |
| Bricks.Registry.SetDefaultClasses | lib/ejs-html-bricks.js:285-287 | the table becomes the update, or stays when it fails |
| Bricks.Registry.SetPropertyNestedClasses | lib/ejs-html-bricks.js:289-291 | the table becomes the update, or stays when it fails |
| Bricks.Registry.Find | lib/ejs-html-bricks.js:293-295 | `stack.find` by id: a found brick is the first brick on the stack with the id. None exactly when no brick on the stack has it |
| Bricks.Registry.SetRoot | lib/ejs-html-bricks.js:297-302 | the stack becomes the root stack |
| Routines.PlaceBlock | lib/ejs-html-builder.js:35-36 | `on(p).fromBlock(block)` succeeds iff `p` takes children and the block lookup under `p`'s type succeeds. The brick is then appended to `p` with that look and a fresh empty element |
| Routines.PlaceTag | lib/ejs-html-builder.js:128-129 | `on(p).fromTag(name)` succeeds iff `p` takes children and the tag lookup succeeds |
| Routines.PlaceProperty | lib/ejs-html-builder.js:94-95 | `on(p).fromProperty(name)` succeeds iff the property lookup under `p`'s type succeeds |
| Routines.LayText | lib/ejs-html-builder.js:70-73 | one text brick. Succeeds iff the tag lookup does; then it holds the text and is the last child of `p` |
| Routines.LayTexts | lib/ejs-html-builder.js:68-74 | one text brick per text, in order, laid under `p`. Succeeds iff there are no texts or the tag lookup succeeds |
| Routines.OpenBlock | lib/ejs-html-builder.js:88-91 | a block brick placed on the container, given its attributes and laid, still empty. Succeeds iff the container is open and the block lookup succeeds |
| Routines.OpenTextBlock | lib/ejs-html-builder.js:35-38 | a block brick holding `data.text`, laid on the container |
| Routines.OpenTag | lib/ejs-html-builder.js:128-130 | a tag brick laid under `p` |
| Routines.TextBlock | lib/ejs-html-builder.js:29-51 | paragraph and header succeed iff the container is open and the block lookup succeeds. The container then has one more child: a fresh block brick holding `data.text` |
| Routines.Bare | lib/ejs-html-builder.js:213-221 | hr (and warning, lines 241-253, with the same body): the same condition; the new block brick is empty |
| Routines.LayCaption | lib/ejs-html-builder.js:93-98 | a truthy caption lays one caption brick holding it, and succeeds iff the caption lookup does; otherwise nothing is laid |
| Routines.Image | lib/ejs-html-builder.js:77-99 | succeeds iff the block lookup succeeds, and also the caption lookup when the caption is truthy. The brick carries `src` and `alt`; a caption brick sits under it exactly when the caption is truthy |
| Routines.Embed | lib/ejs-html-builder.js:101-120 | a block brick carrying the five iframe attributes, applied in order |
| Routines.Code | lib/ejs-html-builder.js:122-136 | succeeds iff the `pre` tag and the block under `pre` resolve. The result is a `pre` brick whose single child is the code brick holding `data.text` |
| Routines.Quote | lib/ejs-html-builder.js:138-156 | a block brick holding the text, then a caption brick exactly when the caption is truthy |
| Routines.Media | lib/ejs-html-builder.js:223-239 | a block brick holding exactly one empty `body` property brick |
| Routines.LayProperty | lib/ejs-html-builder.js:236-238 | one empty property brick laid under `p` |
| Routines.LayPropertyText | lib/ejs-html-builder.js:295-298 | one property brick holding the text, laid under `p` |
| Routines.List | lib/ejs-html-builder.js:53-75 | corrected: succeeds iff the block lookup succeeds, `items` exists, and `li` resolves when there are items. The block brick then holds one `li` per item, in order |
| Routines.ListAsWritten | lib/ejs-html-builder.js:65-74 | as written: succeeds only for an empty item list. The first item of a non-empty list throws ReferenceError (`list`) |
| Routines.LayRow | lib/ejs-html-builder.js:186-208 | a `thead` or `tr` brick holding one cell brick per text, in order |
| Routines.NextRow | lib/ejs-html-builder.js:200-208 | one more `tr` brick for the next row, after the rows already laid |
| Routines.LayRows | lib/ejs-html-builder.js:199-208 | the rows after the first: one `tr` per row under `tbody`, each with its `td` cells, in order |
| Routines.LayHead | lib/ejs-html-builder.js:185-197 | the first row: a `thead` with its `th` cells, then the `tbody` brick |
| Routines.LayTable | lib/ejs-html-builder.js:184-210 | succeeds iff the row lookups do. The table then has no children when there are no rows; otherwise a `thead` for row 0 and a `tbody` with one `tr` per later row |
| Routines.Table | lib/ejs-html-builder.js:158-211 | corrected: succeeds iff the block lookup succeeds, `content` exists and the row lookups succeed. The block brick then has that shape |
| Routines.TableAsWritten | lib/ejs-html-builder.js:195-200 | as written: succeeds only for at most one row. The second row throws ReferenceError (`tbodyBrick`) |
| Routines.LayLinkPicture | lib/ejs-html-builder.js:286-293 | the `image` brick, carrying `src` and `alt`, is the single child of the wrapper |
| Routines.LayLinkImage | lib/ejs-html-builder.js:282-293 | the `linkImg` brick under `link`, holding its image. Reading `meta.image.url` throws when `meta.image` is missing |
| Routines.LayLinkTexts | lib/ejs-html-builder.js:295-308 | the title, description and anchor bricks, in that order. The anchor holds the URL after `setProtocol` |
| Routines.LayLink | lib/ejs-html-builder.js:278-308 | the `link` tree. Succeeds iff its lookups succeed |
| Routines.LinkTool | lib/ejs-html-builder.js:255-310 | succeeds iff `link` and `meta` exist and every lookup succeeds. Then there is a block brick with no attributes |
| Routines.LayFileParts | lib/ejs-html-builder.js:336-342 | the `icon` and `fileName` bricks under `fileBlock`. Succeeds iff both lookups do |
| Routines.LayFile | lib/ejs-html-builder.js:332-342 | the `fileBlock` brick with its two children, under the attaches brick |
| Routines.Attaches | lib/ejs-html-builder.js:312-343 | succeeds iff `file` exists and every lookup succeeds. The block brick's attributes are then the single `href` |
| Builder.Dispatch | lib/ejs-html-builder.js:390-392 | `this.builder[type]` succeeds exactly when the builder has routines, the container is open and the routine for the type completes. A missing routine throws TypeError and leaves the container unchanged. On success the container has one more child rendered from the block |
| Builder.DispatchNext | lib/ejs-html-builder.js:390-392 | one turn of the block loop keeps the loop's invariant: the bricks laid so far are the rendered blocks, in order |
| Builder.DispatchAll | lib/ejs-html-builder.js:390-392 | the loop succeeds iff every block's routine does. Then `subWrapper` has exactly one child per block, in input order, each rendered from its block |
| Builder.ShippedScaffoldFails | lib/ejs-html-bricks.js:544-547 | with the shipped table `wrapper` has no `attributes` field, so the scaffold cannot be built |
| Builder.RepairedWrapper | lib/ejs-html-builder.js:382-384 | with the repaired table `wrapper` under the root is a `div` of class `codex-editor` |
| Builder.RepairedSubWrapper | lib/ejs-html-builder.js:386-388 | with the repaired table `subWrapper` under `wrapper` is a `div` of class `codex-editor__redactor` |
| Builder.RepairedScaffold | lib/ejs-html-builder.js:380-388 | with the repaired table the scaffold resolves |
| Builder.CaptionWithoutAttributes | lib/ejs-html-bricks.js:468-472 | a caption entry whose `attributes` is an empty array fails under an image with TypeError |
| Builder.CaptionUnderImage | lib/ejs-html-builder.js:93-98 | a caption under an image throws with the shipped table; with the repaired table it is a `span` of class `editor-image-caption` |
| Builder.PreUnderCode | lib/ejs-html-builder.js:128-129 | `fromTag('pre')` throws with the shipped table, which has no `pre` tag; with the repaired table it is a `pre` without classes |
| Builder.ShippedCodeFails | lib/ejs-html-bricks.js:553-591 | with the shipped table the code routine never completes |
| Builder.IconClassString | lib/ejs-html-bricks.js:484-491 | even with an attribute list, the shipped icon classes are one token holding spaces, so `classList.add` throws InvalidCharacterError |
| Builder.IconUnderFileBlock | lib/ejs-html-builder.js:336-338 | an icon under a file block throws with the shipped table. With the repaired table it is a `span` of the three icon classes |
| Builder.Sprout | lib/ejs-html-builder.js:382-388 | `on(parent).fromProperty(name)` then `lay()`. Succeeds iff the parent has an element and the lookup succeeds; then a fresh empty property brick is the parent's last child |
| Builder.Wrap | lib/ejs-html-builder.js:380-384 | the target becomes the root brick. Succeeds iff there is a target and `wrapper` resolves; then `wrapper` is the root's only brick and is appended to the target |
| Builder.Scaffold | lib/ejs-html-builder.js:380-388 | corrected: succeeds iff there is a target and both scaffold properties resolve. Then root, `wrapper` and `subWrapper` each hold the next, one level deeper |
| Builder.ScaffoldAsWritten | lib/ejs-html-builder.js:380-388 | as written: always fails. With a target and a resolving `wrapper`, `subWrapper.on(wrapper)` throws TypeError because `over` is undefined |
| Builder.BuiltIntro | lib/ejs-html-builder.js:376-396 | the scaffold plus the laid blocks make a built tree |
| Builder.RoutineAsWritten | lib/ejs-html-builder.js:29-343 | as written, every routine throws: a ReferenceError on `rawMode`, or a TypeError for linkTool and attaches when `link`, `meta` or `file` is missing |
| Builder.HtmlBuilder.constructor | lib/ejs-html-builder.js:20-27 | the routines are defined and the data kept iff the data is truthy; there is no target and no HTML yet |
| Builder.HtmlBuilder.Build | lib/ejs-html-builder.js:354-397 | records the target and the mode, then builds the bricks or the raw text |
| Builder.HtmlBuilder.BuildBricks | lib/ejs-html-builder.js:376-396 | succeeds iff there is a target, the scaffold resolves, the data has blocks and every routine completes. The container then holds the built tree, and the result is undefined (`innerHTML` of a brick) |
| Builder.HtmlBuilder.BuildRaw | lib/ejs-html-builder.js:360-375 | succeeds only with no blocks and a target. Then the HTML is the opening text + `</div></div>` and is written into the target. With blocks, the first routine's fault |
| Markup.EachAppend | lib/ejs-html-builder.js:425-433 | wrapping each item of a concatenation is the concatenation of the wrappings |
| Markup.EachCons | lib/ejs-html-builder.js:425-433 | the first item's markup comes first |
| Markup.BodyRowsSnoc | lib/ejs-html-builder.js:448-467 | one more body row appends its `tr` |
| Markup.TableLayout | lib/ejs-html-builder.js:448-467 | a non-empty table is the head from row 0 followed by one `tr` per later row, in order |
| Markup.FragmentFails | lib/ejs-html-builder.js:418-514 | a fragment throws TypeError exactly when a field it dereferences is missing |
| Markup.UnknownPlaceholder | lib/ejs-html-builder.js:512-514 | an unknown type renders as the placeholder paragraph naming it |
| Markup.ListFragment | lib/ejs-html-builder.js:425-433 | corrected: a list is its tag around one `li` per item, in order. The tag is `ol` exactly when the style is "ordered" |
| Markup.FragmentAsWritten | lib/ejs-html-builder.js:425-433 | as written: identical to the corrected fragment except for list and media, which fail exactly when the corrected ones do |
| Markup.ListOverwritten | lib/ejs-html-builder.js:432 | as written, the list `["x"]` renders as `</ul>` instead of `<ul><li>x</li></ul>` |
| Markup.MediaOverwritten | lib/ejs-html-builder.js:497 | as written, a one-item media block renders as `</div>` only |
| Markup.BodyFails | lib/ejs-html-builder.js:417-517 | the body fails exactly when some block's fragment fails |
| Markup.BodyAppend | lib/ejs-html-builder.js:417-517 | rendering two runs of blocks in a row renders their concatenation, and the first fault wins |
| Markup.BodyStep | lib/ejs-html-builder.js:516 | one pass appends the next fragment, or its fault ends the document |
| Markup.DocumentShape | lib/ejs-html-builder.js:411-520 | text that is not a JSON object or array is returned unchanged; a JSON array has no `blocks` and throws TypeError. A rendered document is the opening text, the fragments in order, then `</div></div>` |
| Markup.JsonToHtmlAsWritten | lib/ejs-html-builder.js:410 | as written, every call throws ReferenceError (`EJSBlueprint`) |
| Markup.AppendEach | lib/ejs-html-builder.js:428-431 | the item loop appends every wrapped item, in order |
| Markup.RowsSnoc | lib/ejs-html-builder.js:450-465 | one more row appends the head for row 0, or a `tr` |
| Markup.AppendRow | lib/ejs-html-builder.js:452-464 | one pass of the row loop appends that row's markup |
| Markup.AppendRows | lib/ejs-html-builder.js:450-465 | the row loop appends every row's markup, in order |
| Markup.RowsAppended | lib/ejs-html-builder.js:450-465 | the row loop's invariant step |
| Markup.RenderBlock | lib/ejs-html-builder.js:418-515 | the `switch` gives exactly the block's fragment |
| Markup.JsonToHtml | lib/ejs-html-builder.js:407-523 | corrected: the loop's result is exactly `Document`: the input unchanged when it is not JSON, otherwise the opening text, the fragments in order and the closing text |
| Factory.BlockTypesAreRoutines | index.js:22 | the factory's block types are exactly the builder's thirteen routines |
| Factory.ArrowCheck | index.js:58-65 | as written, the arrow `hasJSON` and `hasHTML` are true for every value |
| Factory.PresenceCheck | index.js:170-181 | corrected: the presence test is true exactly when a string is present |
| Factory.EjsFactory.constructor | index.js:79-93 | with no data nothing is set |
| Factory.EjsFactory.Create | index.js:79-93 | falsy data leaves everything unset. A truthy string is kept and a truthy object stringified, with a builder made from the text. Any other truthy value throws Error |
| Factory.EjsFactory.From | index.js:100-114 | a string is kept, and an object or null stringified; a new builder is made and the factory returned. Any other type throws TypeError and changes nothing |
| Factory.EjsFactory.Render | index.js:121-130 | never completes. Without JSON it throws Error; with JSON it makes a new builder, whose build with no target throws; HTML and JSON stay |
| Factory.EjsFactory.Reset | index.js:137-140 | HTML and JSON become unset and the builder stays. The corrected presence checks (`PresenceCheck`, as the methods at index.js:170-181 state it) are then false; the shipped ones, the arrow fields, are still true |
| Factory.EjsFactory.CheckBlockTypes | index.js:189-198 | with tools, true iff every entry's first key is a known type. False iff the first offending entry has keys; TypeError iff it is a null entry. Without tools it is true; without a config it throws |
| Defects.ShippedTagsFail | lib/ejs-html-bricks.js:553-591 | with the shipped table `fromTag` throws TypeError for `li`, `thead`, `th`, `tbody`, `tr`, `td` (classes are an array) and `div` (classes lack a `'default'` key) |
| Defects.RepairedTagsResolve | lib/ejs-html-bricks.js:553-591 | with the repaired table `fromTag` resolves each of those seven tags to itself, with no classes and the prior attributes |
| Defects.ListNeedsItemTag | lib/ejs-html-builder.js:65-74 | a list with an item fails whenever `fromTag('li')` fails |
| Defects.ShippedListFails | lib/ejs-html-builder.js:70-71 | with the shipped table a list with at least one item never completes |
| Defects.TableNeedsHeadTag | lib/ejs-html-builder.js:184-197 | a table with a row fails whenever `fromTag('thead')` fails |
| Defects.ShippedTableFails | lib/ejs-html-builder.js:186-187 | with the shipped table a table with at least one row never completes |
| Defects.FixedBlockResolves | lib/ejs-html-bricks.js:154-171 | `fromBlock` succeeds for a non-header, non-list type whose entry has a fixed valid tag and valid `'default'` classes |
| Defects.ListRuns | lib/ejs-html-builder.js:53-75 | a list completes once its block entry and `fromTag('li')` resolve |
| Defects.RepairedListRuns | lib/ejs-html-builder.js:53-75 | with the repaired table every list completes |
| Defects.TableRuns | lib/ejs-html-builder.js:158-211 | a table completes once its block entry and its five tags resolve |
| Defects.RepairedTableRuns | lib/ejs-html-builder.js:158-211 | with the repaired table every table completes |
| Defects.BodyUnderMedia | lib/ejs-html-bricks.js:502-506 | `fromProperty('body')` under media throws TypeError with the shipped table (`attributes: []`) and gives `div.media-body` with no attributes with the repaired one |
| Defects.FileBlockUnderAttaches | lib/ejs-html-bricks.js:479-483 | `fromProperty('fileBlock')` under attaches throws with the shipped table (classes and attributes are arrays) and gives a plain `div` with the repaired one |
| Defects.FileNameUnderFileBlock | lib/ejs-html-bricks.js:493-501 | `fromProperty('fileName')` under fileBlock throws with the shipped table (`attributes: []`) and gives `span.file-name` with the repaired one |
| Defects.LinkImgUnderLink | lib/ejs-html-bricks.js:540-543 | `fromProperty('linkImg')` under link throws with the shipped table (no `attributes` field) and gives `div.link-tool__image` with the repaired one |
| Defects.ImageUnderLinkImg | lib/ejs-html-bricks.js:473-478 | `fromProperty('image')` under linkImg throws with the shipped table (`attributes: []`) and gives a plain `img` with the repaired one |
| Defects.TitleUnderLink | lib/ejs-html-bricks.js:512-516 | `fromProperty('title')` under link throws with the shipped table and gives `div.link-tool-title` with the repaired one |
| Defects.DescriptionUnderLink | lib/ejs-html-bricks.js:517-521 | `fromProperty('description')` under link throws with the shipped table and gives `p.link-tool-description` with the repaired one |
| Defects.AnchorUnderLink | lib/ejs-html-bricks.js:507-511 | `fromProperty('anchor')` under link throws with the shipped table and gives a plain `span` with the repaired one |
| Defects.MessageUnderWarning | lib/ejs-html-bricks.js:522-526 | `fromProperty('message')` under warning throws with the shipped table (classes and attributes are arrays) and gives `div.warning-message` with the repaired one |
| Defects.ShippedPropertiesFail | lib/ejs-html-bricks.js:467-543 | with the shipped table `fromProperty` throws TypeError for body, fileBlock, fileName, linkImg, image, title, description, anchor and message under the brick each is laid under |
| Defects.RepairedPropertiesResolve | lib/ejs-html-bricks.js:467-543 | with the repaired table each of those nine properties resolves to its tag, its classes and no attributes |
| Defects.LinkUnderLinkTool | lib/ejs-html-bricks.js:527-539 | `fromProperty('link')` under linkTool gives `a` with the two link-tool classes and the `href`/`target`/`rel` attributes |
| Defects.TitleWithoutClasses | lib/ejs-html-bricks.js:512-516 | with its attribute list supplied, the shipped title still throws under link: its classes are keyed only by `warning` and `linkTool` |
| Defects.DescriptionWithoutClasses | lib/ejs-html-bricks.js:517-521 | with its attribute list supplied, the shipped description still throws under link: its classes are keyed only by `linkTool` |
| Defects.AnchorWithoutClasses | lib/ejs-html-bricks.js:507-511 | with its attribute list supplied, the shipped anchor still throws under link: its classes are keyed only by `linkTool` |
| Defects.MediaNeedsBody | lib/ejs-html-builder.js:223-239 | a media block fails whenever `fromProperty('body')` fails |
| Defects.ShippedMediaFails | lib/ejs-html-builder.js:236-237 | with the shipped table no media block completes |
| Defects.LinkToolNeedsTitle | lib/ejs-html-builder.js:295-298 | a linkTool block fails whenever `fromProperty('title')` under link fails |
| Defects.ShippedLinkToolFails | lib/ejs-html-builder.js:255-310 | with the shipped table no linkTool block completes |
| Defects.AttachesNeedsFileBlock | lib/ejs-html-builder.js:332-334 | an attaches block fails whenever `fromProperty('fileBlock')` fails |
| Defects.ShippedAttachesFails | lib/ejs-html-builder.js:312-343 | with the shipped table no attaches block completes |
| Defects.MediaRuns | lib/ejs-html-builder.js:223-239 | a media block completes once its block entry and `body` resolve |
| Defects.RepairedMediaRuns | lib/ejs-html-builder.js:223-239 | with the repaired table every media block completes |
| Defects.LinkToolRuns | lib/ejs-html-builder.js:255-310 | a linkTool block with a link and a meta image completes once its block entry and its six properties resolve |
| Defects.LinkToolBlockResolves | lib/ejs-html-bricks.js:447-451 | `fromBlock` succeeds for a linkTool block with the `div.link-tool` entry |
| Defects.RepairedLinkToolRuns | lib/ejs-html-builder.js:255-310 | with the repaired table every linkTool block with a link and a meta image completes |
| Defects.AttachesRuns | lib/ejs-html-builder.js:312-343 | an attaches block with a file completes once its block entry and its three properties resolve |
| Defects.RepairedAttachesRuns | lib/ejs-html-builder.js:312-343 | with the repaired table every attaches block with a file completes |

## Left out

- Console output and timing (`console.log`, `console.time`) have no effect on the result and are not modelled.
- `JSON.parse` and `JSON.stringify` are parameters (`parse`, `stringify`); their results are a value kind and an abstract value.
- Dom.ValidElementName: the DOM Standard's valid element local name restricted to ASCII. A name that starts with a non-ASCII character, or whose first character is `:` or `_` and which holds a non-ASCII character later, is judged InvalidCharacterError although browsers accept it.
- Bricks.Registry.SetRoot and Bricks.Brick.SetRoot: the wrapper is never null, so `setRoot(null, sub)` is not expressible. In the source both store null; with a sub-wrapper the instance method then throws TypeError at `this.root.over`. The builder always passes a brick.
- Factory.EjsFactory.CheckBlockTypes: a string-valued `tools` has no case of its own. It behaves as a list with one entry per character, each with the single key `'0'` (a `Tools.Entries` value), which is not a block type.
- The DOM is reduced to the element fields the bricks use: tag, class set, attribute map and child nodes. HTML serialisation, escaping, `innerHTML` parsing (kept as one opaque node), attribute-name validation and `appendChild`'s hierarchy checks are not modelled.
- `EJSFactory.renderHTML` (index.js:150-163) and `EJSHtmlBuilder.reverse` (lib/ejs-html-builder.js:531-533) are not part of this model. The first reaches into the page's `document`; the second is an empty stub.
- Dead code that no modelled path calls is not modelled: `nested`, `hasNested`, `cascadeBuild`, `buildNested` and the static `lay` of lib/ejs-html-bricks.js.
- lib/ejs-config.js, lib/ejs-css-map.js, lib/ejs-blueprint.js and `SmartLogger` in utils/streamline.js are not part of this model.
- Keys inherited from `Object.prototype` or `Array.prototype` (such as `constructor` used as a block type) are treated as absent. The string indexing of a string-valued tag is not modelled.
- The raw path of each routine is modelled only as far as it runs: the free identifier `rawMode` throws before any raw text is written (`Builder.RoutineAsWritten`). The HTML strings of the raw branches are therefore not modelled.
- The order in which attributes are kept inside a DOM element is not modelled. The model keeps a map, so only the last value per name is observable.
- Routines.LinkTool: states the block brick and the condition for success, not the `link` subtree under it; `Routines.LayLinkImage` and `Routines.LayLinkTexts` state that subtree.
- Routines.LayLink: states only the condition for success; the subtree is stated by `Routines.LayLinkImage` and `Routines.LayLinkTexts`.
- Routines.Attaches: states the block brick and its `href`, not the file subtree; `Routines.LayFile` states that subtree.
- Builder.Dispatch: states the container's new last child (the brick it lays) and the condition for success, not the whole subtree; each routine states its own subtree.
- Templates.PropertyLook: its own contract states only that a resolved look has both lists; the full characterisation is `Templates.PropertyLookResolves`.
- A header `level` that is not an integer (a fraction, or a numeric string that `>= 1` accepts) is not modelled: `data.level` is an optional integer. Its text is what JavaScript prints for it, which the model does not reproduce.
- A block without a `data` object is not modelled: `Data` always exists and only its fields may be absent. In the source, reading `block.data.x` then throws TypeError in every routine that reads a field.

## Findings

| source | as written | input that shows it | evidently intended | confidence | as-written member | corrected member |
|---|---|---|---|---|---|---|
| lib/ejs-html-bricks.js:121-123 | the constructor never initialises `over`; it becomes an array only in `asRoot` | `build` on any target: `subWrapper.on(wrapper)` pushes onto an undefined `over` | every brick starts with an empty child list | high, not executed | Builder.ScaffoldAsWritten | Builder.Scaffold |
| lib/ejs-html-builder.js:30 | every routine tests a bare `rawMode`, which is not in scope | any block on either path throws ReferenceError | `this.rawMode` | high, not executed | Builder.RoutineAsWritten | Builder.Dispatch |
| lib/ejs-html-builder.js:410-411 | `JSONtoHTMLstring` first calls `EJSBlueprint()`, whose import is commented out; the next line calls a bare `isJSON`, which is in scope only as `Streamline.isJSON` | any input throws ReferenceError at line 410, and would throw it again at line 411 | the blueprint is only a default for the parsed value, and the test is `Streamline.isJSON(data)` | high, not executed | Markup.JsonToHtmlAsWritten | Markup.JsonToHtml |
| lib/ejs-html-builder.js:432 | `markup = ` replaces the list markup built so far | list `["x"]` renders `</ul>` | `markup += ` | high, not executed | Markup.ListOverwritten | Markup.ListFragment |
| lib/ejs-html-builder.js:497 | `markup = ` replaces the media markup built so far | a media block with one item renders `</div>` | `markup += ` | high, not executed | Markup.MediaOverwritten | Markup.RenderBlock |
| lib/ejs-html-builder.js:70 | list items are placed `on(list)`, an identifier not in scope | any list with an item throws ReferenceError | `on(listBrick)` | high, not executed | Routines.ListAsWritten | Routines.List |
| lib/ejs-html-builder.js:195-200 | `tbodyBrick` is declared inside the first row's branch | a table with two rows throws ReferenceError at row 1 | declare `tbodyBrick` before the loop | high, not executed | Routines.TableAsWritten | Routines.Table |
| lib/ejs-html-bricks.js:273-275 | `redefineBlock` indexes the template by the block name | `redefineBlock('paragraph', 'tag', 'div')` throws; `redefineBlock('blocks', 'x', v)` replaces an entry | `template.blocks[blockName][attributeName] = value` | high, not executed | Templates.RedefineBlockAsWritten | Templates.RedefineBlock |
| index.js:58-65 | the arrow fields `hasJSON` and `hasHTML` are own properties of every instance, so they take precedence over the methods of the same names at index.js:170-181, which are unreachable as shipped; each arrow tests `v !== null \|\| v !== undefined \|\| v !== ''`, which is always true, on `JSONstring`/`HTMLstring`, which are never assigned | `hasJSON()` right after `reset()` gives true | the presence test of the class methods | high, not executed | Factory.ArrowCheck | Factory.PresenceCheck |
| lib/ejs-html-bricks.js:544-551 | `wrapper` and `subWrapper` have no `attributes` field | `fromProperty('wrapper')` under the root throws TypeError | `attributes: {'default': []}` | high, not executed | Builder.ShippedScaffoldFails | Builder.RepairedScaffold |
| lib/ejs-html-bricks.js:468-472 | `caption` has `attributes: []`, which has no key | an image with a caption throws TypeError at its caption | `attributes: {'default': []}` | high, not executed | Builder.CaptionWithoutAttributes | Builder.CaptionUnderImage |
| lib/ejs-html-bricks.js:553-591 | the `tags` table has no `pre` entry | any code block throws TypeError at `fromTag('pre')` | a `pre` tag entry | high, not executed | Builder.ShippedCodeFails | Builder.PreUnderCode |
| lib/ejs-html-bricks.js:484-491 | the file-block icon's classes are one string holding spaces | `classList.add('fiv-cla fiv-icon-ppt fiv-size-lg')` throws InvalidCharacterError | three separate class tokens | high, not executed | Builder.IconClassString | Builder.IconUnderFileBlock |
| lib/ejs-html-bricks.js:559-590 | the `li`, `thead`, `th`, `tbody`, `tr` and `td` tag entries have `classes: []`, which has no `'default'` key | a list with one item throws TypeError at `fromTag('li')`; a table with one row at `fromTag('thead')` | `classes: {'default': []}` | high, not executed | Defects.ShippedTagsFail | Defects.RepairedTagsResolve |
| lib/ejs-html-bricks.js:554-558 | the `div` tag entry keys its classes by `wrapper` and `subWrapper` only | `fromTag('div')` throws TypeError | a `'default'` class list | medium, not executed | Defects.ShippedTagsFail | Defects.RepairedTagsResolve |
| lib/ejs-html-bricks.js:473-543 | body, fileBlock, fileName, image, anchor, title, description and message have `attributes: []` and linkImg has no `attributes` | any media block throws TypeError at its `body`; any attaches block at its `fileBlock`; any linkTool block at its `linkImg` | `attributes: {'default': []}` | high, not executed | Defects.ShippedPropertiesFail | Defects.RepairedPropertiesResolve |
| lib/ejs-html-bricks.js:507-521 | the anchor, title and description classes are keyed by `linkTool`, but lib/ejs-html-builder.js:295-306 lays them under the `link` brick, and there is no `'default'` key | with attributes supplied, a linkTool block still throws TypeError at its `title` | the same classes keyed by `link` | medium, not executed | Defects.TitleWithoutClasses | Defects.RepairedPropertiesResolve |
| lib/ejs-html-builder.js:223-239 | as a consequence of the rows above, the media routine (and likewise list, table, linkTool and attaches) cannot complete with the shipped table | a media block `{type: 'media'}` | each routine completes | high, not executed | Defects.ShippedMediaFails | Defects.RepairedMediaRuns |
