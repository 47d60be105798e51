/**
 * An abstract stand-in for the DOM elements the bricks create: a tag name, a
 * class set, an attribute map and a sequence of child nodes.  Only the
 * behaviour the bricks rely on is modelled: element-name and class-token
 * validation, attribute overwriting, and appending children.
 */
module Dom {
  import opened Basics

  /** One `{name, value}` entry of an attribute list, value already stringified. */
  datatype Attr = Attr(name: string, value: string)

  /** A child node of an element. */
  datatype Node = Text(text: string) | Html(markup: string) | Child(element: Element)

  predicate AsciiAlpha(c: char)
  {
    'a' <= c <= 'z' || 'A' <= c <= 'Z'
  }

  predicate AsciiAlphanumeric(c: char)
  {
    AsciiAlpha(c) || '0' <= c <= '9'
  }

  predicate AsciiWhitespace(c: char)
  {
    c == ' ' || c == '\t' || c == '\n' || c == '\r' || c == '\U{000C}'
  }

  /**
   * A name `document.createElement` accepts (the DOM Standard's "valid
   * element local name", restricted to ASCII): a letter followed by anything
   * but whitespace, NUL, '/' and '>', or ':'/'_' followed by letters, digits,
   * '-', '.', ':' and '_'.
   */
  predicate ValidElementName(name: string)
  {
    && |name| > 0
    && (if AsciiAlpha(name[0]) then
          forall i :: 0 <= i < |name| ==> !AsciiWhitespace(name[i]) && name[i] != '\0' && name[i] != '/' && name[i] != '>'
        else
          && (name[0] == ':' || name[0] == '_')
          && forall i :: 1 <= i < |name| ==>
               AsciiAlphanumeric(name[i]) || name[i] == '-' || name[i] == '.' || name[i] == ':' || name[i] == '_')
  }

  /** What `classList.add` raises for a token list, checked token by token before any is added. */
  function TokenCheck(tokens: seq<string>): (r: Outcome)
    ensures r.Pass? <==> forall i :: 0 <= i < |tokens| ==> ValidToken(tokens[i])
    ensures r.Fail? ==> r.fault == SyntaxError || r.fault == InvalidCharacterError
  {
    if |tokens| == 0 then Pass
    else if tokens[0] == "" then Fail(SyntaxError)
    else if exists i :: 0 <= i < |tokens[0]| && AsciiWhitespace(tokens[0][i]) then Fail(InvalidCharacterError)
    else TokenCheck(tokens[1..])
  }

  predicate ValidToken(token: string)
  {
    token != "" && forall i :: 0 <= i < |token| ==> !AsciiWhitespace(token[i])
  }

  /** The distinct tokens of a list. */
  function TokenSet(tokens: seq<string>): set<string>
  {
    set t | t in tokens
  }

  /** The class set after adding each token in order. */
  function AddTokens(classes: set<string>, tokens: seq<string>): set<string>
    decreases |tokens|
  {
    if |tokens| == 0 then classes else AddTokens(classes + {tokens[0]}, tokens[1..])
  }

  /** Adding tokens one by one is the union with the set of tokens. */
  lemma {:induction false} AddTokensIsUnion(classes: set<string>, tokens: seq<string>)
    ensures AddTokens(classes, tokens) == classes + TokenSet(tokens)
    decreases |tokens|
  {
    if |tokens| > 0 {
      AddTokensIsUnion(classes + {tokens[0]}, tokens[1..]);
      assert TokenSet(tokens) == {tokens[0]} + TokenSet(tokens[1..]);
    }
  }

  /** Adding the same tokens a second time changes nothing. */
  lemma {:induction false} AddTokensIdempotent(classes: set<string>, tokens: seq<string>)
    ensures AddTokens(AddTokens(classes, tokens), tokens) == AddTokens(classes, tokens)
  {
    AddTokensIsUnion(classes, tokens);
    AddTokensIsUnion(AddTokens(classes, tokens), tokens);
  }

  /** The attribute map after `setAttribute(a.name, a.value)` for each entry in order. */
  function ApplyAttrs(attrs: map<string, string>, list: seq<Attr>): map<string, string>
    decreases |list|
  {
    if |list| == 0 then attrs else ApplyAttrs(attrs[list[0].name := list[0].value], list[1..])
  }

  /** The value of the last entry named `name`, if any. */
  function LastValue(list: seq<Attr>, name: string): Option<string>
  {
    if |list| == 0 then None
    else if Last(list).name == name then Some(Last(list).value)
    else LastValue(list[..|list| - 1], name)
  }

  lemma {:induction false} ApplyAttrsSnoc(attrs: map<string, string>, list: seq<Attr>, a: Attr)
    ensures ApplyAttrs(attrs, list + [a]) == ApplyAttrs(attrs, list)[a.name := a.value]
    decreases |list|
  {
    if |list| > 0 {
      assert (list + [a])[1..] == list[1..] + [a];
      ApplyAttrsSnoc(attrs[list[0].name := list[0].value], list[1..], a);
    }
  }

  /**
   * Last write wins: after applying a list, a name holds the value of the
   * last entry with that name, or its previous value when no entry names it.
   */
  lemma {:induction false} LastWriteWins(attrs: map<string, string>, list: seq<Attr>, name: string)
    ensures name in ApplyAttrs(attrs, list) <==> name in attrs || LastValue(list, name).Some?
    ensures name in ApplyAttrs(attrs, list) ==>
      ApplyAttrs(attrs, list)[name] == if LastValue(list, name).Some? then LastValue(list, name).value else attrs[name]
    decreases |list|
  {
    if |list| > 0 {
      var init := list[..|list| - 1];
      assert list == init + [Last(list)];
      ApplyAttrsSnoc(attrs, init, Last(list));
      LastWriteWins(attrs, init, name);
    }
  }

  /** The child nodes after assigning `textContent`: the empty string leaves none. */
  function TextChildren(text: string): (r: seq<Node>)
    ensures |r| <= 1
    ensures r == [] <==> text == ""
    ensures text != "" ==> r == [Text(text)]
  {
    if text == "" then [] else [Text(text)]
  }

  class Element {
    const tag: string
    var classes: set<string>
    var attrs: map<string, string>
    var children: seq<Node>

    /** `document.createElement(tag)` once the name has been accepted. */
    constructor (tag: string)
      ensures this.tag == tag && classes == {} && attrs == map[] && children == []
    {
      this.tag := tag;
      classes := {};
      attrs := map[];
      children := [];
    }

    /** `classList.add(...tokens)`: every token is validated before any is added. */
    method AddClasses(tokens: seq<string>) returns (r: Outcome)
      modifies this`classes
      ensures r == TokenCheck(tokens)
      ensures classes == if r.Pass? then old(classes) + TokenSet(tokens) else old(classes)
    {
      r := TokenCheck(tokens);
      if r.Pass? {
        AddTokensIsUnion(classes, tokens);
        classes := AddTokens(classes, tokens);
      }
    }

    method SetAttribute(name: string, value: string)
      modifies this`attrs
      ensures attrs == old(attrs)[name := value]
    {
      attrs := attrs[name := value];
    }

    /** `textContent = text`: replaces every child. */
    method SetText(text: string)
      modifies this`children
      ensures children == TextChildren(text)
    {
      children := TextChildren(text);
    }

    /** `innerHTML = markup`: replaces every child by the parsed markup, kept here as one opaque node. */
    method SetHtml(markup: string)
      modifies this`children
      ensures children == if markup == "" then [] else [Html(markup)]
    {
      children := if markup == "" then [] else [Html(markup)];
    }

    method AppendChild(child: Element)
      modifies this`children
      ensures children == old(children) + [Child(child)]
    {
      children := children + [Child(child)];
    }
  }
}
