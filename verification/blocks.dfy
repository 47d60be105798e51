/**
 * The editor's saved document: a list of blocks, each with an optional id, a
 * type name and a `data` object whose fields depend on the type.  A field the
 * editor did not save is `None` (JavaScript `undefined`).
 */
module Blocks {
  import opened Basics

  datatype ImageMeta = ImageMeta(url: Option<string>)

  /** `data.meta` of a linkTool block. */
  datatype LinkMeta = LinkMeta(
    title: Option<string>,
    description: Option<string>,
    image: Option<ImageMeta>)

  /** `data.file` of an attaches or image block. */
  datatype FileRef = FileRef(url: Option<string>)

  /** The union of the `data` fields read by any block routine. */
  datatype Data = Data(
    text: Option<string>,
    level: Option<int>,
    style: Option<string>,
    items: Option<seq<string>>,
    url: Option<string>,
    alt: Option<string>,
    caption: Option<string>,
    width: Option<string>,
    height: Option<string>,
    code: Option<string>,
    content: Option<seq<seq<string>>>,
    title: Option<string>,
    message: Option<string>,
    link: Option<string>,
    meta: Option<LinkMeta>,
    file: Option<FileRef>)

  /** One editor block; `kind` is the block's `type` field. */
  datatype Block = Block(id: Option<string>, kind: string, data: Data)

  /** A value that JavaScript treats as true in a condition: present and non-empty. */
  predicate Truthy(s: Option<string>)
  {
    s.Some? && s.value != ""
  }

  /** A field interpolated into a template literal: `undefined` prints as "undefined". */
  function Str(s: Option<string>): string
  {
    if s.Some? then s.value else "undefined"
  }

  /** A field assigned to `textContent`: `undefined` clears the text. */
  function TextOf(s: Option<string>): string
  {
    if s.Some? then s.value else ""
  }

  function Digit(d: nat): char
    requires d < 10
  {
    ('0' as int + d) as char
  }

  predicate IsDigit(c: char)
  {
    '0' <= c <= '9'
  }

  /** The number a string of decimal digits denotes. */
  function Value(s: string): nat
    requires forall i :: 0 <= i < |s| ==> IsDigit(s[i])
  {
    if |s| == 0 then 0
    else
      var last := s[|s| - 1];
      assert IsDigit(last) && last as int >= '0' as int;
      10 * Value(s[..|s| - 1]) + (last as int - '0' as int)
  }

  /**
   * The decimal text JavaScript produces for an integer: a '-' for a
   * negative number, then the digits of its magnitude, most significant
   * first and without leading zeros.
   */
  function Decimal(n: int): (r: string)
    ensures |r| > 0
    ensures n >= 0 ==> '0' <= r[0] <= '9'
    ensures n < 0 ==> r[0] == '-'
    ensures var digits := if n < 0 then r[1..] else r;
      && |digits| > 0 && (forall i :: 0 <= i < |digits| ==> IsDigit(digits[i]))
      && Value(digits) == (if n < 0 then -n else n)
      && (|digits| > 1 ==> digits[0] != '0')
  {
    if n < 0 then
      var digits := Natural(-n);
      assert ("-" + digits)[1..] == digits;
      "-" + digits
    else Natural(n)
  }

  /** The digits of a natural number, without leading zeros. */
  function Natural(n: nat): (r: string)
    ensures |r| > 0 && '0' <= r[0] <= '9'
    ensures forall i :: 0 <= i < |r| ==> IsDigit(r[i])
    ensures Value(r) == n
    ensures n > 0 ==> r[0] != '0'
    ensures |r| > 1 ==> r[0] != '0'
  {
    if n < 10 then [Digit(n)]
    else
      var high := Natural(n / 10);
      var r := high + [Digit(n % 10)];
      assert r[..|r| - 1] == high;
      r
  }
}
