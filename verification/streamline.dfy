/**
 * The string helpers of utils/streamline.js: URL protocol prefixing,
 * file-extension extraction and the JSON-text test.  JSON.parse is not
 * modelled; `IsJson` receives it as a parameter.
 */
module Streamline {
  import opened Basics

  /** `sub` occurs in `s` starting at index `i`. */
  predicate OccursAt(s: string, sub: string, i: int)
  {
    0 <= i && i + |sub| <= |s| && s[i..i + |sub|] == sub
  }

  predicate Occurs(s: string, sub: string)
  {
    exists i :: 0 <= i <= |s| - |sub| && OccursAt(s, sub, i)
  }

  /** JavaScript `s.indexOf(sub, from)`: the first occurrence at or after `from`, or -1. */
  function IndexFrom(s: string, sub: string, from: nat): (r: int)
    ensures r == -1 <==> forall i :: from <= i ==> !OccursAt(s, sub, i)
    ensures r != -1 ==> from <= r && OccursAt(s, sub, r)
    ensures r != -1 ==> forall i :: from <= i < r ==> !OccursAt(s, sub, i)
    decreases |s| - from
  {
    if from + |sub| > |s| then -1
    else if s[from..from + |sub|] == sub then
      assert OccursAt(s, sub, from);
      from
    else IndexFrom(s, sub, from + 1)
  }

  /** JavaScript `s.indexOf(sub)`. */
  function IndexOf(s: string, sub: string): (r: int)
    ensures r == -1 <==> !Occurs(s, sub)
    ensures r != -1 ==> OccursAt(s, sub, r) && forall i :: 0 <= i < r ==> !OccursAt(s, sub, i)
  {
    IndexFrom(s, sub, 0)
  }

  /**
   * `setProtocol`: prefixes "http://" unless "http" already occurs anywhere
   * in the URL (not only at its start).
   */
  function SetProtocol(url: string): (r: string)
    ensures Occurs(r, "http")
    ensures |url| <= |r| && r[|r| - |url|..] == url
    ensures Occurs(url, "http") ==> r == url
    ensures !Occurs(url, "http") ==> r == "http://" + url
  {
    if IndexOf(url, "http") == -1 then
      assert OccursAt("http://" + url, "http", 0);
      "http://" + url
    else
      url
  }

  lemma SetProtocolIdempotent(url: string)
    ensures SetProtocol(SetProtocol(url)) == SetProtocol(url)
  {
  }

  /** JavaScript `parts.join(sep)` for a one-character separator. */
  function Join(parts: seq<string>, sep: char): string
    requires |parts| >= 1
  {
    if |parts| == 1 then parts[0] else parts[0] + [sep] + Join(parts[1..], sep)
  }

  /**
   * JavaScript `s.split(sep)` for a one-character separator: the pieces
   * between the separators, none of which holds the separator, and which
   * joined with it give the text back.
   */
  function Split(s: string, sep: char): (parts: seq<string>)
    ensures |parts| >= 1
    ensures Join(parts, sep) == s
    ensures forall i :: 0 <= i < |parts| ==> sep !in parts[i]
  {
    if |s| == 0 then [""]
    else
      var rest := Split(s[1..], sep);
      if s[0] == sep then
        assert [s[0]] + s[1..] == s;
        [""] + rest
      else
        var parts := [[s[0]] + rest[0]] + rest[1..];
        assert parts[1..] == rest[1..];
        assert [s[0]] + s[1..] == s;
        parts
  }

  /** `extractFileExtension`: the last piece of the name split at '.'. */
  function ExtractFileExtension(filename: string): (r: string)
  {
    Last(Split(filename, '.'))
  }

  /**
   * The extension is the longest suffix of the name without a '.': it is a
   * suffix, it holds no '.', and it is either the whole name or preceded by
   * a '.'.
   */
  lemma {:induction false} ExtensionIsTextAfterLastDot(filename: string)
    ensures var r := ExtractFileExtension(filename);
      && |r| <= |filename| && filename[|filename| - |r|..] == r
      && '.' !in r
      && (r == filename || filename[|filename| - |r| - 1] == '.')
  {
    LastPieceIsDotFreeSuffix(filename, '.');
  }

  lemma {:induction false} LastPieceIsDotFreeSuffix(s: string, sep: char)
    ensures var r := Last(Split(s, sep));
      && |r| <= |s| && s[|s| - |r|..] == r
      && sep !in r
      && (r == s || s[|s| - |r| - 1] == sep)
    ensures |Split(s, sep)| == 1 ==> Split(s, sep)[0] == s
    ensures |Split(s, sep)| > 1 ==> |Last(Split(s, sep))| < |s|
    decreases |s|
  {
    if |s| > 0 {
      LastPieceIsDotFreeSuffix(s[1..], sep);
      var rest := Split(s[1..], sep);
      SplitStep(s, sep);
      if s[0] == sep || |rest| > 1 {
        var r := Last(rest);
        assert |Last(Split(s, sep))| == |r| < |s|;
        SuffixOfTail(s, r);
        assert r == s[1..] || s[1..][|s| - 1 - |r| - 1] == sep;
        if r != s[1..] {
          assert s[|s| - |r| - 1] == s[1..][|s| - 1 - |r| - 1];
        }
      } else {
        assert rest[0] == s[1..];
        assert [s[0]] + s[1..] == s;
        assert Split(s, sep) == [s];
        assert s[|s| - |s|..] == s;
      }
    }
  }

  /** How the pieces of `s` relate to those of `s[1..]`: the first character joins the first piece unless it is `sep`. */
  lemma SplitStep(s: string, sep: char)
    requires |s| > 0
    ensures s[0] != sep && |Split(s[1..], sep)| == 1 ==> Split(s, sep) == [[s[0]] + Split(s[1..], sep)[0]]
    ensures s[0] == sep || |Split(s[1..], sep)| > 1 ==>
      |Split(s, sep)| > 1 && Last(Split(s, sep)) == Last(Split(s[1..], sep))
  {
  }

  /** A suffix of the tail of `s` is a suffix of `s`. */
  lemma SuffixOfTail(s: string, r: string)
    requires |s| > 0 && |r| <= |s| - 1 && s[1..][|s| - 1 - |r|..] == r
    ensures s[|s| - |r|..] == r
  {
  }

  /** A value produced by JSON.parse, reduced to what `isJSON` inspects. */
  datatype JsonKind =
    | NullValue
    | BooleanValue(b: bool)
    | NumberValue(nonZero: bool)
    | StringValue(nonEmpty: bool)
    | ArrayValue
    | ObjectValue

  /** The result of JSON.parse: an exception, or a value and what it holds. */
  datatype Parsed<D> = Throws | Parsed(kind: JsonKind, value: D)

  /** JavaScript truthiness of a parsed value. */
  predicate TruthyValue(k: JsonKind)
  {
    match k
    case NullValue => false
    case BooleanValue(b) => b
    case NumberValue(nonZero) => nonZero
    case StringValue(nonEmpty) => nonEmpty
    case ArrayValue => true
    case ObjectValue => true
  }

  /** JavaScript `typeof` of a parsed value. */
  function TypeOf(k: JsonKind): string
  {
    match k
    case NullValue => "object"
    case BooleanValue(_) => "boolean"
    case NumberValue(_) => "number"
    case StringValue(_) => "string"
    case ArrayValue => "object"
    case ObjectValue => "object"
  }

  /**
   * `isJSON`: the text parses to a truthy value whose `typeof` is "object".
   * That is exactly a JSON object or array; null, scalars and text that
   * does not parse are rejected.
   */
  function IsJson<D>(str: string, parse: string -> Parsed<D>): (r: bool)
    ensures r <==> parse(str).Parsed? && (parse(str).kind == ObjectValue || parse(str).kind == ArrayValue)
  {
    match parse(str)
    case Throws => false
    case Parsed(kind, _) => TruthyValue(kind) && TypeOf(kind) == "object"
  }
}
