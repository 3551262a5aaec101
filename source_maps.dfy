/**
 * Inline source maps for the compiled blocks of a single-file component.
 * Each block's map, serialised and base64-encoded by a function the model
 * does not see, is placed as a data URL (RFC 2397, section 3) in a comment
 * written in front of the block's code: a `//` line for the script and a
 * `/* */` comment for each style.
 */
module SourceMaps {
  import opened Wrappers

  /** The two comment syntaxes the helpers are called with. */
  datatype Lang = Js | Css

  /** A compiled block: its code, its source map (`map`), and the remaining fields, which are copied. */
  datatype Block = Block(code: string, sourceMap: string, attrs: map<string, string>)

  /** The text of the comment before the base64 payload. */
  function Opening(lang: Lang): string {
    match lang
    case Js => "//# sourceMappingURL=data:application/json;base64,"
    case Css => "/*# sourceMappingURL=data:application/json;base64,"
  }

  /** The text of the comment after the base64 payload, ending the line. */
  function Closing(lang: Lang): string {
    match lang
    case Js => "\n"
    case Css => "*/\n"
  }

  /** The comment carrying `payload`, the encoded map: a base64 payload reads back from it alone. */
  function MapComment(lang: Lang, payload: string): (c: string)
    ensures IsBase64(payload) ==> ReadSourceMapComment(c, lang) == Some((payload, ""))
  {
    var c := Opening(lang) + payload + Closing(lang);
    if IsBase64(payload) then
      assert Closing(lang)[0] == '\n' || Closing(lang)[0] == '*';
      ReadDelimitedRoundTrip(Opening(lang), payload, Closing(lang), "");
      assert c + "" == c;
      c
    else c
  }

  /**
   * `injectSourceMapToBlock(block, lang)`: the block with the comment put in
   * front of its code; `encode` stands for `Base64.toBase64(JSON.stringify(.))`.
   */
  function InjectSourceMapToBlock(block: Block, lang: Lang, encode: string -> string): (r: Block)
    ensures r.sourceMap == block.sourceMap && r.attrs == block.attrs
    ensures |r.code| > |block.code| && r.code[|r.code| - |block.code|..] == block.code
  {
    block.(code := MapComment(lang, encode(block.sourceMap)) + block.code)
  }

  /**
   * `injectSourceMapToScript(script)`: the script keeps its map and other
   * fields, and its code now starts with a `//` comment that reads back as
   * the encoded map followed by the original code.
   */
  function InjectSourceMapToScript(script: Block, encode: string -> string): (r: Block)
    ensures r.sourceMap == script.sourceMap && r.attrs == script.attrs
    ensures IsBase64(encode(script.sourceMap)) ==>
      ReadSourceMapComment(r.code, Js) == Some((encode(script.sourceMap), script.code))
  {
    var r := InjectSourceMapToBlock(script, Js, encode);
    if IsBase64(encode(script.sourceMap)) then
      ReadInjectedComment(script, Js, encode);
      r
    else r
  }

  /** `injectSourceMapsToStyles(styles)`: the element-wise map over the styles, in order. */
  function InjectSourceMapsToStyles(styles: seq<Block>, encode: string -> string): (r: seq<Block>)
    ensures |r| == |styles|
    ensures forall i :: 0 <= i < |r| ==> r[i] == InjectSourceMapToBlock(styles[i], Css, encode)
  {
    if styles == [] then []
    else [InjectSourceMapToBlock(styles[0], Css, encode)] + InjectSourceMapsToStyles(styles[1..], encode)
  }

  // ---------------------------------------------------------------------
  // Reading a comment back: the partner of the injection.
  // ---------------------------------------------------------------------

  /** The characters of the base64 alphabet, with its padding character. */
  predicate IsBase64Char(c: char) {
    ('A' <= c <= 'Z') || ('a' <= c <= 'z') || ('0' <= c <= '9') || c == '+' || c == '/' || c == '='
  }

  predicate IsBase64(s: string) {
    forall i :: 0 <= i < |s| ==> IsBase64Char(s[i])
  }

  /** The length of the longest prefix of `s` made of base64 characters. */
  function Base64Run(s: string): (n: nat)
    ensures n <= |s|
    ensures IsBase64(s[..n])
    ensures n < |s| ==> !IsBase64Char(s[n])
  {
    if s != [] && IsBase64Char(s[0]) then 1 + Base64Run(s[1..]) else 0
  }

  /**
   * Reads a leading comment made of `open`, a base64 payload and `close`:
   * the payload and the code after the comment, or None.
   */
  function ReadDelimited(code: string, open: string, close: string): Option<(string, string)> {
    if |code| < |open| || code[..|open|] != open then None
    else
      var body := code[|open|..];
      var n := Base64Run(body);
      var rest := body[n..];
      if |rest| < |close| || rest[..|close|] != close then None
      else Some((body[..n], rest[|close|..]))
  }

  /**
   * Reads a leading source-map comment of the given syntax: the encoded map
   * it carries and the code after it, or None when the code does not start
   * with such a comment.
   */
  function ReadSourceMapComment(code: string, lang: Lang): Option<(string, string)> {
    ReadDelimited(code, Opening(lang), Closing(lang))
  }

  /** A base64 payload is read back whole when a non-base64 character follows it. */
  lemma {:induction false} Base64RunOfPayload(payload: string, rest: string)
    requires IsBase64(payload)
    requires rest != [] && !IsBase64Char(rest[0])
    ensures Base64Run(payload + rest) == |payload|
  {
    if payload != [] {
      assert (payload + rest)[1..] == payload[1..] + rest;
      Base64RunOfPayload(payload[1..], rest);
    } else {
      assert payload + rest == rest;
    }
  }

  /** A comment whose closing text starts outside the base64 alphabet is read back whole. */
  lemma {:induction false} ReadDelimitedRoundTrip(open: string, payload: string, close: string, code: string)
    requires IsBase64(payload)
    requires close != [] && !IsBase64Char(close[0])
    ensures ReadDelimited(open + payload + close + code, open, close) == Some((payload, code))
  {
    var s := open + payload + close + code;
    assert s == open + (payload + (close + code));
    assert s[..|open|] == open;
    var body := s[|open|..];
    assert body == payload + (close + code);
    Base64RunOfPayload(payload, close + code);
    assert body[..|payload|] == payload;
    var rest := body[|payload|..];
    assert rest == close + code;
    assert rest[..|close|] == close;
    assert rest[|close|..] == code;
  }

  /** Injection followed by reading gives back the encoded map and the original code. */
  lemma {:induction false} ReadInjectedComment(block: Block, lang: Lang, encode: string -> string)
    requires IsBase64(encode(block.sourceMap))
    ensures ReadSourceMapComment(InjectSourceMapToBlock(block, lang, encode).code, lang)
            == Some((encode(block.sourceMap), block.code))
  {
    var close := Closing(lang);
    assert close[0] == '\n' || close[0] == '*';
    ReadDelimitedRoundTrip(Opening(lang), encode(block.sourceMap), close, block.code);
  }

  /** Every injected style reads back to its own encoded map and code, in order. */
  lemma ReadInjectedStyles(styles: seq<Block>, encode: string -> string)
    requires forall i :: 0 <= i < |styles| ==> IsBase64(encode(styles[i].sourceMap))
    ensures forall i :: 0 <= i < |styles| ==>
      ReadSourceMapComment(InjectSourceMapsToStyles(styles, encode)[i].code, Css)
        == Some((encode(styles[i].sourceMap), styles[i].code))
  {
    forall i | 0 <= i < |styles|
      ensures ReadSourceMapComment(InjectSourceMapsToStyles(styles, encode)[i].code, Css)
              == Some((encode(styles[i].sourceMap), styles[i].code))
    {
      ReadInjectedComment(styles[i], Css, encode);
    }
  }
}
