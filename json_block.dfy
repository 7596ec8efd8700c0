/** The `[json] ... [/json]` block that chat messages may carry in their content.
    Both bots use the same search, `re.compile(r'\[json\](.*?)\[\/json\]', re.DOTALL).search`,
    followed by `json.loads`; the decoder is a parameter here, a partial function
    whose `None` stands for `json.loads` raising. */
module JsonBlock {

  import opened Wrappers
  import opened Text

  /** A decoded JSON value (numbers are kept integral). */
  datatype Json =
    | JNull
    | JBool(b: bool)
    | JNum(n: int)
    | JStr(s: string)
    | JArray(items: seq<Json>)
    | JObject(fields: seq<(string, Json)>)

  /** `json.loads`: `None` when it raises. */
  type Decoder = string -> Option<Json>

  const Open: string := "[json]"
  const Close: string := "[/json]"

  /** The first character of `p` occurs nowhere else in `p`, so an occurrence of `p`
      cannot start inside a text and run into a copy of `p` that follows it. */
  predicate HeadUnique(p: string) {
    |p| > 0 && forall k :: 1 <= k < |p| ==> p[k] != p[0]
  }

  lemma MarkersHeadUnique()
    ensures HeadUnique(Open) && HeadUnique(Close)
  {
  }

  /** Where the non-greedy pattern matches: the first `[json]`, then the first `[/json]`
      after it. The result is the start and the end of the text between them. A later
      `[json]` can never match when the first one does not, since it has fewer characters
      after it in which a `[/json]` could occur. */
  function Span(content: string): (r: Option<(nat, nat)>)
    ensures r.Some? ==> var (b, e) := r.value;
      && b >= |Open| && OccursAt(content, Open, b - |Open|)
      && b <= e && OccursAt(content, Close, e)
      && (forall i :: 0 <= i < b - |Open| ==> !OccursAt(content, Open, i))
      && (forall i :: b <= i < e ==> !OccursAt(content, Close, i))
    ensures r.None? ==> forall i, j :: 0 <= i && i + |Open| <= j ==> !(OccursAt(content, Open, i) && OccursAt(content, Close, j))
  {
    match FindFrom(content, Open, 0)
    case None => None
    case Some(p) =>
      match FindFrom(content, Close, p + |Open|)
      case None => None
      case Some(e) => Some((p + |Open|, e))
  }

  /** The text the pattern's group captures, if it matches. */
  function Body(content: string): (r: Option<string>)
    ensures r.Some? ==> |r.value| <= |content|
  {
    match Span(content)
    case None => None
    case Some((b, e)) => Some(content[b..e])
  }

  /** `extract_json_block(content)`: `None` when the pattern does not match, when the
      captured text is empty (it is falsy) or when decoding fails. */
  function ExtractJsonBlock(content: string, decode: Decoder): (r: Option<Json>)
    // a block is found only where a `[json]` is followed by a `[/json]`
    ensures r.Some? ==> exists i, j :: 0 <= i && i + |Open| <= j && OccursAt(content, Open, i) && OccursAt(content, Close, j)
  {
    match Body(content)
    case None => None
    case Some(b) => if b == "" then None else decode(b)
  }

  /** Text followed by `p` and more text: when `p` occurs nowhere in the text and its
      first character is unique, the search from the start of the text finds that `p`. */
  lemma {:induction false} FindsNext(a: string, s: string, p: string, t: string)
    requires HeadUnique(p) && Free(s, p)
    ensures FindFrom(a + s + p + t, p, |a|) == Some(|a| + |s|)
  {
    var full := a + s + p + t;
    var at := |a| + |s|;
    assert full[at..at + |p|] == p;
    forall i | |a| <= i < at
      ensures !OccursAt(full, p, i)
    {
      if i + |p| <= at {
        assert full[i..i + |p|] == s[i - |a|..i - |a| + |p|];
        assert !OccursAt(s, p, i - |a|);
      } else {
        // an occurrence at `i` would put `p[at - i]`, which differs from `p[0]`, at `at`
        var k := at - i;
        assert full[at] == p[0] != p[k];
        if i + |p| <= |full| {
          assert full[i..i + |p|][k] == full[at];
        }
      }
    }
    assert OccursAt(full, p, at);
    var r := FindFrom(full, p, |a|);
    assert r.Some? && r.value <= at;
  }

  /** In `pre [json] body [/json] post`, where `pre` holds no `[json]` and `body` no
      `[/json]`, the pattern captures exactly `body`. */
  lemma {:induction false} SpanOf(pre: string, body: string, post: string)
    requires Free(pre, Open) && Free(body, Close)
    ensures Span(pre + Open + body + Close + post) == Some((|pre| + |Open|, |pre| + |Open| + |body|))
  {
    var content := pre + Open + body + Close + post;
    MarkersHeadUnique();
    Regroup(pre, Open, body, Close, post);
    OpenFound(pre, body + Close + post);
    assert FindFrom(content, Open, 0) == Some(|pre|);
    FindsNext(pre + Open, body, Close, post);
    assert FindFrom(content, Close, |pre| + |Open|) == Some(|pre| + |Open| + |body|);
  }

  lemma Regroup(a: string, b: string, c: string, d: string, e: string)
    ensures a + b + c + d + e == a + b + (c + d + e)
  {
  }

  /** A content holding `pre [json] body [/json] post`, where `pre` holds no `[json]`
      and `body` no `[/json]`, yields the decoded `body` (or nothing for an empty body). */
  lemma ExtractRoundTrip(pre: string, body: string, post: string, decode: Decoder)
    requires Free(pre, Open) && Free(body, Close)
    ensures Body(pre + Open + body + Close + post) == Some(body)
    ensures ExtractJsonBlock(pre + Open + body + Close + post, decode)
            == if body == "" then None else decode(body)
  {
    SpanOf(pre, body, post);
    var content := pre + Open + body + Close + post;
    assert content[|pre| + |Open|..|pre| + |Open| + |body|] == body;
  }

  lemma OpenFound(pre: string, rest: string)
    requires Free(pre, Open)
    ensures FindFrom(pre + Open + rest, Open, 0) == Some(|pre|)
  {
    MarkersHeadUnique();
    assert "" + pre + Open + rest == pre + Open + rest;
    FindsNext("", pre, Open, rest);
  }

  /** A content without an opening marker has no block. */
  lemma NoOpenNoBlock(content: string, decode: Decoder)
    requires Free(content, Open)
    ensures ExtractJsonBlock(content, decode) == None
  {
  }

  /** A content whose only opening marker has no closing marker after it has no block. */
  lemma {:induction false} UnclosedNoBlock(pre: string, rest: string, decode: Decoder)
    requires Free(pre, Open) && Free(rest, Close)
    ensures ExtractJsonBlock(pre + Open + rest, decode) == None
  {
    MarkersHeadUnique();
    var content := pre + Open + rest;
    OpenFound(pre, rest);
    var h := |pre| + |Open|;
    forall i | i >= h
      ensures !OccursAt(content, Close, i)
    {
      if i + |Close| <= |content| {
        assert content[i..i + |Close|] == rest[i - h..i - h + |Close|];
        assert !OccursAt(rest, Close, i - h);
      }
    }
  }
}
