/**
 * The response-parsing ladder that every pipeline repeats after each provider call:
 * strip the response, cut out a fenced code block if there is one, strip again, decode,
 * and fall back to a dictionary that holds the raw response when decoding fails.
 */
module Extraction {
  import opened Strings
  import opened Records

  const JsonFence: string := "```json"
  const Fence: string := "```"

  /** Stripping a string that holds no `p` leaves one that holds no `p`. */
  lemma TrimKeepsAbsence(s: string, p: string)
    requires !Contains(s, p)
    ensures !Contains(Trim(s), p)
  {
    TrimSlice(s);
    var a := |s| - |TrimStart(s)|;
    NotContainsSlice(s, p, a, a + |Trim(s)|);
  }

  /**
   * `c.split(tag)[1].split("```")[0].strip()`: the stripped text after the first `tag`, up to
   * the next fence.
   */
  function BlockInterior(c: string, tag: string): (r: string)
    requires tag != [] && Contains(c, tag)
    ensures !Contains(r, Fence)
    ensures IsTrimmed(r)
  {
    var inner := SplitHead(SplitSecond(c, tag), Fence);
    TrimKeepsAbsence(inner, Fence);
    Trim(inner)
  }

  /**
   * The text that is handed to the JSON decoder: the interior of the first ```` ```json ````
   * block, else of the first ```` ``` ```` block, else the whole response; stripped in every
   * case. It never contains a fence and has no whitespace at either end.
   */
  function ExtractJson(content: string): (r: string)
    ensures !Contains(r, Fence)
    ensures IsTrimmed(r)
  {
    var c := Trim(content);
    if Contains(c, JsonFence) then BlockInterior(c, JsonFence)
    else if Contains(c, Fence) then BlockInterior(c, Fence)
    else c
  }

  /** A string without ```` ``` ```` has no ```` ```json ```` either. */
  lemma NoFenceNoJsonFence(s: string)
    requires !Contains(s, Fence)
    ensures !Contains(s, JsonFence)
  {
    if Contains(s, JsonFence) {
      ContainsPiece(s, JsonFence, Fence);
    }
  }

  /** Extraction is idempotent: extracting from an extracted text gives the same text. */
  lemma ExtractJsonIdempotent(content: string)
    ensures ExtractJson(ExtractJson(content)) == ExtractJson(content)
  {
    var r := ExtractJson(content);
    NoFenceNoJsonFence(r);
    TrimOfTrimmed(r);
    assert Trim(r) == r;
  }

  /** A response without any fence is decoded whole, after stripping. */
  lemma UnfencedResponse(content: string)
    requires !Contains(content, Fence)
    ensures ExtractJson(content) == Trim(content)
  {
    TrimKeepsAbsence(content, Fence);
    NoFenceNoJsonFence(Trim(content));
  }

  /** `Find` returns the first occurrence, so an occurrence with none before it is what it returns. */
  lemma FindIs(s: string, p: string, k: nat)
    requires OccursAt(s, p, k)
    requires forall j: nat :: j < k ==> !OccursAt(s, p, j)
    ensures Find(s, p) == k
  {
  }

  /** Where `body` holds no fence and does not end in a backtick, no fence starts inside `body` in `body + "```"`. */
  lemma NoFenceStartsInBody(body: string, j: nat)
    requires !Contains(body, Fence)
    requires body == [] || body[|body| - 1] != '`'
    requires j < |body|
    ensures !OccursAt(body + Fence, Fence, j)
  {
    var s := body + Fence;
    if j + 3 <= |body| {
      assert s[j..j + 3] == body[j..j + 3];
      assert !OccursAt(body, Fence, j);
    } else {
      assert s[|body| - 1] != '`';
    }
  }

  lemma NoJsonFenceAt(body: string, j: nat)
    requires !Contains(body, Fence)
    requires body == [] || body[|body| - 1] != '`'
    ensures !OccursAt(body + Fence, JsonFence, j)
  {
    var s := body + Fence;
    if j + 7 <= |s| {
      NoFenceStartsInBody(body, j);
      assert s[j..j + 7][..3] == s[j..j + 3];
    }
  }

  /**
   * In `body + "```"`, where `body` holds no fence and does not end in a backtick,
   * the first fence is the closing one, and there is no ```` ```json ````.
   */
  lemma ClosingFenceFirst(body: string)
    requires !Contains(body, Fence)
    requires body == [] || body[|body| - 1] != '`'
    ensures Find(body + Fence, Fence) == |body|
    ensures !Contains(body + Fence, JsonFence)
  {
    var s := body + Fence;
    assert s[|body|..|body| + 3] == Fence;
    forall j: nat | j < |body|
      ensures !OccursAt(s, Fence, j)
    {
      NoFenceStartsInBody(body, j);
    }
    assert OccursAt(s, Fence, |body|);
    FindIs(s, Fence, |body|);
    forall j: nat | j <= |s|
      ensures !OccursAt(s, JsonFence, j)
    {
      NoJsonFenceAt(body, j);
    }
  }

  /** The text after a leading ```` ```json ```` is everything after it up to the next ```` ```json ````. */
  lemma LeadingJsonFence(rest: string)
    ensures Contains(JsonFence + rest, JsonFence)
    ensures SplitSecond(JsonFence + rest, JsonFence) == SplitHead(rest, JsonFence)
  {
    var c := JsonFence + rest;
    assert c[0..7] == JsonFence;
    assert OccursAt(c, JsonFence, 0);
    FindIs(c, JsonFence, 0);
    assert c[7..] == rest;
  }

  /** The interior of a ```` ```json ```` block that opens the text and closes it. */
  lemma JsonBlockInterior(body: string)
    requires !Contains(body, Fence)
    requires body == [] || body[|body| - 1] != '`'
    ensures Contains(JsonFence + (body + Fence), JsonFence)
    ensures BlockInterior(JsonFence + (body + Fence), JsonFence) == Trim(body)
  {
    LeadingJsonFence(body + Fence);
    ClosingFenceFirst(body);
    FindContains(body + Fence, JsonFence);
    assert SplitHead(body + Fence, JsonFence) == body + Fence;
    assert (body + Fence)[..|body|] == body;
    assert SplitHead(body + Fence, Fence) == body;
  }

  /** A response that is exactly one ```` ```json ```` block is decoded from the block's stripped interior. */
  lemma JsonFencedResponse(body: string)
    requires !Contains(body, Fence)
    requires body == [] || body[|body| - 1] != '`'
    ensures ExtractJson(JsonFence + body + Fence) == Trim(body)
  {
    var c := JsonFence + (body + Fence);
    assert JsonFence + body + Fence == c;
    JsonBlockInterior(body);
    assert c[0] == '`' && c[|c| - 1] == '`';
    TrimOfTrimmed(c);
    StrippedWithJsonFence(c);
  }

  lemma StrippedWithJsonFence(c: string)
    requires Trim(c) == c
    requires Contains(c, JsonFence)
    ensures ExtractJson(c) == BlockInterior(c, JsonFence)
  {
  }

  /**
   * The decode step with its fallback: the decoded value, or `{rawKey: content}` holding the
   * original, unstripped response when the decoder raises.
   */
  function ParseOrRaw(parse: JsonParser, content: string, rawKey: string): Json {
    match parse(ExtractJson(content))
    case Success(j) => j
    case Failure(_) => JObject(map[rawKey := JStr(content)])
  }
}
