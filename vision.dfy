/**
 * The item-recognition adapter (`OpenAIVision.RecognizeProductsFromImage`) from the point where
 * the model's reply is in hand: cut out the candidate object and decode it, or, when the reply has
 * no '{' before a '}', fall back to its non-empty brace-free lines. The chat-completion request is
 * an oracle: its outcome is the `reply` parameter (None when the request failed), and
 * `json.Unmarshal` into `RecognizedItems` is the opaque `decode` parameter, which yields the
 * `items` field on success.
 */
module Vision {
  import opened Wrappers
  import opened GoStrings
  import opened StructuredOutput

  /** Why recognition failed: the request, `json.Unmarshal`, or no products found. */
  datatype VisionError = RequestFailed | DecodeFailed | NoProducts

  /** A trimmed line the fallback keeps: non-empty and free of both braces. */
  predicate KeepLine(t: string) {
    t != "" && '{' !in t && '}' !in t
  }

  /**
   * The fallback's item list for `lines`: each line trimmed, the kept ones in their original
   * order. Every item it yields is non-empty and brace-free.
   */
  function KeptLines(lines: seq<string>): (items: seq<string>)
    ensures |items| <= |lines|
    ensures forall k :: 0 <= k < |items| ==> KeepLine(items[k])
  {
    if lines == [] then []
    else
      var t := TrimSpace(lines[|lines| - 1]);
      KeptLines(lines[..|lines| - 1]) + (if KeepLine(t) then [t] else [])
  }

  /** The fallback commutes with concatenation, so it keeps the lines' order. */
  lemma {:induction false} KeptLinesAppend(a: seq<string>, b: seq<string>)
    ensures KeptLines(a + b) == KeptLines(a) + KeptLines(b)
    decreases |b|
  {
    if b == [] {
      assert a + b == a;
    } else {
      assert (a + b)[..|a + b| - 1] == a + b[..|b| - 1];
      KeptLinesAppend(a, b[..|b| - 1]);
    }
  }

  /** One line contributes its trimmed form exactly when that is non-empty and brace-free. */
  lemma KeptLinesSingle(line: string)
    ensures KeptLines([line]) == if KeepLine(TrimSpace(line)) then [TrimSpace(line)] else []
  {
    assert [line][..0] == [];
  }

  /** A reply with a kept line gives the fallback at least one item. */
  lemma {:induction false} KeptLinesNonEmpty(lines: seq<string>, k: int)
    requires 0 <= k < |lines| && KeepLine(TrimSpace(lines[k]))
    ensures |KeptLines(lines)| > 0
  {
    assert lines == lines[..k] + [lines[k]] + lines[k + 1..];
    KeptLinesAppend(lines[..k] + [lines[k]], lines[k + 1..]);
    KeptLinesAppend(lines[..k], [lines[k]]);
    KeptLinesSingle(lines[k]);
  }

  /** The items the whole adapter returns, or the reason it fails. */
  function Recognize(reply: Option<string>, decode: string -> Option<seq<string>>)
    : (r: Result<seq<string>, VisionError>)
    ensures r.Ok? ==> |r.value| > 0
  {
    match reply
    case None => Err(RequestFailed)
    case Some(content) =>
      match JsonRegion(content)
      case None =>
        var items := KeptLines(Split(content, '\n'));
        if |items| > 0 then Ok(items) else Err(NoProducts)
      case Some(json) =>
        match decode(json)
        case None => Err(DecodeFailed)
        case Some(items) => if |items| == 0 then Err(NoProducts) else Ok(items)
  }

  /** The fallback loop: split the reply into lines, trim each, append the kept ones. */
  method FallbackItems(content: string) returns (items: seq<string>)
    ensures items == KeptLines(Split(content, '\n'))
  {
    var lines := Split(content, '\n');
    items := [];
    for i := 0 to |lines|
      invariant items == KeptLines(lines[..i])
    {
      var line := TrimSpace(lines[i]);
      assert lines[..i + 1][..i] == lines[..i];
      assert KeptLines(lines[..i + 1]) == KeptLines(lines[..i]) + (if KeepLine(line) then [line] else []);
      if line != "" && '{' !in line && '}' !in line {
        items := items + [line];
      }
    }
    assert lines[..|lines|] == lines;
  }

  /** RecognizeProductsFromImage after the request: region, decode, fallback, emptiness check. */
  method RecognizeProductsFromImage(reply: Option<string>, decode: string -> Option<seq<string>>)
    returns (r: Result<seq<string>, VisionError>)
    ensures r == Recognize(reply, decode)
  {
    if reply.None? {
      return Err(RequestFailed);
    }
    var content := reply.value;
    var jsonStart := IndexOf(content, '{');
    var jsonEnd := LastIndexOf(content, '}');
    if jsonStart == -1 || jsonEnd == -1 || jsonEnd <= jsonStart {
      assert JsonRegion(content).None?;
      var items := FallbackItems(content);
      if |items| > 0 {
        return Ok(items);
      }
      return Err(NoProducts);
    }
    var jsonContent := content[jsonStart..jsonEnd + 1];
    assert JsonRegion(content) == Some(jsonContent);
    var recognized := decode(jsonContent);
    if recognized.None? {
      return Err(DecodeFailed);
    }
    if |recognized.value| == 0 {
      return Err(NoProducts);
    }
    return Ok(recognized.value);
  }

  // ---------------------------------------------------------------------------------------------
  // Properties of the adapter

  /**
   * With a '{' before a '}', the text handed to the decoder is exactly the first '{' through the
   * last '}', and the adapter succeeds exactly when that decodes to a non-empty list, returning it.
   */
  lemma RegionDecides(content: string, decode: string -> Option<seq<string>>, i: int, j: int)
    requires 0 <= i < j < |content|
    requires content[i] == '{' && '{' !in content[..i]
    requires content[j] == '}' && '}' !in content[j + 1..]
    ensures Recognize(Some(content), decode).Ok? <==>
      decode(content[i..j + 1]).Some? && |decode(content[i..j + 1]).value| > 0
    ensures Recognize(Some(content), decode).Ok? ==>
      Recognize(Some(content), decode).value == decode(content[i..j + 1]).value
  {
    JsonRegionIsFirstToLast(content, i, j);
  }

  /** A decoding failure is final: the line fallback is never tried after it. */
  lemma DecodeFailureIsFinal(content: string, decode: string -> Option<seq<string>>)
    requires JsonRegion(content).Some? && decode(JsonRegion(content).value).None?
    ensures Recognize(Some(content), decode) == Err(DecodeFailed)
  {
  }

  /** A decoded object whose `items` list is empty is the no-products error. */
  lemma EmptyItemsRejected(content: string, decode: string -> Option<seq<string>>)
    requires JsonRegion(content).Some? && decode(JsonRegion(content).value) == Some([])
    ensures Recognize(Some(content), decode) == Err(NoProducts)
  {
  }

  /**
   * Without a '{' before a '}', the decoder is never consulted: the result is the trimmed kept
   * lines in order when there is one, and the no-products error otherwise.
   */
  lemma FallbackWithoutRegion(content: string, decode: string -> Option<seq<string>>)
    requires !HasBracePair(content)
    ensures Recognize(Some(content), decode) ==
      (if |KeptLines(Split(content, '\n'))| > 0 then Ok(KeptLines(Split(content, '\n'))) else Err(NoProducts))
  {
  }

  /**
   * Without a '{' before a '}', a reply whose lines are `lines` and one of which survives
   * trimming and the brace test is recognised as exactly the kept lines.
   */
  lemma FallbackFindsLines(lines: seq<string>, decode: string -> Option<seq<string>>, k: int)
    requires |lines| >= 1 && forall i :: 0 <= i < |lines| ==> '\n' !in lines[i]
    requires !HasBracePair(Join(lines, '\n'))
    requires 0 <= k < |lines| && KeepLine(TrimSpace(lines[k]))
    ensures Recognize(Some(Join(lines, '\n')), decode) == Ok(KeptLines(lines))
  {
    SplitJoin(lines, '\n');
    KeptLinesNonEmpty(lines, k);
  }
}
