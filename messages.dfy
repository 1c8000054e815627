/** Chat messages as the LangChain message classes carry them, and the
    normalisation of model output to one string (`extract_text` in
    backend/langchainWorkflow.py). */
module Messages {
  import opened Wrappers
  import opened PyStr

  /** One element of a structured content list returned by the model. */
  datatype Block =
    | TextBlock(text: string)   // a dict that has a "text" key
    | OtherDict                 // a dict without a "text" key
    | StrBlock(s: string)       // a bare string element
    | OtherBlock                // any other element

  /** The `content` of a message: a string, a list of blocks, or any other
      Python value, given by its truthiness and its `str()`. */
  datatype Content =
    | Text(s: string)
    | Blocks(blocks: seq<Block>)
    | OtherValue(truthy: bool, repr: string)

  /** The message classes: HumanMessage, SystemMessage, AIMessage, ToolMessage. */
  datatype Role = Human | System | AI | Tool

  datatype ToolCall = ToolCall(name: string, args: string, id: string)

  /** A message; `name` is the optional `name` attribute and `toolCalls` the
      tool-call requests (only AI messages carry any). */
  datatype Message = Message(role: Role, content: Content, name: Option<string>, toolCalls: seq<ToolCall>)

  function Last<T>(s: seq<T>): T
    requires |s| > 0
  {
    s[|s| - 1]
  }

  // ---------------------------------------------------------------------------
  // extract_text
  // ---------------------------------------------------------------------------

  /** The string a single block contributes: the "text" of a dict that has
      one, a bare string itself, nothing for anything else. */
  function BlockPart(b: Block): seq<string> {
    match b
    case TextBlock(t) => [t]
    case StrBlock(s) => [s]
    case OtherDict => []
    case OtherBlock => []
  }

  /** The parts the loop of `extract_text` collects, in block order. */
  function TextParts(bs: seq<Block>): seq<string>
    decreases |bs|
  {
    if bs == [] then [] else TextParts(bs[..|bs| - 1]) + BlockPart(bs[|bs| - 1])
  }

  /** The text `extract_text` returns for a content value. */
  function NormalizedText(c: Content): string {
    match c
    case Text(s) => s
    case Blocks(bs) => Join("\n", TextParts(bs))
    case OtherValue(truthy, repr) => if truthy then repr else ""
  }

  /** `extract_text`: the loop over the blocks of a list, appending to `parts`. */
  method ExtractText(content: Content) returns (r: string)
    ensures r == NormalizedText(content)
  {
    match content {
      case Text(s) =>
        r := s;
      case Blocks(bs) =>
        var parts: seq<string> := [];
        var i := 0;
        while i < |bs|
          invariant 0 <= i <= |bs|
          invariant parts == TextParts(bs[..i])
        {
          assert bs[..i + 1][..i] == bs[..i];
          match bs[i] {
            case TextBlock(t) => parts := parts + [t];
            case StrBlock(s) => parts := parts + [s];
            case OtherDict =>
            case OtherBlock =>
          }
          i := i + 1;
        }
        assert bs[..|bs|] == bs;
        r := Join("\n", parts);
      case OtherValue(truthy, repr) =>
        r := if truthy then repr else "";
    }
  }

  /** The parts of a concatenation of block lists are the concatenated parts:
      every block contributes independently and in order. */
  lemma {:induction false} TextPartsAppend(a: seq<Block>, b: seq<Block>)
    ensures TextParts(a + b) == TextParts(a) + TextParts(b)
    decreases |b|
  {
    if b == [] {
      assert a + b == a;
    } else {
      var b', x := b[..|b| - 1], b[|b| - 1];
      assert b == b' + [x];
      assert a + b == (a + b') + [x];
      calc {
        TextParts(a + b);
        == { TextPartsSnoc(a + b', x); }
        TextParts(a + b') + BlockPart(x);
        == { TextPartsAppend(a, b'); }
        TextParts(a) + TextParts(b') + BlockPart(x);
        == { TextPartsSnoc(b', x); }
        TextParts(a) + TextParts(b);
      }
    }
  }

  lemma TextPartsSnoc(bs: seq<Block>, b: Block)
    ensures TextParts(bs + [b]) == TextParts(bs) + BlockPart(b)
  {
    assert (bs + [b])[..|bs|] == bs;
  }

  lemma TextPartsOne(b: Block)
    ensures TextParts([b]) == BlockPart(b)
  {
    assert [b][..0] == [];
  }

  /** Blocks that are neither a dict with "text" nor a string are dropped:
      inserting one anywhere does not change the normalised text. */
  lemma DroppedBlock(a: seq<Block>, b: Block, c: seq<Block>)
    requires BlockPart(b) == []
    ensures NormalizedText(Blocks(a + [b] + c)) == NormalizedText(Blocks(a + c))
  {
    TextPartsAppend(a + [b], c);
    TextPartsAppend(a, [b]);
    TextPartsAppend(a, c);
    TextPartsOne(b);
    assert TextParts(a + [b] + c) == TextParts(a) + TextParts(c);
  }

  function TextBlocks(parts: seq<string>): (bs: seq<Block>)
    ensures |bs| == |parts|
  {
    if parts == [] then [] else [TextBlock(parts[0])] + TextBlocks(parts[1..])
  }

  lemma {:induction false} TextBlocksParts(parts: seq<string>)
    ensures TextParts(TextBlocks(parts)) == parts
  {
    if parts != [] {
      TextBlocksParts(parts[1..]);
      TextPartsAppend([TextBlock(parts[0])], TextBlocks(parts[1..]));
      TextPartsOne(TextBlock(parts[0]));
      assert [parts[0]] + parts[1..] == parts;
    }
  }

  /** The structured and the plain form of the same text normalise alike: a
      list of text blocks gives what the single string joining them with
      newlines gives. */
  lemma BlocksMatchString(parts: seq<string>)
    ensures NormalizedText(Blocks(TextBlocks(parts))) == NormalizedText(Text(Join("\n", parts)))
  {
    TextBlocksParts(parts);
  }

  /** Normalisation loses nothing: when no collected part holds a newline and
      at least one part was collected, splitting the text on newlines gives
      the parts back in order. */
  lemma NormalizedTextSplits(bs: seq<Block>)
    requires |TextParts(bs)| >= 1
    requires forall i :: 0 <= i < |TextParts(bs)| ==> '\n' !in TextParts(bs)[i]
    ensures Split(NormalizedText(Blocks(bs)), '\n') == TextParts(bs)
  {
    SplitJoin(TextParts(bs), '\n');
  }
}
