/**
 * The two chat protocols' messages (internal/anthropic/types.go and the maps internal/convert builds):
 * Anthropic messages come in, OpenAI chat messages go out.
 */
module Chat {
  import opened Wrappers

  datatype Source = Source(typ: string, mediaType: string, mimeType: string, data: string, url: string)

  /** One element of a tool_result's content list; `json` is its own serialization. */
  datatype Entry =
    | Object(typ: string, text: string, source: Option<Source>, detail: string, json: string)
    | Bare(text: string)

  /** A tool_result's content, decoded. */
  datatype ToolContent = NoContent | Whole(text: string) | Entries(entries: seq<Entry>)

  /** All block types share one record, as in the source; `args` is the input's canonical serialization. */
  datatype Block = Block(typ: string, text: string, thinking: string, id: string, name: string, args: string,
                         content: ToolContent, isError: bool, toolUseID: string, source: Option<Source>,
                         detail: string, title: string, context: string)

  function TextBlockOf(text: string): Block
  {
    Block("text", text, "", "", "", "", NoContent, false, "", None, "", "", "")
  }

  datatype Content = Str(text: string) | Blocks(blocks: seq<Block>) | Absent

  datatype Message = Message(role: string, content: Content, reasoning: Option<string>)

  // ---- OpenAI chat ----

  datatype Part = TextPart(text: string) | ImagePart(url: string, detail: string) | FilePart(filename: string,
        data: string)

  datatype OutContent = Text(text: string) | Parts(parts: seq<Part>)

  datatype ToolCall = ToolCall(id: string, name: string, args: string)

  /** A message without tool calls has no such field; likewise its reasoning and the id of a tool result. */
  datatype OutMessage = OutMessage(role: string, content: OutContent, toolCalls: seq<ToolCall>,
                                   reasoning: Option<string>, toolCallID: Option<string>)

  function UserText(s: string): OutMessage
  {
    OutMessage("user", Text(s), [], None, None)
  }

  function UserParts(parts: seq<Part>): OutMessage
  {
    OutMessage("user", Parts(parts), [], None, None)
  }

  /** strings.Join. */
  function JoinWith(parts: seq<string>, sep: string): string
  {
    if parts == [] then ""
    else if |parts| == 1 then parts[0]
    else JoinWith(parts[..|parts| - 1], sep) + sep + parts[|parts| - 1]
  }

  predicate IsToolResult(typ: string)
  {
    typ == "tool_result" || typ == "web_search_tool_result" || typ == "web_fetch_tool_result"
  }

  /** unicode.ToLower on the letters that end up in ASCII; every other rune stays outside ASCII. */
  function LowerChar(c: char): char
  {
    if 'A' <= c <= 'Z' then (c as int + 32) as char
    else if c == '\U{0130}' then 'i'
    else if c == '\U{212A}' then 'k'
    else c
  }

  function Lower(s: string): string
  {
    seq(|s|, i requires 0 <= i < |s| => LowerChar(s[i]))
  }

  predicate IsImageMime(mime: string)
  {
    "image/" <= Lower(mime)
  }

  function MediaType(src: Source): string
  {
    if src.mediaType != "" then src.mediaType else src.mimeType
  }

  function DataURL(mediaType: string, data: string): string
  {
    if "data:" <= data then data else "data:" + mediaType + ";base64," + data
  }

  /** The image_url part of a source, or none when the source is no image. */
  function ImagePartOf(source: Option<Source>, detail: string): Option<Part>
  {
    if source == None then None
    else
      var src := source.value;
      if src.typ == "base64" then
        var mediaType := if MediaType(src) != "" then MediaType(src) else "image/png";
        if src.data == "" || !IsImageMime(mediaType) then None
            else Some(ImagePart(DataURL(mediaType, src.data), detail))
      else if src.typ == "url" then
        (if src.url == "" then None else Some(ImagePart(src.url, detail)))
      else None
  }
}
