/** The provider-neutral messages every other module reads: content blocks, messages, and
    the rows a thread's transcript stores them in. */
module Messages {

  datatype Option<+T> = None | Some(value: T)

  datatype Result<+T, +E> = Ok(value: T) | Err(error: E)

  datatype Role = System | User | Assistant | Tool

  datatype Block =
    | TextBlock(text: string)
    | AssetBlock(storageKey: string, mime: string, publicId: Option<string>)
    | InlineImageBlock(mediaType: string, data: string)
    | UrlImageBlock(url: string)

  datatype Content = NoContent | Plain(text: string) | Blocks(blocks: seq<Block>)

  datatype ToolCall = ToolCall(id: string, name: string, arguments: string)

  /** The place of a row in its store's counter: `msg_<n>`. */
  type MessageId = nat

  /** What a compaction row carries. `reason` and the figures before are the trigger's. */
  datatype CompactionBlock = CompactionBlock(
    summary: string,
    kept: seq<MessageId>,
    reason: string,
    tokensBefore: int,
    imagesBefore: int,
    tokensAfter: int,
    imagesAfter: int)

  /** `Compaction` marks a compaction row. Its content is exactly one block, kept here. */
  datatype Kind = Conversation | Compaction(block: CompactionBlock)

  /** `unseen` is the length of what is sent with a message and is not its text: the thought
      summary and the reasoning items. `usage` is the reported (input, output) tokens. */
  datatype Message = Message(
    role: Role,
    content: Content,
    toolCalls: seq<ToolCall>,
    toolCallId: Option<string>,
    name: Option<string>,
    tag: Option<string>,
    kind: Kind,
    usage: Option<(nat, nat)>,
    unseen: nat)

  /** A transcript row. A row that is not stored yet has no id. */
  datatype Row = Row(id: Option<MessageId>, message: Message)

  function UserMessage(content: Content, tag: Option<string>): Message {
    Message(User, content, [], None, None, tag, Conversation, None, 0)
  }

  function CompactionMessage(block: CompactionBlock): Message {
    Message(User, NoContent, [], None, None, None, Compaction(block), None, 0)
  }

  function ToolMessage(callId: string, name: string, content: Content): Message {
    Message(Tool, content, [], Some(callId), Some(name), Some("tool:" + name), Conversation, None, 0)
  }

  function CallIds(message: Message): set<string> {
    set k | 0 <= k < |message.toolCalls| :: message.toolCalls[k].id
  }

  function MessagesOf(rows: seq<Row>): seq<Message> {
    seq(|rows|, k requires 0 <= k < |rows| => rows[k].message)
  }

  function IdsOf(rows: seq<Row>): seq<Option<MessageId>> {
    seq(|rows|, k requires 0 <= k < |rows| => rows[k].id)
  }
}
