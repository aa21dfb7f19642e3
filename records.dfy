/** The export's record types, reduced to the fields the cost estimate reads.
    Every other field of the schema (ids, titles, status, weights, metadata,
    parent and children links) is validated by the parser and then ignored. */
module Records {
  import opened Wrappers

  /** A message body: a content-type tag and its text parts. `parts` may be
      null in the export; a missing field defaults to the empty list. */
  datatype Content = Content(contentType: string, parts: Option<seq<string>>)

  /** The author of a message; `role` is free-form ("user", "assistant",
      "system", "tool", ...). */
  datatype Author = Author(role: string)

  /** A message. `createTime` is the optional creation time in whole epoch
      seconds (UTC). */
  datatype Message = Message(author: Author, createTime: Option<int>, content: Option<Content>)

  /** A node of a conversation's message tree; only its message is read. */
  datatype MappingItem = MappingItem(message: Option<Message>)

  /** A conversation: the values of its node-id-to-node mapping, in the
      mapping's insertion order. */
  datatype Conversation = Conversation(mapping: seq<MappingItem>)

  /** `content.parts or []`: the parts, with null read as no parts. */
  function PartsOrEmpty(c: Content): seq<string>
  {
    match c.parts
    case Some(ps) => ps
    case None => []
  }

  /** Python truthiness of `create_time`: present and not zero. */
  predicate HasCreateTime(m: Message)
  {
    m.createTime.Some? && m.createTime.value != 0
  }

  /** The UTC calendar date of an epoch-seconds timestamp, as a day number
      counted from 1970-01-01; earlier instants get negative day numbers. */
  function DayOf(seconds: int): (day: int)
    ensures day * 86400 <= seconds < day * 86400 + 86400
  {
    seconds / 86400
  }
}
