/**
 * The JSON commands exchanged with the worker process, after json_decode:
 * a record whose `type`, `content` and `tags` fields may each be missing.
 */
module Wire {
  import opened Common

  const SendToAllType: string := "send_to_all"
  const SendByTagType: string := "send_by_tag"

  /** The decoded JSON object; `None` is a field the object does not have. */
  datatype Fields = Fields(kind: Option<string>, content: Option<string>, tags: Option<seq<string>>)

  /** What the gateway makes of an inbound command. */
  datatype Command =
    | SendToAll(content: string)
    | SendByTag(tags: seq<string>, content: string)
    | Unknown

  /** A missing `content` is sent as the empty payload. */
  function Payload(content: Option<string>): string
  {
    if content.Some? then content.value else ""
  }

  /**
   * The switch of the worker-message handler. An undecodable message (`None`),
   * a missing type or any other type selects no case; a missing tag list is
   * walked as an empty one.
   */
  function Decode(data: Option<Fields>): (c: Command)
    ensures c.SendToAll? <==> data.Some? && data.value.kind == Some(SendToAllType)
    ensures c.SendByTag? <==> data.Some? && data.value.kind == Some(SendByTagType)
    ensures !c.Unknown? ==> c.content == Payload(data.value.content)
    ensures c.SendByTag? && data.value.tags.Some? ==> c.tags == data.value.tags.value
  {
    if data.None? then Unknown
    else
      var f := data.value;
      if f.kind == Some(SendToAllType) then SendToAll(Payload(f.content))
      else if f.kind == Some(SendByTagType) then
        SendByTag(if f.tags.Some? then f.tags.value else [], Payload(f.content))
      else Unknown
  }

  /** The command `sendToAll` writes to the worker link. */
  function ToAllMessage(content: string): (m: Fields)
    ensures Decode(Some(m)) == SendToAll(content)
  {
    Fields(Some(SendToAllType), Some(content), None)
  }

  /**
   * The command `sendByTag` writes, as written: the tag argument is not put in
   * it, so a reader of the command finds no tag to deliver to.
   */
  function ByTagMessage(content: string): (m: Fields)
    ensures m.tags.None?
    ensures Decode(Some(m)) == SendByTag([], content)
  {
    Fields(Some(SendByTagType), Some(content), None)
  }

  /** The command `sendByTag` evidently means to write: the tags travel with the content. */
  function ByTagMessageWithTags(tags: seq<string>, content: string): (m: Fields)
    ensures Decode(Some(m)) == SendByTag(tags, content)
  {
    Fields(Some(SendByTagType), Some(content), Some(tags))
  }

  /** The `$tag` argument of `sendByTag`: one tag string, or an array of tags. */
  datatype TagArgument = OneTag(tag: string) | ManyTags(tags: seq<string>)

  /** `(array)$tag`: a single tag string becomes a one-element list. */
  function TagList(arg: TagArgument): seq<string>
  {
    match arg
    case OneTag(t) => [t]
    case ManyTags(ts) => ts
  }

  /**
   * Passing one tag as a string or as a one-element array writes the same
   * command, which decodes to a by-tag command over exactly that tag.
   */
  lemma OneTagIsOneElementArray(t: string, content: string)
    ensures ByTagMessageWithTags(TagList(OneTag(t)), content) == ByTagMessageWithTags(TagList(ManyTags([t])), content)
    ensures Decode(Some(ByTagMessageWithTags(TagList(OneTag(t)), content))) == SendByTag([t], content)
  {
  }
}
