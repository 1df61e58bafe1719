/**
 * The Slack webhook payload: Message, Block, Text and Attachment, declared identically in
 * pkg/notifiers/slack/slack.go and pkg/slack/slack.go. A block's text may be nil in Go,
 * here an Option.
 */
module SlackPayload {
  import opened Wrappers

  datatype Text = Text(textType: string, text: string)
  datatype Block = Block(blockType: string, text: Option<Text>)
  datatype Attachment = Attachment(color: string, blocks: seq<Block>)
  datatype Message = Message(text: string, blocks: seq<Block>, attachments: seq<Attachment>)

  /** A "section" block holding Markdown ("mrkdwn") text. */
  function MarkdownSection(text: string): Block {
    Block("section", Some(Text("mrkdwn", text)))
  }

  const FallbackPrefix: string := "New proposal notification for "

  /**
   * The shape both Slack formatters produce: fallback text naming the network, no top-level
   * blocks, and one attachment in `color` holding a header section and a details section.
   */
  predicate ProposalMessage(m: Message, network: string, color: string, header: string, details: string) {
    && m.text == FallbackPrefix + network
    && m.blocks == []
    && |m.attachments| == 1
    && m.attachments[0].color == color
    && |m.attachments[0].blocks| == 2
    && (forall b :: b in m.attachments[0].blocks ==> b.blockType == "section" && b.text.Some? && b.text.value.textType == "mrkdwn")
    && m.attachments[0].blocks[0].text.value.text == header
    && m.attachments[0].blocks[1].text.value.text == details
  }
}
