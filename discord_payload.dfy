/**
 * The parts of discordgo's MessageEmbed that both Discord formatters fill in; the footer is
 * reduced to its text.
 */
module DiscordPayload {
  datatype Embed = Embed(title: string, color: int, timestamp: string, footer: string, description: string)

  const Footer: string := "ZetaChain Governance"
}
