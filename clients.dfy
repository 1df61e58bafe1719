/** The older, smaller proposal records of internal/clients/rest.go, used by the legacy filter. */
module Clients {
  import opened Zetachain

  datatype Message = Message(msgType: string, name: string, time: Time)

  datatype Proposal = Proposal(proposalId: string, status: string, title: string, summary: string, messages: seq<Message>)
}
