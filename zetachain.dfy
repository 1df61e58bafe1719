/** The proposal records returned by the governance REST endpoint (pkg/zetachain/rest.go). */
module Zetachain {

  /** A time.Time, observed only through IsZero and its RFC 1123 rendering. */
  datatype Time = Time(isZero: bool, rfc1123: string)

  datatype UpgradePlan = UpgradePlan(name: string, height: string, info: string)

  datatype MessageData = MessageData(authority: string, plan: UpgradePlan)

  /** An embedded proposal message; `msgType` is the JSON "@type" tag. */
  datatype Message = Message(msgType: string, data: MessageData)

  /** The four raw vote buckets, as decimal strings in base units. */
  datatype TallyResult = TallyResult(yesCount: string, noCount: string, abstainCount: string, noWithVetoCount: string)

  datatype Deposit = Deposit(denom: string, amount: string)

  datatype Proposal = Proposal(
    proposalId: string,
    status: string,
    title: string,
    summary: string,
    messages: seq<Message>,
    finalTallyResult: TallyResult,
    submitTime: Time,
    depositEndTime: Time,
    votingStartTime: Time,
    votingEndTime: Time,
    totalDeposit: seq<Deposit>,
    metadata: string,
    failedReason: string,
    expedited: bool)
}
