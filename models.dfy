/** The platform-independent notification built from a proposal (pkg/models/notification.go). */
module Models {
  import opened Zetachain

  datatype Notification = Notification(
    network: string,
    proposalId: string,
    title: string,
    summary: string,
    status: string,
    upgradeName: string,
    targetHeight: string,
    binaryUrls: map<string, string>,
    checksums: map<string, string>,
    yesVotes: string,
    noVotes: string,
    abstainVotes: string,
    vetoVotes: string,
    totalVotes: string,
    submitTime: Time,
    votingEndTime: Time,
    expedited: bool,
    failedReason: string,
    totalDeposit: seq<Deposit>)
}
