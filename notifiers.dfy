/**
 * Package notifiers: the proposal status codes and FormatStatus of
 * pkg/notifiers/commonFormatter.go, the label every current formatter prints.
 */
module Notifiers {
  const VotingPeriod: string := "PROPOSAL_STATUS_VOTING_PERIOD"
  const Passed: string := "PROPOSAL_STATUS_PASSED"
  const Rejected: string := "PROPOSAL_STATUS_REJECTED"

  predicate IsKnownStatus(status: string) {
    status == VotingPeriod || status == Passed || status == Rejected
  }

  /** A readable label with an emoji for the three known statuses; anything else unchanged. */
  function FormatStatus(status: string): string {
    if status == VotingPeriod then "\U{1F5F3}\U{FE0F} Voting Period"
    else if status == Passed then "\U{2705} Passed"
    else if status == Rejected then "\U{274C} Rejected"
    else status
  }

  lemma FormatStatusLabels()
    ensures FormatStatus(VotingPeriod) == "\U{1F5F3}\U{FE0F} Voting Period"
    ensures FormatStatus(Passed) == "\U{2705} Passed"
    ensures FormatStatus(Rejected) == "\U{274C} Rejected"
  {
  }

  /** The label differs from its input exactly for the three known statuses; "voting_period" is not one. */
  lemma FormatStatusChangesOnlyKnown(status: string)
    ensures FormatStatus(status) != status <==> IsKnownStatus(status)
    ensures FormatStatus("voting_period") == "voting_period"
  {
  }

  /** The three known statuses get pairwise distinct labels. */
  lemma KnownLabelsDistinct()
    ensures FormatStatus(VotingPeriod) != FormatStatus(Passed)
    ensures FormatStatus(VotingPeriod) != FormatStatus(Rejected)
    ensures FormatStatus(Passed) != FormatStatus(Rejected)
  {
  }

  /** A label is never itself a status code, so formatting twice changes nothing. */
  lemma FormatStatusIdempotent(status: string)
    ensures FormatStatus(FormatStatus(status)) == FormatStatus(status)
  {
  }
}
