/** The fixed texts the agent puts into conversations. Proofs hold for any texts. */
module Wordings {
  datatype Wording = Wording(
    interrupted: string,
    summaryHeading: string,
    summaryReply: string,
    continueRequest: string,
    abortedByUser: string,
    errorPrefix: string,
    repeatedFailures: string,
    repeatedCalls: string,
    maxIterations: string)

  /** As in src/session.ts and src/agent.ts. */
  const ENGLISH := Wording(
    "{\"error\":\"Tool execution interrupted (connection lost)\"}",
    "[Earlier Conversation Summary]\n",
    "Understood, I have the context from our earlier conversation.",
    "Please continue from where you left off.",
    "[Aborted by user]",
    "Error: ",
    "[Stopped: repeated tool failures detected. Please try a different approach.]",
    "[Stopped: repetitive tool calls detected. Please try a different approach.]",
    "[Max iterations reached]")
}
