/** Values that several components of the dashboard pass to each other. */
module Domain {
  import opened Options

  /** Token counts and cost of a session, or of one day of it. */
  datatype Usage = Usage(input: int, output: int, cacheRead: int, cacheWrite: int, cost: real, model: string)

  /** A stored agent. `updatedAt` counts nanoseconds from Go's zero time, and is None when missing
      or unparsable. */
  datatype Agent = Agent(target: string, harness: string, projDir: string, session: string, state: string,
                         pinnedState: string, pane: string, serverPID: string, branch: string, cwd: string,
                         worktreeCwd: string, updatedAt: Option<int>) {
    function EffectiveDir(): string { if worktreeCwd != "" then worktreeCwd else cwd }

    /** The zero time stands in for a time that is missing. */
    function Time(): int { updatedAt.Or(0, (t: int) => t) }
  }
}

/** Entries of a displayed conversation. */
module Conversation {
  datatype Role = Human | Assistant | PlanSaved

  datatype Entry = Entry(role: Role, content: string, timestamp: string, notification: bool)
}

/** What an agent may be blocked on. */
module BlockingTools {
  datatype Tool = NoTool | Plan | Question
}
