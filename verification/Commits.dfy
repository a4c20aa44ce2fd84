/** Commits of a task's branches, identified by what their trailers record. */
module Commits {
  type Repository = string

  /** The identity of a fix request: the stage that asked and its attempt number. */
  datatype RequestId = QualityRequest(attempt: nat) | ReviewRequest(attempt: nat)

  /** Who made a commit, as its trailers record; foreign commits were not made by the orchestrator. */
  datatype Origin = BaseCommit | ImplementationCommit(attempt: nat) | FixCommit(request: RequestId) | ForeignCommit

  datatype Commit = Commit(id: nat, origin: Origin)
}
