/** The outcome of committing a database session. */
module Session {
  import opened Wrappers
  import opened Text

  /** `None` when the commit succeeds, otherwise the text of the exception. */
  type CommitResult = Option<string>

  const ALREADY_BEGUN: string := "transaction is already begun"

  /** The seeding helpers treat this commit error as harmless and flush instead. */
  predicate FlushRecovers(error: string)
  {
    Contains(error, ALREADY_BEGUN)
  }

  /** Whether the seeding helpers report success for a commit outcome. */
  predicate SeedCommitted(commit: CommitResult)
  {
    commit.None? || FlushRecovers(commit.value)
  }
}
