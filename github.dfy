/**
 * The values of the GitHub API client library that the two screens touch.
 * Only the fields the screens read are modelled.
 */
module GitHub {
  datatype User = User(login: string)

  datatype Repository = Repository(owner: User, name: string)

  /** The owner/name pair a page request is built from. */
  datatype RepositoryId = RepositoryId(owner: string, name: string)

  /** The id the background task builds from the target repository. */
  function IdOf(r: Repository): RepositoryId {
    RepositoryId(r.owner.login, r.name)
  }
}
