/** Record shapes shared by the project list and the project card. */
module Domain {
  import opened Nullable

  datatype CommitVelocity = CommitVelocity(week: int, month: int, quarter: int)

  datatype BusFactor = BusFactor(top1Percent: int, top3Percent: int)

  datatype IssueChurn = IssueChurn(opened30: int, closed30: int, opened90: int, closed90: int)

  /** The aliveness figures a card shows once they are loaded; `releaseCadence`
      is the mean number of days between releases, absent with fewer than two releases. */
  datatype AlivenessMetrics = AlivenessMetrics(
    daysSinceLastCommit: int,
    commitVelocity: CommitVelocity,
    busFactor: BusFactor,
    releaseCadence: Option<int>,
    issueChurn: IssueChurn)

  /** One entry of the project list; the last three fields are optional in the shape. */
  datatype Project = Project(
    id: string,
    name: string,
    description: string,
    stars: int,
    language: string,
    owner: string,
    ownerAvatarUrl: string,
    lastCommitDate: string,
    url: Option<string>,
    forks: Option<int>,
    openIssues: Option<int>)
}
