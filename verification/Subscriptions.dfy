/** A subscription record and the requests that create or change one. Times and durations are
    nanoseconds. */
module Subscriptions {
  import opened RuntimeModel

  datatype Status = StatusIdle | StatusUpdating | StatusReady | StatusFailed

  datatype Stage =
    StageIdle | StageFetching | StageParsing | StageResolving | StagePersisting | StageComplete | StageFailed

  datatype Validators = Validators(nodesHash: string, etag: string, lastModified: string)
  datatype Traffic = Traffic(upload: int, download: int, total: int)
  datatype Links = Links(expiresAt: int, title: string, webPage: string, support: string, movedTo: string)

  datatype Subscription = Subscription(
    id: string, name: string, url: string, enabled: bool, autoUpdate: bool, interval: int,
    headers: map<string, string>, status: Status, stage: Stage, nodes: seq<Node>,
    validators: Validators, errorCode: string, error: string, updatedAt: int, nextUpdateAt: int,
    traffic: Traffic, endpoints: seq<string>, links: Links)

  function SubscriptionId(s: Subscription): string { s.id }

  const NO_VALIDATORS := Validators("", "", "")
  const NO_TRAFFIC := Traffic(0, 0, 0)
  const NO_LINKS := Links(0, "", "", "", "")
}
