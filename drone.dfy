/** The Drone CI records the exporter reads, and the CI client it reads
    them through. The client is a foreign library: here it is two total
    functions, so every call succeeds. */
module Drone {
  import opened Base

  /** A repository as listed by the CI server. */
  datatype Repo = Repo(slug: string, namespace: string, name: string)

  /** One step of a stage; timestamps are raw Unix seconds, 0 when unset. */
  datatype Step = Step(name: string, status: string, started: Int64, stopped: Int64)

  /** One stage of a build, with its steps in order. */
  datatype Stage = Stage(
    name: string, os: string, arch: string, status: string,
    created: Int64, started: Int64, stopped: Int64, updated: Int64,
    steps: seq<Step>)

  /** A build. The same record serves as the summary in a build list
      (where `stages` is usually empty) and as the full detail of one
      build. */
  datatype Build = Build(
    number: Int64, status: string, source: string, target: string, sender: string,
    created: Int64, started: Int64, finished: Int64, updated: Int64,
    stages: seq<Stage>)

  /** The CI client: `buildList(repo, page)` is one page (of the fixed
      page size) of the repository's builds, newest first, and
      `build(repo, number)` is the detail of one build. */
  datatype Client = Client(
    buildList: (Repo, nat) -> seq<Build>,
    build: (Repo, Int64) -> Build)
}
