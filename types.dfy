/** The flat measurements written to the metrics store: one kind per
    level of a build's hierarchy. `time` is the raw Unix seconds the
    point is stamped with. */
module Types {
  import opened Base

  datatype Point =
    | BuildPoint(
        time: Int64, number: Int64, status: string,
        waitTime: Int64, duration: Int64,
        source: string, target: string,
        started: Int64, created: Int64, finished: Int64,
        buildId: Int64, tags: map<string, string>)
    | StagePoint(
        time: Int64, waitTime: Int64, duration: Int64,
        os: string, arch: string, status: string, name: string,
        buildId: Int64, tags: map<string, string>)
    | StepPoint(
        time: Int64, duration: Int64, name: string, status: string,
        buildId: Int64, tags: map<string, string>)
}
