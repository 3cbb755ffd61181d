/** What the console's hook runner hands to the plugin and expects back. */
module Hooks {
  import opened Wrappers

  /** An environment of the project; `environment` is its name. */
  datatype Environment = Environment(environment: string, stage: string)

  /** containsProd and containsHorsProd: the handlers import them from
      src/utils.ts and src/kubernetes.ts, neither of which defines them, so
      they are parameters with no known behaviour. */
  datatype StageClassifier = StageClassifier(
    containsProd: seq<Environment> -> bool,
    containsHorsProd: seq<Environment> -> bool)

  datatype Verdict = OK | KO

  datatype Status = Status(result: Verdict, message: Option<string>)

  /** `{ status, error? }`; the error is the thrown value the source serialises. */
  datatype Reply<+E> = Reply(status: Status, error: Option<E>)

  /** The `ro` and `rw` flags of a permission. */
  datatype Permissions = Permissions(ro: bool, rw: bool)
}
