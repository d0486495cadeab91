/**
 * What a configuration step reports: the warnings it printed and either its
 * value or the fatal error after which the process exits with code 1
 * (`Logger.error` with its default `fatal = true`).
 */
module Reports {

  datatype Resolved<+T> =
    | Resolved(value: T, warnings: seq<string>)
    | Fatal(warnings: seq<string>, error: string)
  {
    /** The warnings printed before this step finished or stopped. */
    function Printed(): seq<string> {
      match this
      case Resolved(_, w) => w
      case Fatal(w, _) => w
    }
  }
}
