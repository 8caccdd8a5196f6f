/** Shared vocabulary of the model: optional values, the fatal outcome that
    `goutils.CheckErrFatal`, `log.Fatal` and `os.Exit(1)` stand for, the
    severity tags that replace the tool's ANSI colour codes, and the abstract
    result of a bounded fetch. */
module Common {

  datatype Option<T> = None | Some(value: T)

  /** `Ok` carries the value a step produced; `Fatal` means the process
      terminated there (a fatal log call, a failed check, or exit status 1). */
  datatype Outcome<T> = Ok(value: T) | Fatal(reason: string)

  /** The colours the tool prints with, as meanings:
      Plain = no colour, Neutral = cyan, Good = green, Alert = red,
      Failing = purple (a failed test), Disruption = orange. */
  datatype Severity = Plain | Neutral | Good | Alert | Failing | Disruption

  /** What `getBodyTimeout` hands back: the body, or the distinguished
      "download took too long" error. Every other transport error is fatal
      inside the fetch itself and is modelled as `TransportError`. */
  datatype Fetch = Body(text: string) | TimedOut | TransportError

  /** The reason a failed fetch gives when the caller makes it fatal. */
  function FetchFailure(f: Fetch): string {
    if f.TimedOut? then "download took too long" else "transport error"
  }

  /** One line the tool prints, with the colour it is printed in. */
  datatype Line = Line(sev: Severity, text: string)
}
