/**
 * What the lead forms share: the JSON object they POST to the contact
 * endpoint, how that request can end, and the analytics events they log.
 */
module Forms {

  /** A flat JSON object of string fields, as `JSON.stringify` sends it. */
  type Payload = map<string, string>

  /**
   * How an awaited `fetch('/api/contact-form', …)` ends: a response with
   * `ok` set, a response without it, or a thrown error (the network failed,
   * or, where the form awaits `response.json()`, the body was not JSON).
   */
  datatype FetchOutcome = Ok | NotOk | Failed

  /** The analytics calls of the forms, kept as an event log. */
  datatype TrackEvent =
    | ModalOpen(modal: string)
    | FormStart(form: string)
    | FormSubmit(form: string, success: bool)

  /** The number of `FormStart` events in a log. */
  function FormStarts(log: seq<TrackEvent>): nat
  {
    if log == [] then 0
    else FormStarts(log[..|log| - 1]) + (if log[|log| - 1].FormStart? then 1 else 0)
  }

  /** Appending events adds their form starts. */
  lemma {:induction false} FormStartsAppend(a: seq<TrackEvent>, b: seq<TrackEvent>)
    ensures FormStarts(a + b) == FormStarts(a) + FormStarts(b)
    decreases |b|
  {
    if b != [] {
      assert (a + b)[..|a + b| - 1] == a + b[..|b| - 1];
      FormStartsAppend(a, b[..|b| - 1]);
    } else {
      assert a + b == a;
    }
  }
}
