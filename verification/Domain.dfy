/** The values that travel between the browser pages, the Flask routes and Redis. */
module Domain {

  datatype Option<+T> = None | Some(value: T)

  type SessionId = string

  /** A public key in JSON Web Key form; nothing but its identity matters here. */
  type Jwk(==,!new)

  datatype Phase = WaitingForBob | Verified | Failed

  /** Payloads of the event stream. */
  datatype Event =
    | ConnectedEvent(phase: Phase)
    | VerifiedEvent(bobName: string, bobKey: Jwk, score: int)
    | FailedEvent(score: int)
    | ExpiredEvent

  /** Membership in TERMINAL_EVENTS. */
  predicate IsTerminal(e: Event) {
    !e.ConnectedEvent?
  }

  /** The validated body of a verify request; the answer text only matters through its embedding. */
  datatype BobRequest = BobRequest(bobName: string, bobKey: Jwk)

  /** The validated body of a create request, with the answer already embedded. */
  datatype Challenge = Challenge(aliceName: string, question: string, vector: seq<real>, aliceKey: Jwk)
}
