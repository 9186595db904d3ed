/**
 * The parts of the amp-go-thin client library that the web server touches.
 * The library itself is not part of this model: its data types appear here
 * as values, and the result of each of its session calls is an input
 * outcome (success with a token, success with a decision and a token, or an
 * error with its message).
 */
module Amp {

  /** A dynamically typed value of a context or decision map (Go `interface{}`). */
  datatype Value = BoolValue(b: bool) | StringValue(s: string)

  /** A context: attribute name to value (Go `map[string]interface{}`). */
  type Context = map<string, Value>

  /** A decision slot and its ordered list of possible values (`agt.CandidateField`). */
  datatype CandidateField = CandidateField(name: string, values: seq<Value>)

  /** Options for opening a session (`agt.SessionOpts`); an unset field is `""`. */
  datatype SessionOpts = SessionOpts(ampToken: string, userId: string)

  /** What a successful decide call returns (`agt.DecideResponse`). */
  datatype DecideResponse = DecideResponse(decision: map<string, Value>, ampToken: string)

  /** Result of `CreateNewSession`. */
  datatype CreateOutcome = Created | CreateFailed(err: string)

  /** Result of `DecideWithContext`. */
  datatype DecideOutcome = Decided(response: DecideResponse) | DecideFailed(err: string)

  /** Result of `Observe`: a refreshed token, or an error. */
  datatype ObserveOutcome = Observed(ampToken: string) | ObserveFailed(err: string)

  /** The answers the amp agent gives to the calls of one request. */
  datatype Replies = Replies(create: CreateOutcome, decide: DecideOutcome, observe: ObserveOutcome)
}
