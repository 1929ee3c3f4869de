/** The shape of the replies to one operation (`OperationStatus`, src/schema.rs). */
module OperationTrace {

  datatype Status = Ack | Ongoing | Completed | Failed

  predicate IsFinal(s: Status) { s.Completed? || s.Failed? }

  /** A long-running operation that has been acknowledged and is still going. */
  predicate Opened(t: seq<Status>)
  {
    t != [] && t[0] == Ack && forall i :: 1 <= i < |t| ==> t[i] == Ongoing
  }

  /** Nothing final has been sent yet. */
  predicate Unfinished(t: seq<Status>) { t == [] || Opened(t) }

  /** An optional acknowledgement, progress only after one, then exactly one final status. */
  predicate Finished(t: seq<Status>)
  {
    && t != [] && IsFinal(t[|t| - 1])
    && (|t| == 1 || (t[0] == Ack && forall i :: 1 <= i < |t| - 1 ==> t[i] == Ongoing))
  }

  /** One final status and nothing else. */
  predicate SingleReply(t: seq<Status>) { |t| == 1 && IsFinal(t[0]) }
}
