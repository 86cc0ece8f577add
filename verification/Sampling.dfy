/** Which evaluations the collector records (pmarb/main.py). Clock readings are microseconds, edges 1e-4 ticks. */
module Sampling {
  import opened Common
  import opened Samples

  const THROTTLE: int := 30_000_000
  const HEARTBEAT: int := 300_000_000

  /** What the detector reports of one pair, as far as the write policy reads it. */
  datatype Evaluation = Evaluation(size: nat, spread: int, edge: int, yesVenue: string)

  /** The `last_append` entry of a pair. */
  datatype Append = Append(lastT: int, lastEdge: Option<int>, wasViable: bool, yesVenue: string)

  const ABSENT: Append := Append(0, None, false, "")

  function SampleReason(isViable: bool, wasViable: bool, isStructured: bool, edge: int, lastEdge: Option<int>,
                        sinceLast: int): Option<Reason>
  {
    if isViable then Some(ViableRow)
    else if wasViable then Some(WindowClose)
    else if isStructured && lastEdge != Some(edge) && sinceLast >= THROTTLE then Some(EdgeChange)
    else if sinceLast >= HEARTBEAT then Some(Heartbeat)
    else None
  }

  /** The chain of reasons, each said on its own: a less specific one applies only when no more specific one does. */
  lemma ReasonsMean(isViable: bool, wasViable: bool, isStructured: bool, edge: int, lastEdge: Option<int>,
                    sinceLast: int)
    ensures var r := SampleReason(isViable, wasViable, isStructured, edge, lastEdge, sinceLast);
            var moved := isStructured && lastEdge != Some(edge) && sinceLast >= THROTTLE;
            && (r == Some(ViableRow) <==> isViable)
            && (r == Some(WindowClose) <==> wasViable && !isViable)
            && (r == Some(EdgeChange) <==> moved && !wasViable && !isViable)
            && (r == Some(Heartbeat) <==> sinceLast >= HEARTBEAT && !moved && !wasViable && !isViable)
            && (r.None? <==> sinceLast < HEARTBEAT && !moved && !wasViable && !isViable)
            && r != Some(Unsubscribed)
  {
  }

  function ReasonFor(entry: Append, ev: Evaluation, structured: bool, mono: int): Option<Reason> {
    SampleReason(ev.size > 0, entry.wasViable, structured, ev.edge, entry.lastEdge, mono - entry.lastT)
  }

  /** The entry after an evaluation: an unrecorded one only refreshes the viability and the direction. */
  function Advance(entry: Append, ev: Evaluation, structured: bool, mono: int): Append {
    if ReasonFor(entry, ev, structured, mono).Some?
    then Append(mono, Some(ev.edge), ev.size > 0, ev.yesVenue)
    else Append(entry.lastT, entry.lastEdge, ev.size > 0, ev.yesVenue)
  }

  /** The reasons whose rows the clock holds back. */
  predicate Throttled(r: Option<Reason>) {
    r == Some(EdgeChange) || r == Some(Heartbeat)
  }
}
