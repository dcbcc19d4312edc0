/** What the record of a minidsp shows in each slot after a run of operations, some of which fail. */
module MinidspTitles {
  import opened Common
  import opened MinidspDevice
  import opened MinidspCommands
  import opened MinidspController

  /** An operation and how it ended. */
  datatype Attempt = Attempt(op: Op, r: Result<(), OpError>)

  /** The record after an attempt. */
  function Attempted(rec: Record, t: Attempt): Record {
    if t.r.Ok? && Recordable(t.op, rec) then Recorded(t.op, rec)
    else if t.r == Err(SendFailed) && t.op.WritesBiquads() && 1 <= t.op.slot <= |rec.slots|
        then RecordFailed(rec, t.op.slot)
    else rec
  }

  /** Whatever an operation of the controller does, the record is then the one after the attempt. */
  lemma {:induction false} OutcomeIsAttempted(
      d: Descriptor, op: Op, rec: Record, dev: Device, r: Result<(), OpError>, rec': Record, dev': Device)
    requires Outcome(d, op, rec, dev, r, rec', dev')
    ensures rec' == Attempted(rec, Attempt(op, r))
  {
  }

  function AfterAttempts(rec: Record, ts: seq<Attempt>): Record {
    if ts == [] then rec else Attempted(AfterAttempts(rec, ts[..|ts| - 1]), ts[|ts| - 1])
  }

  /** The title and author an attempt leaves in its slot, if it leaves any. */
  function TitleOf(t: Attempt): Option<(string, Option<string>)> {
    if t.r.Ok? then
      match t.op
      case LoadFilter(_, e) => Some((e.title, Some(e.author)))
      case ClearFilter(_) => Some(("Empty", None))
      case LoadBiquads(_, _, inputs, _, _) => if inputs != [] then Some(("CUSTOM", None)) else None
      case _ => None
    else if t.r == Err(SendFailed) && (t.op.LoadFilter? || t.op.ClearFilter? || t.op.LoadBiquads?)
        then Some(("ERROR", None))
    else None
  }

  /** The attempt leaves a title in the slot. */
  predicate Titles(t: Attempt, slot: int) { TitleOf(t).Some? && t.op.Slot() == Some(slot) }

  lemma {:induction false} AttemptTitles(rec: Record, t: Attempt, slot: int)
    requires 1 <= slot <= |rec.slots|
    ensures |Attempted(rec, t).slots| == |rec.slots|
    ensures
      var s, s' := rec.slots[slot - 1], Attempted(rec, t).slots[slot - 1];
      (s'.last, s'.author) == if Titles(t, slot) then TitleOf(t).value else (s.last, s.author)
  {
  }

  /** After any run, a slot shows what the last attempt that left a title in it left: the entry's title and author after
      a load, "Empty" after a clear, "ERROR" after one that could not be sent. */
  lemma {:induction false} LastTitleIsShown(rec: Record, ts: seq<Attempt>, slot: int, k: nat)
    requires 1 <= slot <= |rec.slots| && k < |ts| && Titles(ts[k], slot)
    requires forall i :: k < i < |ts| ==> !Titles(ts[i], slot)
    ensures |AfterAttempts(rec, ts).slots| == |rec.slots|
    ensures
      var s := AfterAttempts(rec, ts).slots[slot - 1];
      (s.last, s.author) == TitleOf(ts[k]).value
    decreases |ts|
  {
    var n := |ts| - 1;
    SlotsStay(rec, ts[..n]);
    AttemptTitles(AfterAttempts(rec, ts[..n]), ts[n], slot);
    if k < n { LastTitleIsShown(rec, ts[..n], slot, k); }
  }

  lemma {:induction false} SlotsStay(rec: Record, ts: seq<Attempt>)
    ensures |AfterAttempts(rec, ts).slots| == |rec.slots|
  {
    if ts != [] { SlotsStay(rec, ts[..|ts| - 1]); }
  }
}
