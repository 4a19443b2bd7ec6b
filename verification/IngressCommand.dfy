/**
  The command path as it runs: an in-memory record updated field by field, the
  saved copy, and the submit loop that drops the lock around each RPC.  Every
  method is proved equal to the function the protocol is stated with.
 */
module IngressCommand {
  import opened Options
  import IR = IngressRecords
  import opened IngressRecords
  import opened CommandProtocol
  import CommandSafety

  /** One RPC gap: the answer, what the state file holds at the reload, and the clock readings. */
  datatype Gap = Gap(answer: Response, reloaded: Option<Record>, now: real, retryAt: real, topAt: real, topOwner: Option<Owner>)

  /** A later send repeats an earlier one, or drops its worker fingerprint. */
  predicate Follows(earlier: RequestJson, later: RequestJson) {
    later == earlier || (HasFingerprint(earlier) && later == WithoutFingerprint(earlier))
  }

  /** After this gap the loop sent again: the reloaded record still had these bytes and its deadline ahead. */
  predicate Resent(gap: Gap, bytes: RequestJson) {
    && gap.reloaded.Some? && !Closed(gap.reloaded.value)
    && gap.reloaded.value.requestJson == Some(bytes) && gap.topAt < gap.reloaded.value.deadlineAt
  }

  /** What an invocation reports is the stored outcome of a closed record, or a retry of an open one. */
  predicate Reported(r: Record, child: Child) {
    if Closed(r) then r.outcome == Some(child) else child.checkpoint == RetryUpdate
  }

  class Submission {
    const c: Config
    var record: Record
    var saved: Option<Record>

    constructor (c: Config, r: Record)
      ensures this.c == c && record == r && saved == Some(r)
    {
      this.c := c;
      record, saved := r, Some(r);
    }

    method SaveState()
      modifies this`saved
      ensures saved == Some(record)
    {
      saved := Some(record);
    }

    /** None when the call raises; nothing is written before that. */
    method QuarantineRequest(reason: string, now: real, disposition: Option<Transport>, reply: string, handled: bool)
      returns (outcome: Option<Child>)
      modifies this`record
      ensures var e := IR.QuarantineRequest(c.fix, old(record), reason, now, disposition, reply, handled);
        record == e.record && outcome == if e.Returned? then Some(e.value) else None
    {
      if disposition !in {None, Some(TerminalUncertain)} || now < 0.0 { return None; }
      var verdict := if disposition == Some(TerminalUncertain) then DeliveryUnknown else NotDelivered;
      var blocked := c.fix(reason);
      if blocked == "" { blocked := if verdict == DeliveryUnknown then TRUTH_UNAVAILABLE else NOT_DELIVERED; }
      var action := if verdict == DeliveryUnknown then INSPECT_EVIDENCE else REVIEW_FAILURE;
      outcome := ChildResult(c.fix, record.requestId, HoldUpdate, disposition, PhaseTerminal, Some(verdict), reply, handled);
      if outcome.None? { return; }
      record := record.(state := Quarantined, updatedAt := now);
      record := record.(transport := disposition, phase := PhaseTerminal, verdict := Some(verdict));
      record := record.(checkpointAlreadyAdvanced := false, attention := true);
      record := record.(blockedReason := Some(blocked), nextAction := Some(action));
      record := record.(terminalAt := Some(now), quarantinedAt := Some(now), quarantineReason := Some(blocked));
      record := record.(outcome := outcome);
    }

    method MarkRetryable(disposition: Option<Transport>, now: real) returns (outcome: Option<Child>)
      modifies this`record
      ensures var e := IR.MarkRetryable(c.fix, old(record), disposition, now);
        record == e.record && outcome == if e.Returned? then Some(e.value) else None
    {
      if !RetryTransport(disposition) || record.requestJson.None? || now < 0.0 { return None; }
      record := record.(state := Retryable, updatedAt := now, transport := disposition, phase := PhaseRetryable);
      record := record.(verdict := None, checkpointAlreadyAdvanced := false, attention := false);
      record := record.(blockedReason := None, nextAction := None, terminalAt := None);
      record := record.(quarantinedAt := None, quarantineReason := None, outcome := None);
      outcome := ChildResult(c.fix, record.requestId, RetryUpdate, disposition, PhaseRetryable, None, "", true);
    }

    method AttachTargetOwner(owner: Owner, now: real) returns (changed: Option<bool>)
      modifies this`record
      ensures var e := IR.AttachTargetOwner(old(record), owner, now);
        record == e.record && changed == if e.Returned? then Some(e.value) else None
    {
      if !ValidOwner(owner) { return None; }
      if record.targetOwner.Some? {
        return if record.targetOwner.value != owner then None else Some(false);
      }
      if now < 0.0 { return None; }
      record := record.(targetOwner := Some(owner));
      record := record.(updatedAt := now);
      changed := Some(true);
    }

    /** May raise with the record already half changed, as the source does. */
    method AttachSubmissionReceipt(receipt: Receipt, now: real) returns (changed: Option<bool>)
      modifies this`record
      ensures var e := IR.AttachSubmissionReceipt(old(record), receipt, now);
        record == e.record && changed == if e.Returned? then Some(e.value) else None
    {
      hide AcceptableReceipt;
      if !AcceptableReceipt(record, receipt, now) { return None; }
      var turnId, submittedAt := record.turnId, record.submittedAt;
      if receipt.turnId.Some? { turnId := receipt.turnId; }
      if submittedAt.None? { submittedAt := Some(now); }
      var r := record.(submissionId := Some(receipt.submissionId), submissionState := receipt.state,
                       turnId := turnId, submittedAt := submittedAt);
      if receipt.state == Some(Linked) && turnId.None? {
        record := r;
        return None;
      }
      if turnId.Some? && r.linkedAt.None? { r := r.(linkedAt := Some(now)); }
      if r == record { return Some(false); }
      record := r.(updatedAt := now);
      changed := Some(true);
    }

    method StaleTargetRefresh(now: real) returns (raised: bool, refreshed: Option<RequestJson>)
      modifies this`record
      ensures var e := IR.StaleTargetRefresh(old(record), now);
        record == e.record && raised == e.Raised? && (!raised ==> refreshed == e.value)
    {
      raised, refreshed := false, None;
      if record.staleTargetRefreshed || record.requestJson.None? || !HasFingerprint(record.requestJson.value) { return; }
      var bytes := WithoutFingerprint(record.requestJson.value);
      if now < 0.0 || !ValidCommandRequest(bytes.request) { return true, None; }
      record := record.(requestJson := Some(bytes), staleTargetRefreshed := true, updatedAt := now);
      record := record.(transport := Some(NoReceipt), phase := PhaseRetryable);
      refreshed := Some(bytes);
    }

    /** Quarantine and save, or raise without saving. */
    method QuarantineAndSave(reason: string, now: real, disposition: Option<Transport>) returns (d: Decision)
      modifies this
      ensures d == Quarantine(c, old(record), reason, now, disposition)
      ensures if d.Answer? then record == d.record && saved == Some(record) else saved == old(saved)
    {
      var outcome := QuarantineRequest(reason, now, disposition, QUARANTINE_REPLY, true);
      if outcome.None? { return Fails; }
      SaveState();
      d := Answer(record, outcome.value);
    }

    method RetryAndSave(disposition: Option<Transport>, now: real) returns (d: Decision)
      modifies this
      ensures d == Done(IR.MarkRetryable(c.fix, old(record), disposition, now))
      ensures if d.Answer? then record == d.record && saved == Some(record) else saved == old(saved)
    {
      var outcome := MarkRetryable(disposition, now);
      if outcome.None? { return Fails; }
      SaveState();
      d := Answer(record, outcome.value);
    }

    /** The top of the loop, up to the point where the lock is dropped. */
    method LoopTop(now: real, owner: Option<Owner>) returns (d: Decision)
      modifies this
      ensures d == CommandProtocol.LoopTop(c, old(record), now, owner)
      ensures d.Answer? || d.Send? ==> record == d.record
      ensures d.Answer? ==> saved == Some(record)
      ensures d.Send? ==> record == old(record) || saved == Some(record)
    {
      if now >= record.deadlineAt {
        d := QuarantineAndSave(DEADLINE_REACHED, now, None);
        return;
      }
      if record.requestJson.None? {
        d := QuarantineAndSave(MISSING_JSON, now, None);
        return;
      }
      var bytes := record.requestJson.value;
      if record.targetOwner.None? && bytes.Canonical? && bytes.request.responseV3 && owner.Some? {
        var changed := AttachTargetOwner(owner.value, now);
        if changed.None? { return Fails; }
        SaveState();
      }
      d := Send(record, bytes);
    }

    /** Reduce a terminal answer and save; a raising reduction leaves the record alone. */
    method TerminalAndSave(disposition: Transport, now: real) returns (d: Decision)
      modifies this
      ensures d == Done(IR.MarkTerminal(c.fix, old(record), disposition, now))
      ensures if d.Answer? then record == d.record && saved == Some(record) else saved == old(saved)
    {
      var e := IR.MarkTerminal(c.fix, record, disposition, now);
      if e.Raised? { return Fails; }
      record := e.record;
      SaveState();
      d := Answer(record, e.value);
    }

    method ReduceAccepted(receipt: Option<Receipt>, owner: Option<Owner>, now: real) returns (d: Decision)
      modifies this
      ensures d == AfterAccepted(c, old(record), Accepted(receipt, owner), now)
      ensures if d.Answer? then record == d.record && saved == Some(record) else saved == old(saved)
    {
      if receipt.Some? {
        if record.targetOwner.None? && owner.Some? {
          var changed := AttachTargetOwner(owner.value, now);
          if changed.None? { return Fails; }
        }
        var attached := AttachSubmissionReceipt(receipt.value, now);
        if attached.None? {
          d := QuarantineAndSave(INVALID_RECEIPT, now, None);
          return;
        }
      }
      d := TerminalAndSave(TerminalAccepted, now);
    }

    /** Reload, reconcile with whatever others stored meanwhile, and reduce the answer. */
    method Reduce(bytes: RequestJson, replayed: bool, answer: Response, now: real, retryAt: real) returns (d: Decision)
      modifies this
      ensures d == AfterRpc(c, old(record), bytes, replayed, answer, now, retryAt)
      ensures d.Answer? || d.Again? ==> record == d.record
      ensures d.Again? && d.refreshed ==> saved == Some(record)
    {
      if Closed(record) && record.outcome.Some? { return Answer(record, record.outcome.value); }
      if record.requestJson != Some(bytes) {
        d := QuarantineAndSave(CONFLICTING, now, None);
        return;
      }
      if answer.Accepted? {
        d := ReduceAccepted(answer.receipt, answer.owner, now);
        return;
      }
      if answer.Rejected? {
        d := TerminalAndSave(TerminalRejected, now);
        return;
      }
      if answer.Uncertain? {
        d := QuarantineAndSave(UNCERTAIN, now, Some(TerminalUncertain));
        return;
      }
      if answer.StillInProgress? && !replayed { return Again(record, true, false); }
      if answer.BadAnswer? {
        d := QuarantineAndSave(INVALID_RESULT, now, None);
        return;
      }
      if now >= record.deadlineAt {
        d := QuarantineAndSave(DEADLINE_REACHED, now, None);
        return;
      }
      if answer.NoReceiptYet? && answer.staleTarget {
        if retryAt >= record.deadlineAt {
          d := QuarantineAndSave(DEADLINE_REACHED, retryAt, None);
          return;
        }
        var raised, refreshed := StaleTargetRefresh(retryAt);
        if raised { return Fails; }
        if refreshed.Some? {
          SaveState();
          return Again(record, replayed, true);
        }
      }
      d := RetryAndSave(if answer.ProcessLost? then None
                        else if answer.StillInProgress? then Some(InProgress) else Some(NoReceipt), now);
    }

    /**
      The submit loop.  Between a send and its reload the state file may have
      become anything; the loop still ends, after at most three RPCs, each
      started before the deadline of the record it was read from, and a later
      send either repeats the bytes or drops the fingerprint once.
     */
    method Submit(start: real, startOwner: Option<Owner>, gaps: seq<Gap>)
      returns (answer: Option<Child>, sent: seq<RequestJson>)
      requires |gaps| >= 3 && !Closed(record)
      modifies this
      ensures |sent| <= 3
      ensures forall j, k | 0 <= j < k < |sent| :: Follows(sent[j], sent[k])
      ensures |sent| > 0 ==> start < old(record).deadlineAt
      ensures forall j | 0 <= j < |sent| - 1 :: Resent(gaps[j], sent[j])
      ensures answer.Some? ==> Reported(record, answer.value)
    {
      hide CommandProtocol.LoopTop, AfterRpc, RequestIdOf;
      sent := [];
      CommandSafety.LoopTopSound(c, record, start, startOwner);
      var d := LoopTop(start, startOwner);
      var replayed, refreshed := false, false;
      while d.Send?
        invariant !d.Again? && |sent| <= 3
        invariant d.Send? ==> |sent| == (if replayed then 1 else 0) + (if refreshed then 1 else 0)
        invariant d.Send? && refreshed ==> !HasFingerprint(d.bytes)
        invariant |sent| > 0 || d.Send? ==> start < old(record).deadlineAt
        invariant forall j, k | 0 <= j < k < |sent| :: Follows(sent[j], sent[k])
        invariant d.Send? ==> forall j | 0 <= j < |sent| :: Follows(sent[j], d.bytes)
        invariant forall j | 0 <= j < |sent| - (if d.Send? then 0 else 1) :: Resent(gaps[j], sent[j])
        invariant d.Answer? ==> record == d.record && Reported(record, d.child)
        decreases 2 - (if replayed then 1 else 0) - (if refreshed then 1 else 0), d.Send?
      {
        var bytes := d.bytes;
        var gap := gaps[|sent|];
        sent := sent + [bytes];
        var shell := Reloaded(c, gap.reloaded, gap.now);
        if shell.None? {
          d := Fails;
          break;
        }
        record := shell.value;
        if Closed(record) && record.outcome.None? {       // only a corrupt record is closed without an outcome
          d := Fails;
          break;
        }
        if Closed(record) { CommandSafety.ClosedAnswers(c, record, bytes, replayed, gap.answer, gap.now, gap.retryAt); }
        else { CommandSafety.AfterRpcSound(c, record, bytes, replayed, gap.answer, gap.now, gap.retryAt); }
        d := Reduce(bytes, replayed, gap.answer, gap.now, gap.retryAt);
        if d.Again? {
          replayed, refreshed := d.replayed, refreshed || d.refreshed;
          CommandSafety.LoopTopSound(c, record, gap.topAt, gap.topOwner);
          d := LoopTop(gap.topAt, gap.topOwner);
        }
      }
      answer := if d.Answer? then Some(d.child) else None;
    }
  }
}
