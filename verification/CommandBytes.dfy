/**
  What crosses the wire: the bytes of one request id take at most two values,
  original then fingerprint-free, and one invocation sends at most three times.
 */
module CommandBytes {
  import opened Options
  import opened IngressRecords
  import opened RecordValidity
  import opened CommandProtocol
  import opened CommandSafety

  ghost predicate SwitchesAt(sent: seq<RequestJson>, k: nat, first: RequestJson, last: RequestJson) {
    && k <= |sent| && HasFingerprint(first) && last == WithoutFingerprint(first)
    && RequestIdOf(first) == RequestIdOf(last)
    && (forall i | 0 <= i < k :: sent[i] == first)
    && (forall i | k <= i < |sent| :: sent[i] == last)
  }

  /** What was sent from position `from` on is what the record's bytes and its rewrite flag say it is. */
  ghost predicate ByteInv(c: Config, s: System, from: nat) {
    && from <= |s.sent|
    && if Bytes(s).None? then s.sent[from..] == [] && !Rewritten(s)
       else
         && RequestIdOf(Bytes(s).value) == Some(c.id)
         && ((forall i | from <= i < |s.sent| :: s.sent[i] == Bytes(s).value)
             || (Rewritten(s) && exists k, first :: SwitchesAt(s.sent[from..], k, first, Bytes(s).value)))
  }

  /** The record is this request's, in its bytes too. */
  predicate OwnRecord(c: Config, s: System) {
    && (s.disk.Some? ==> s.disk.value.requestId == c.id)
    && (if Bytes(s).None? then !Rewritten(s) else RequestIdOf(Bytes(s).value) == Some(c.id))
  }

  lemma MoreOfTheSame(sent: seq<RequestJson>, k: nat, first: RequestJson, last: RequestJson)
    requires SwitchesAt(sent, k, first, last)
    ensures SwitchesAt(sent + [last], k, first, last)
  {
  }

  function Bytes(s: System): Option<RequestJson> { if s.disk.Some? then s.disk.value.requestJson else None }

  predicate Rewritten(s: System) { s.disk.Some? && s.disk.value.staleTargetRefreshed }

  /** How one step may move the stored bytes. */
  predicate StoredBytesMove(c: Config, s: System, s': System) {
    && (s.disk.Some? ==> s'.disk.Some? && s'.disk.value.requestId == s.disk.value.requestId)
    && (s.disk.None? && s'.disk.Some? ==> s'.disk.value.requestId == c.id && !Rewritten(s'))
    && (Bytes(s).None? && Bytes(s').Some? ==> RequestIdOf(Bytes(s').value) == Some(s'.disk.value.requestId))
    && (Bytes(s).None? ==> Rewritten(s') == Rewritten(s))
    && (Bytes(s).Some? && !(Bytes(s') == Bytes(s) && Rewritten(s') == Rewritten(s)) ==>
          && !Rewritten(s) && Rewritten(s') && HasFingerprint(Bytes(s).value)
          && Bytes(s') == Some(WithoutFingerprint(Bytes(s).value))
          && RequestIdOf(Bytes(s').value) == Some(Bytes(s).value.request.requestId))
  }

  /** How one step may move the log: append the bytes now stored, or start no call. */
  ghost predicate SentMove(s: System, s': System) {
    if s'.sent == s.sent then forall p | p in s'.procs && s'.procs[p].Calling? :: p in s.procs && s.procs[p].Calling?
    else Bytes(s').Some? && s'.sent == s.sent + [Bytes(s').value]
  }

  lemma EnterMoves(c: Config, s: System, e: Event)
    requires e.Enter? && Enabled(s, e) && !Prunes(s, e)
    ensures StoredBytesMove(c, s, Step(c, s, e))
  {
    Regions(c, s, e);
    if !Corrupt(c, s.disk) { ClosedRegions(c, s, e); }
    hide Entry, ValidRecord;
  }

  lemma ReloadMoves(c: Config, s: System, e: Event)
    requires e.Reload? && Enabled(s, e) && !Prunes(s, e)
    ensures StoredBytesMove(c, s, Step(c, s, e))
  {
    Regions(c, s, e);
    if !Corrupt(c, s.disk) { ClosedRegions(c, s, e); }
    hide AfterRpc, LoopTop, ValidRecord;
  }

  lemma StepMoves(c: Config, s: System, e: Event)
    requires Enabled(s, e) && !Prunes(s, e)
    ensures StoredBytesMove(c, s, Step(c, s, e))
  {
    if e.Enter? {
      EnterMoves(c, s, e);
    } else if e.Reload? {
      ReloadMoves(c, s, e);
    } else {
      AlikeRegions(c, s, e);
      hide AttachTargetOwner, AttachSubmissionReceipt, ValidRecord;
    }
  }

  lemma EnterSends(c: Config, s: System, e: Event)
    requires e.Enter? && Enabled(s, e) && !Prunes(s, e)
    ensures SentMove(s, Step(c, s, e))
  {
    Regions(c, s, e);
    if !Corrupt(c, s.disk) { ClosedRegions(c, s, e); }
    hide Entry, ValidRecord;
  }

  lemma ReloadSends(c: Config, s: System, e: Event)
    requires e.Reload? && Enabled(s, e) && !Prunes(s, e)
    ensures SentMove(s, Step(c, s, e))
  {
    Regions(c, s, e);
    if !Corrupt(c, s.disk) { ClosedRegions(c, s, e); }
    hide AfterRpc, LoopTop, ValidRecord;
  }

  lemma StepSends(c: Config, s: System, e: Event)
    requires Enabled(s, e) && !Prunes(s, e)
    ensures SentMove(s, Step(c, s, e))
  {
    if e.Enter? {
      EnterSends(c, s, e);
    } else if e.Reload? {
      ReloadSends(c, s, e);
    } else {
      AlikeRegions(c, s, e);
      hide AttachTargetOwner, AttachSubmissionReceipt, ValidRecord;
    }
  }

  lemma ByteMove(c: Config, s: System, s': System, from: nat)
    requires OwnRecord(c, s) && ByteInv(c, s, from) && StoredBytesMove(c, s, s') && SentMove(s, s')
    ensures OwnRecord(c, s') && ByteInv(c, s', from)
  {
    assert s'.sent != s.sent ==> s'.sent[from..] == s.sent[from..] + [Bytes(s').value];
    if Bytes(s).Some? {
      var bytes, bytes' := Bytes(s).value, Bytes(s').value;
      if !(forall i | from <= i < |s.sent| :: s.sent[i] == bytes) {
        var k, first :| SwitchesAt(s.sent[from..], k, first, bytes);
        MoreOfTheSame(s.sent[from..], k, first, bytes);
        assert SwitchesAt(s'.sent[from..], k, first, bytes');
      } else if bytes' != bytes {
        assert SwitchesAt(s.sent[from..], |s.sent| - from, bytes, bytes');
        MoreOfTheSame(s.sent[from..], |s.sent| - from, bytes, bytes');
        assert SwitchesAt(s'.sent[from..], |s.sent| - from, bytes, bytes');
      }
    }
  }

  /** The first step of a period sends the bytes of that period, if any. */
  lemma OpeningBytes(c: Config, s: System, e: Event)
    requires Enabled(s, e) && OwnRecord(c, s)
    ensures OwnRecord(c, Step(c, s, e)) && ByteInv(c, Step(c, s, e), |s.sent|)
  {
    if Prunes(s, e) {
      PruningForgets(c, s, e);
      var bare := s.(disk := None);
      StepMoves(c, bare, e);
      StepSends(c, bare, e);
      hide Step;
      ByteMove(c, bare, Step(c, bare, e), |s.sent|);
    } else {
      StepMoves(c, s, e);
      StepSends(c, s, e);
      hide Step;
      ByteMove(c, s, Step(c, s, e), |s.sent|);
    }
  }

  lemma {:induction false} RunOwns(c: Config, states: seq<System>, events: seq<Event>, n: nat)
    requires Run(c, states, events) && n <= |events|
    ensures OwnRecord(c, states[n])
  {
    if n > 0 {
      RunOwns(c, states, events, n - 1);
      OpeningBytes(c, states[n - 1], events[n - 1]);
    }
  }

  lemma {:induction false} PeriodBytes(c: Config, states: seq<System>, events: seq<Event>, k: nat, n: nat)
    requires Run(c, states, events) && k < n <= |events| && Retained(states, events, k + 1, n)
    ensures OwnRecord(c, states[n]) && ByteInv(c, states[n], |states[k].sent|)
    decreases n
  {
    hide Step, ByteInv, OwnRecord, StoredBytesMove, SentMove, Prunes;
    if k + 1 == n {
      RunOwns(c, states, events, k);
      OpeningBytes(c, states[k], events[k]);
    } else {
      PeriodBytes(c, states, events, k, n - 1);
      StepMoves(c, states[n - 1], events[n - 1]);
      StepSends(c, states[n - 1], events[n - 1]);
      ByteMove(c, states[n - 1], states[n], |states[k].sent|);
    }
  }

  /**
    Byte stability over every retention period, which step `k` may open: a later
    send repeats an earlier one of the period byte for byte, or drops only its
    worker fingerprint; the request id never changes, and the original never
    comes back.
   */
  lemma ByteStable(c: Config, states: seq<System>, events: seq<Event>, k: nat, n: nat, i: nat, j: nat)
    requires Run(c, states, events) && k < n <= |events| && Retained(states, events, k + 1, n)
    requires |states[k].sent| <= i <= j < |states[n].sent|
    ensures RequestIdOf(states[n].sent[i]) == Some(c.id) && RequestIdOf(states[n].sent[j]) == Some(c.id)
    ensures || states[n].sent[j] == states[n].sent[i]
            || (HasFingerprint(states[n].sent[i]) && states[n].sent[j] == WithoutFingerprint(states[n].sent[i]))
  {
    PeriodBytes(c, states, events, k, n);
    hide *;
    SentInOrder(c, states[n], |states[k].sent|, i, j);
  }

  lemma SentInOrder(c: Config, s: System, from: nat, i: nat, j: nat)
    requires ByteInv(c, s, from) && from <= i <= j < |s.sent|
    ensures RequestIdOf(s.sent[i]) == Some(c.id) && RequestIdOf(s.sent[j]) == Some(c.id)
    ensures s.sent[j] == s.sent[i] || (HasFingerprint(s.sent[i]) && s.sent[j] == WithoutFingerprint(s.sent[i]))
  {
    hide RequestIdOf;
    assert s.sent[from..][i - from] == s.sent[i];
    if !(forall m | from <= m < |s.sent| :: s.sent[m] == Bytes(s).value) {
      var m, first :| SwitchesAt(s.sent[from..], m, first, Bytes(s).value);
      assert s.sent[from..][j - from] == s.sent[j];
    }
  }

  // ----- termination of one invocation ---------------------------------------------------

  /** Each send after the first used up one of the two one-shot reasons to go round again. */
  ghost predicate CallInv(s: System) {
    forall p | p in s.procs && s.procs[p].Calling? ::
      && s.procs[p].sends == 1 + (if s.procs[p].replayed then 1 else 0) + (if s.procs[p].refreshed then 1 else 0)
      && (s.procs[p].refreshed ==> !HasFingerprint(s.procs[p].bytes))
  }

  lemma CallEnter(c: Config, s: System, e: Event)
    requires e.Enter? && Enabled(s, e) && CallInv(s)
    ensures CallInv(Step(c, s, e))
  {
    Regions(c, s, e);
    if !Corrupt(c, s.disk) { ClosedRegions(c, s, e); }
    hide Entry, ValidRecord;
  }

  lemma CallReload(c: Config, s: System, e: Event)
    requires e.Reload? && Enabled(s, e) && CallInv(s)
    ensures CallInv(Step(c, s, e))
    ensures e.pid in Step(c, s, e).procs
    ensures e.pid in Step(c, s, e).procs && Step(c, s, e).procs[e.pid].Calling? ==>
      var p, p' := s.procs[e.pid], Step(c, s, e).procs[e.pid];
      (p.replayed ==> p'.replayed) && (p.refreshed ==> p'.refreshed) && p'.sends == p.sends + 1
  {
    Regions(c, s, e);
    if !Corrupt(c, s.disk) { ClosedRegions(c, s, e); }
    hide AfterRpc, LoopTop, ValidRecord;
  }

  lemma CallStep(c: Config, s: System, e: Event)
    requires Enabled(s, e) && CallInv(s)
    ensures CallInv(Step(c, s, e))
  {
    hide AttachTargetOwner, AttachSubmissionReceipt, ValidRecord;
    if e.Enter? { CallEnter(c, s, e); }
    if e.Reload? { CallReload(c, s, e); }
  }

  /**
    One invocation ends after at most three RPCs, whatever Tendwire answers and
    whoever else runs in between, pruning included.
   */
  lemma {:induction false} AtMostThreeSends(c: Config, states: seq<System>, events: seq<Event>, n: nat, p: nat)
    requires Run(c, states, events) && n <= |events|
    ensures CallInv(states[n])
    ensures p in states[n].procs && states[n].procs[p].Calling? ==> 1 <= states[n].procs[p].sends <= 3
    decreases n
  {
    if n > 0 {
      AtMostThreeSends(c, states, events, n - 1, p);
      CallStep(c, states[n - 1], events[n - 1]);
    }
  }
}
