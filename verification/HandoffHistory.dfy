/** Over a run, what happened to a session stays so. */
module HandoffHistory {
  import opened Basics
  import opened HandoffState
  import opened HandoffSteps
  import opened HandoffInvariant
  import opened HandoffHandler
  import opened HandoffKeeps

  /** s' is s at some later time: what was recorded, written, lost, begun, finished and given away stays so. */
  ghost predicate Later(s: Session, s': Session) {
    && s'.name == s.name && (s.given.Some? ==> s'.given == s.given)
    && s.log <= s'.log && s.written <= s'.written && s.lost <= s'.lost && (s.logFailed ==> s'.logFailed)
    && |s.tickets| <= |s'.tickets| && s.finished <= s'.finished
  }

  ghost predicate AllLater(ss: Sessions, ss': Sessions) {
    forall sid :: sid in ss ==> sid in ss' && Later(ss[sid], ss'[sid])
  }

  lemma CopierBytesLater(s: Session, step: Step)
    requires CopierStep(s, step).Some?
    requires step.CopierReads? || step.DrainReads? || step.CopierRecords? || step.DrainRecords?
    ensures Later(s, CopierStep(s, step).value)
  {
  }

  lemma CopierTurnLater(s: Session, step: Step)
    requires CopierStep(s, step).Some?
    requires !step.CopierReads? && !step.DrainReads? && !step.CopierRecords? && !step.DrainRecords?
    ensures Later(s, CopierStep(s, step).value)
  {
  }

  lemma CopierLater(s: Session, step: Step)
    requires CopierStep(s, step).Some?
    ensures Later(s, CopierStep(s, step).value)
  {
    if step.CopierReads? || step.DrainReads? || step.CopierRecords? || step.DrainRecords? {
      CopierBytesLater(s, step);
    } else {
      CopierTurnLater(s, step);
    }
  }

  /** One session moves on, the others stay. */
  lemma OneLater(ss: Sessions, sid: SessId, s': Session)
    requires sid in ss ==> Later(ss[sid], s')
    ensures AllLater(ss, ss[sid := s'])
  {
  }

  lemma ResizeLater(st: State, name: Name, n: nat, ok: bool)
    requires CanResize(st, name, n)
    ensures AllLater(st.sessions, Resized(st, name, n, ok).sessions)
  {
    OneLater(st.sessions, st.hub[name], Resized(st, name, n, ok).sessions[st.hub[name]]);
  }

  lemma CopiesLater(st: State, step: Step, st': State)
    requires CopierMoves(st, step, st')
    ensures AllLater(st.sessions, st'.sessions)
  {
    CopierLater(st.sessions[step.sid], step);
    OneLater(st.sessions, step.sid, CopierStep(st.sessions[step.sid], step).value);
  }

  lemma ChildLater(st: State, sid: SessId, data: seq<byte>)
    requires sid in st.sessions
    ensures AllLater(st.sessions, ChildWritten(st, sid, data).sessions)
  {
    OneLater(st.sessions, sid, ChildWritten(st, sid, data).sessions[sid]);
  }

  lemma ClientLater(st: State, step: Step, st': State)
    requires ClientStep(st, step, st')
    ensures AllLater(st.sessions, st'.sessions)
  {
    if step.ResizeDrains? {
      ResizeLater(st, step.name, step.n, step.ok);
    } else if step.ChildWrites? {
      ChildLater(st, step.sid, step.data);
    } else if step.StartSession? {
      OneLater(st.sessions, step.sid, NewSession(step.name));
    }
  }

  lemma ChosenLater(st: State, c: ConnId)
    requires SourceInv(st) && CanChoose(st, c)
    ensures AllLater(st.sessions, Chosen(st, c).sessions)
  {
    WalkHead(st, c);
  }

  lemma AdoptLater(st: State, c: ConnId, sent: bool)
    requires CanAdopt(st, c)
    ensures AllLater(st.sessions, AdoptBegun(st, c, sent).sessions)
  {
    var st' := AdoptBegun(st, c, sent);
    if st'.sessions != st.sessions {
      var sid := st.hub[st.conns[c].requests[0].name];
      OneLater(st.sessions, sid, Begun(st.sessions[sid], c).value);
    }
  }

  lemma FinishLater(st: State, c: ConnId)
    requires CanFinish(st, c)
    ensures AllLater(st.sessions, Finished(st, c).sessions)
  {
  }

  lemma HandlerLater(st: State, step: Step, st': State)
    requires SourceInv(st) && HandlerStep(st, step, st')
    ensures AllLater(st.sessions, st'.sessions)
  {
    if step.Chooses? {
      ChosenLater(st, step.c);
    } else if step.HandleAdopt? {
      AdoptLater(st, step.c, step.sent);
    } else if step.Finishes? {
      FinishLater(st, step.c);
    } else {
      HandlerOnly(st, step, st');
    }
  }

  lemma TargetReadLater(st: State, c: ConnId, i: nat, n: nat)
    requires CanTargetRead(st, c, i, n)
    ensures AllLater(st.sessions, TargetRead(st, c, i, n).sessions)
  {
    var sid := st.conns[c].target.kept[i].master.value;
    OneLater(st.sessions, sid, ReadFromPty(st.sessions[sid], n));
  }

  lemma TargetRecordLater(st: State, c: ConnId, i: nat, ok: bool)
    requires CanTargetRecord(st, c, i)
    ensures AllLater(st.sessions, TargetRecorded(st, c, i, ok).sessions)
  {
    var sid := st.conns[c].target.kept[i].sid;
    OneLater(st.sessions, sid, TargetRecorded(st, c, i, ok).sessions[sid]);
  }

  lemma TargetLater(st: State, step: Step, st': State)
    requires TargetStep(st, step, st')
    ensures AllLater(st.sessions, st'.sessions)
  {
    if OfWire(step) {
      WireOnly(st, step, st');
    } else if step.TargetReads? {
      TargetReadLater(st, step.c, step.i, step.n);
    } else if step.TargetRecords? {
      TargetRecordLater(st, step.c, step.i, step.ok);
    }
  }

  lemma StepLater(st: State, step: Step, st': State)
    requires SourceInv(st) && Next(st, step, st')
    ensures AllLater(st.sessions, st'.sessions)
  {
    if IsCopierStep(step) {
      CopiesLater(st, step, st');
    } else if OfClients(step) {
      ClientLater(st, step, st');
    } else if OfWalk(step) || OfRequest(step) {
      HandlerLater(st, step, st');
    } else {
      TargetLater(st, step, st');
    }
  }
}
