/** The mark an admin action leaves for the call's record: over every interleaving, the last one recorded is
    the one claimed, and it is claimed once. */
module AdminMarks {
  import opened Basics
  import opened CallIds
  import opened CallControl
  import opened LiveIndex

  function MarkOf(s: State, key: string): Option<PendingAction> {
    if key in s.pending then Some(s.pending[key]) else None
  }

  /** The mark a `/cdr` stamps on its row. */
  function Claimed(s: State, step: Step): Option<PendingAction> {
    if step.Claim? && Enabled(s, step) && Claims(step.found, step.billsec, step.timed)
    then PopPending(s, SanitizeCallID(step.raw)).1 else None
  }

  predicate Marks(step: Step, key: string) {
    step.Mark? && step.key == key && step.mark.action != ""
  }

  /** A `/cdr` of this call that looks for a mark. */
  predicate LooksFor(step: Step, key: string) {
    step.Claim? && SanitizeCallID(step.raw) == key && Claims(step.found, step.billsec, step.timed)
  }

  /** A teardown claims a mark exactly when its call has an order or any timing at all, and it claims the one recorded
      under the call's sanitised id; a number that was dialled in vain leaves the mark where it is. */
  lemma ClaimedIff(s: State, j: int, raw: string, e164: string, found: Option<OrderLine>, billsec: int, timed: bool)
    requires j !in s.jobs
    ensures var step := Claim(j, raw, e164, found, billsec, timed);
      var k := SanitizeCallID(raw);
      var claims := k != "" && k in s.pending && (found.Some? || billsec > 0 || timed);
      && Claimed(s, step) == (if claims then Some(s.pending[k]) else None)
      && Next(s, step).pending == if claims then s.pending - {k} else s.pending
  {
    hide Next, SanitizeCallID;
    ClaimIs(s, j, raw, e164, found, billsec, timed);
  }

  lemma LookKeepsMarks(s: State, j: int, cfg: Config, req: Request)
    ensures DoLook(s, j, cfg, req).pending == s.pending
  {
    hide DoLook;
    LookShape(s, j, cfg, req);
  }

  lemma TakeKeepsMarks(s: State, j: int, req: Request, line: DidLine, o: OrderLine, cap: int, credit: int)
    ensures DoTake(s, j, req, line, o, cap, credit).pending == s.pending
  {
    hide SanitizeCallID, Reserve, AddGrant, Rating.MaxSecondsForBalance, PaidEntry, NoteAll, Resolves;
  }

  lemma StepMarks(s: State, step: Step, key: string)
    requires key != ""
    ensures MarkOf(Next(s, step), key) ==
            if Marks(step, key) then Some(step.mark)
            else if LooksFor(step, key) && Enabled(s, step) then None
            else MarkOf(s, key)
    ensures LooksFor(step, key) && Enabled(s, step) ==> Claimed(s, step) == MarkOf(s, key)
  {
    hide Next, SanitizeCallID, Claims;
    if step.Mark? {
      LooseIs(s, step);
    } else if step.Claim? {
      ClaimMarks(s, step, key);
    } else {
      hide PopPending;
      OthersKeepMarks(s, step);
    }
  }

  lemma ClaimMarks(s: State, step: Step, key: string)
    requires key != "" && step.Claim?
    ensures MarkOf(Next(s, step), key) == if LooksFor(step, key) && Enabled(s, step) then None else MarkOf(s, key)
    ensures LooksFor(step, key) && Enabled(s, step) ==> Claimed(s, step) == MarkOf(s, key)
  {
    hide Next, SanitizeCallID, Claims;
    if Enabled(s, step) {
      ClaimIs(s, step.j, step.raw, step.e164, step.found, step.billsec, step.timed);
    } else {
      Idle(s, step);
    }
  }

  lemma OthersKeepMarks(s: State, step: Step)
    requires !step.Mark? && !step.Claim?
    ensures Next(s, step).pending == s.pending
  {
    hide Next, DoLook, DoTake, DoPage, DoDebit, DoLeave, DoUnlist, Register, Deregister;
    if !Enabled(s, step) {
      Idle(s, step);
    } else {
      match step
      case Look(j, cfg, req) =>
        LookIs(s, j, cfg, req);
        LookKeepsMarks(s, j, cfg, req);
      case Take(j) =>
        TakeIs(s, j);
        TakeKeepsMarks(s, j, s.jobs[j].req, s.jobs[j].line, s.jobs[j].order, s.jobs[j].cap, s.jobs[j].credit);
      case Page(j, keys) =>
        PageIs(s, j, keys);
        PageKeepsMarks(s, j, keys);
      case Debit(j) =>
        DebitIs(s, j);
        DebitKeepsMarks(s, j);
      case Enter(_, _) => EndsKeepMarks(s, step);
      case Leave(_) => EndsKeepMarks(s, step);
      case Unlist(_, _) => EndsKeepMarks(s, step);
      case Remove(_, _) => EndsKeepMarks(s, step);
      case _ => QuietFrame(s, step);
    }
  }

  lemma DebitKeepsMarks(s: State, j: int)
    requires Enabled(s, Debit(j))
    ensures var a := s.jobs[j]; DoDebit(s, j, a.raw, a.e164, a.found, a.billsec).pending == s.pending
  {
    hide ChargeOf, DebitFrom, SanitizeCallID;
  }

  lemma EndsKeepMarks(s: State, step: Step)
    requires Enabled(s, step) && (step.Enter? || step.Leave? || step.Unlist? || step.Remove?)
    ensures Next(s, step).pending == s.pending
  {
    hide Next, NoteAll;
    match step
    case Enter(j, now) => EnterIs(s, j, now);
    case Leave(j) => LeaveIs(s, j);
    case Unlist(j, id) => UnlistIs(s, j, id);
    case Remove(_, _) => LooseIs(s, step);
  }

  lemma PageKeepsMarks(s: State, j: int, keys: set<SetKey>)
    requires Enabled(s, Page(j, keys))
    ensures DoPage(s, j, keys).pending == s.pending
  {
    hide ReleaseFrom, NoteAll;
  }

  /** Steps that neither mark this call nor look for its mark. */
  predicate LeavesMark(step: Step, key: string) {
    !Marks(step, key) && !LooksFor(step, key)
  }

  lemma {:induction false} MarkPersists(s: State, steps: seq<Step>, key: string)
    requires key != "" && forall i :: 0 <= i < |steps| ==> LeavesMark(steps[i], key)
    ensures MarkOf(Exec(s, steps), key) == MarkOf(s, key)
    decreases |steps|
  {
    hide Next, Marks, LooksFor;
    if steps != [] {
      StepMarks(s, steps[0], key);
      MarkPersists(Next(s, steps[0]), steps[1..], key);
    }
  }

  /** Once there is no mark, none is claimed until the next action: neither by this nor by later teardowns. */
  lemma {:induction false} NoMarkStays(s: State, steps: seq<Step>, key: string)
    requires key != "" && MarkOf(s, key) == None && forall i :: 0 <= i < |steps| ==> !Marks(steps[i], key)
    ensures MarkOf(Exec(s, steps), key) == None
    decreases |steps|
  {
    hide Next, Marks, LooksFor;
    if steps != [] {
      StepMarks(s, steps[0], key);
      NoMarkStays(Next(s, steps[0]), steps[1..], key);
    }
  }

  /** Whatever came before, and whatever other handlers do between: of the marks recorded for a call, the last
      one is what the next `/cdr` of it claims, and until another action no later `/cdr` claims any. */
  lemma LastMarkIsClaimedOnce(s: State, action: Step, between: seq<Step>, first: Step, later: seq<Step>, second: Step,
                              key: string)
    requires key != "" && Marks(action, key)
    requires forall i :: 0 <= i < |between| ==> LeavesMark(between[i], key)
    requires forall i :: 0 <= i < |later| ==> !Marks(later[i], key)
    requires LooksFor(first, key) && LooksFor(second, key)
    ensures var s1 := Exec(Next(s, action), between);
      var s2 := Exec(Next(s1, first), later);
      Enabled(s1, first) ==> Claimed(s1, first) == Some(action.mark) && Claimed(s2, second) == None
  {
    hide Next, Claimed;
    StepMarks(s, action, key);
    MarkPersists(Next(s, action), between, key);
    var s1 := Exec(Next(s, action), between);
    if Enabled(s1, first) {
      StepMarks(s1, first, key);
      NoMarkStays(Next(s1, first), later, key);
      var s2 := Exec(Next(s1, first), later);
      if Enabled(s2, second) {
        StepMarks(s2, second, key);
      } else {
        DisabledClaimsNothing(s2, second);
      }
    }
  }

  lemma DisabledClaimsNothing(s: State, step: Step)
    requires !Enabled(s, step)
    ensures Claimed(s, step) == None
  {
  }

  /** A redirect after a hangup: the call's record will tell of the redirect. */
  lemma RedirectOverwritesHangup(s: State, key: string, i: int, j: int, hangup: PendingAction, redirect: PendingAction,
                                 cdr: Step)
    requires key != "" && hangup.action == "live_hangup" && redirect.action == "live_redirect"
    requires LooksFor(cdr, key)
    ensures var s2 := Next(Next(s, Mark(i, key, hangup)), Mark(j, key, redirect));
      Enabled(s2, cdr) ==> Claimed(s2, cdr) == Some(redirect)
  {
    hide Next, LooksFor;
    var s1 := Next(s, Mark(i, key, hangup));
    LastMarkIsClaimedOnce(s1, Mark(j, key, redirect), [], cdr, [], cdr, key);
  }
}
