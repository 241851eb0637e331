/** How messages travel, in every run of interleaved threads: each message reaches each participant it was sent to
    exactly once, and two messages of one session reach any common recipient in the order in which they were sent. */
module ThreadMail {
  import opened Identifiers
  import opened Threads
  import opened ThreadSafety

  /** The thread has had its session's mutex. */
  ghost predicate Taken(p: Proc) {
    !p.op.Open? && !p.at.NeedSession?
  }

  /** The thread's message has reached `to`. */
  ghost predicate HasSentTo(p: Proc, to: UserID) {
    p.op.Send? && to in p.snapshot && !(p.at.Fanning? && to in p.at.todo)
  }

  ghost function MessageOf(p: Proc): Receipt
    requires p.op.Send?
  {
    Receipt(p.user, p.turn, p.op.id, p.op.text)
  }

  // ----- The invariant -----

  /** Nobody is mid-way through a message without holding the session's mutex, and turns are given out in order. */
  ghost predicate TurnAt(s: State, t: Tid) {
    t in s.threads ==>
      var p := s.threads[t];
      && (Taken(p) ==> p.turn < s.clock)
      && (p.at.Fanning? ==> p.op.Send? && p.at.todo <= p.snapshot)
      && (p.op.Open? <==> p.at.NeedName? || p.at.Owning? || p.at.Filing? || (p.op.Open? && p.at.Finished?))
      && (p.snapshot != {} ==> p.op.Send? && (p.at.Fanning? || p.at.Finished?))
  }

  ghost predicate TurnsDifferAt(s: State, t1: Tid, t2: Tid) {
    t1 in s.threads && t2 in s.threads && t1 != t2 && Taken(s.threads[t1]) && Taken(s.threads[t2]) ==>
      s.threads[t1].turn != s.threads[t2].turn
  }

  ghost predicate PastAt(s: State, to: UserID, i: nat) {
    to in s.inbox && i < |s.inbox[to]| ==> s.inbox[to][i].turn < s.clock
  }

  /** While a thread holds the session's mutex, nothing of that session's later turns has arrived anywhere. */
  ghost predicate HolderAt(s: State, t: Tid, to: UserID, i: nat) {
    t in s.threads && InSession(s.threads[t].at) && to in s.inbox && i < |s.inbox[to]|
    && s.inbox[to][i].sender == s.threads[t].user ==>
      s.inbox[to][i].turn < s.threads[t].turn
      || (s.inbox[to][i].turn == s.threads[t].turn && HasSentTo(s.threads[t], to))
  }

  ghost predicate OrderAt(s: State, to: UserID, i: nat, j: nat) {
    to in s.inbox && i < j < |s.inbox[to]| && s.inbox[to][i].sender == s.inbox[to][j].sender ==>
      s.inbox[to][i].turn < s.inbox[to][j].turn
  }

  ghost predicate ReachedAt(s: State, t: Tid, to: UserID) {
    t in s.threads && HasSentTo(s.threads[t], to) ==> to in s.inbox && MessageOf(s.threads[t]) in s.inbox[to]
  }

  /** What arrives of a thread's turn is its message, and arrives only where it was sent. */
  ghost predicate OnlyAt(s: State, t: Tid, to: UserID, i: nat) {
    t in s.threads && Taken(s.threads[t]) && to in s.inbox && i < |s.inbox[to]|
    && s.inbox[to][i].sender == s.threads[t].user && s.inbox[to][i].turn == s.threads[t].turn ==>
      HasSentTo(s.threads[t], to) && s.inbox[to][i] == MessageOf(s.threads[t])
  }

  ghost predicate MailInv(s: State) {
    && Exclusive(s)
    && (forall t :: TurnAt(s, t))
    && (forall t1, t2 :: TurnsDifferAt(s, t1, t2))
    && (forall r, i :: PastAt(s, r, i))
    && (forall t, r, i :: HolderAt(s, t, r, i))
    && (forall r, i, j :: OrderAt(s, r, i, j))
    && (forall t, r :: ReachedAt(s, t, r))
    && (forall t, r, i :: OnlyAt(s, t, r, i))
  }

  // ----- Steps -----

  /** Steps after which the thread is neither earlier nor at a message: nothing has arrived. */
  ghost predicate Quiet(s: State, s': State, t: Tid, at: Point) {
    && t in s.threads && s'.threads == s.threads[t := s.threads[t].(at := at)]
    && s'.inbox == s.inbox && s'.clock == s.clock && s'.home == s.home
    && !s.threads[t].at.NeedSession? && !at.NeedSession? && !at.Fanning?
    && (InSession(at) ==> InSession(s.threads[t].at) && !s.threads[t].at.Fanning?)
    && (s.threads[t].at.Fanning? ==> at.Finished? && s.threads[t].at.todo == {})
    && (s.threads[t].op.Open? <==> at.NeedName? || at.Owning? || at.Filing? || (s.threads[t].op.Open? && at.Finished?))
    && (s.threads[t].at.Finished? ==> at.Finished?)
    && Exclusive(s')
  }

  lemma QuietKeeps(s: State, s': State, t: Tid, at: Point)
    requires MailInv(s) && Quiet(s, s', t, at)
    ensures MailInv(s')
  {
    assert TurnAt(s, t);
    forall t1 ensures TurnAt(s', t1) { assert TurnAt(s, t1); }
    forall t1, t2 ensures TurnsDifferAt(s', t1, t2) { assert TurnsDifferAt(s, t1, t2); }
    forall r, i ensures PastAt(s', r, i) { assert PastAt(s, r, i); }
    forall t1, r, i ensures HolderAt(s', t1, r, i) { assert HolderAt(s, t1, r, i); }
    forall r, i, j ensures OrderAt(s', r, i, j) { assert OrderAt(s, r, i, j); }
    forall t1, r ensures ReachedAt(s', t1, r) { assert ReachedAt(s, t1, r); }
    forall t1, r, i ensures OnlyAt(s', t1, r, i) { assert OnlyAt(s, t1, r, i); }
  }

  lemma BeginMail(s: State, t: Tid, user: UserID, op: Op)
    requires MailInv(s) && CanBegin(s, t, user, op)
    ensures MailInv(DoBegin(s, t, user, op))
  {
    var s' := DoBegin(s, t, user, op);
    forall t1, t2, l ensures ExclusiveAt(s', t1, t2, l) { assert ExclusiveAt(s, t1, t2, l); }
    forall t1 ensures TurnAt(s', t1) { assert TurnAt(s, t1); }
    forall t1, t2 ensures TurnsDifferAt(s', t1, t2) { assert TurnsDifferAt(s, t1, t2); }
    forall r, i ensures PastAt(s', r, i) { assert PastAt(s, r, i); }
    forall t1, r, i ensures HolderAt(s', t1, r, i) { assert HolderAt(s, t1, r, i); }
    forall r, i, j ensures OrderAt(s', r, i, j) { assert OrderAt(s, r, i, j); }
    forall t1, r ensures ReachedAt(s', t1, r) { assert ReachedAt(s, t1, r); }
    forall t1, r, i ensures OnlyAt(s', t1, r, i) { assert OnlyAt(s, t1, r, i); }
  }

  lemma TakeSessionMail(s: State, t: Tid)
    requires MailInv(s) && CanTakeSession(s, t)
    ensures MailInv(DoTakeSession(s, t))
  {
    var s' := DoTakeSession(s, t);
    MovedExclusive(s, s', t, s'.threads[t]);
    assert TurnAt(s, t);
    forall t1 ensures TurnAt(s', t1) { assert TurnAt(s, t1); }
    forall t1, t2 ensures TurnsDifferAt(s', t1, t2) { assert TurnsDifferAt(s, t1, t2) && TurnAt(s, t1) && TurnAt(s, t2); }
    forall r, i ensures PastAt(s', r, i) { assert PastAt(s, r, i); }
    forall t1, r, i ensures HolderAt(s', t1, r, i) { assert HolderAt(s, t1, r, i) && PastAt(s, r, i); }
    forall r, i, j ensures OrderAt(s', r, i, j) { assert OrderAt(s, r, i, j); }
    forall t1, r ensures ReachedAt(s', t1, r) { assert ReachedAt(s, t1, r); }
    forall t1, r, i ensures OnlyAt(s', t1, r, i) { assert OnlyAt(s, t1, r, i) && PastAt(s, r, i); }
  }

  lemma SnapshotMail(s: State, t: Tid)
    requires MailInv(s) && CanSnapshot(s, t)
    ensures MailInv(DoSnapshot(s, t))
  {
    var s' := DoSnapshot(s, t);
    MovedExclusive(s, s', t, s'.threads[t]);
    assert TurnAt(s, t);
    forall t1 ensures TurnAt(s', t1) { assert TurnAt(s, t1); }
    forall t1, t2 ensures TurnsDifferAt(s', t1, t2) { assert TurnsDifferAt(s, t1, t2); }
    forall r, i ensures PastAt(s', r, i) { assert PastAt(s, r, i); }
    forall t1, r, i ensures HolderAt(s', t1, r, i) { assert HolderAt(s, t1, r, i); }
    forall r, i, j ensures OrderAt(s', r, i, j) { assert OrderAt(s, r, i, j); }
    forall t1, r ensures ReachedAt(s', t1, r) { assert ReachedAt(s, t1, r); }
    forall t1, r, i ensures OnlyAt(s', t1, r, i) { assert OnlyAt(s, t1, r, i); }
  }

  /** A message has arrived, whatever the client made of it. */
  ghost predicate Posted(s: State, s': State, t: Tid, to: UserID) {
    && t in s.threads && s.threads[t].at.Fanning? && s.threads[t].op.Send? && to in s.threads[t].at.todo && to in s.inbox
    && s'.threads == s.threads[t := s.threads[t].(at := s.threads[t].at.(todo := s.threads[t].at.todo - {to}))]
    && s'.inbox == s.inbox[to := s.inbox[to] + [MessageOf(s.threads[t])]] && s'.clock == s.clock && s'.home == s.home
  }

  lemma PostedOrder(s: State, s': State, t: Tid, to: UserID)
    requires MailInv(s) && Posted(s, s', t, to)
    ensures Exclusive(s')
    ensures forall t1 :: TurnAt(s', t1)
    ensures forall t1, t2 :: TurnsDifferAt(s', t1, t2)
    ensures forall r, i :: PastAt(s', r, i)
    ensures forall r, i, j :: OrderAt(s', r, i, j)
  {
    assert TurnAt(s, t);
    forall t1, t2, l ensures ExclusiveAt(s', t1, t2, l) { assert ExclusiveAt(s, t1, t2, l); }
    forall t1 ensures TurnAt(s', t1) { assert TurnAt(s, t1); }
    forall t1, t2 ensures TurnsDifferAt(s', t1, t2) { assert TurnsDifferAt(s, t1, t2); }
    forall r, i ensures PastAt(s', r, i) { assert PastAt(s, r, i); }
    forall r, i, j ensures OrderAt(s', r, i, j) { assert OrderAt(s, r, i, j) && HolderAt(s, t, r, i); }
  }

  lemma PostedHolder(s: State, s': State, t: Tid, to: UserID)
    requires MailInv(s) && Posted(s, s', t, to)
    ensures forall t1, r, i :: HolderAt(s', t1, r, i)
  {
    assert TurnAt(s, t);
    forall t1, r, i
      ensures HolderAt(s', t1, r, i)
    {
      assert HolderAt(s, t1, r, i) && ExclusiveAt(s, t, t1, SessionLock(s.threads[t].user));
    }
  }

  lemma PostedOnce(s: State, s': State, t: Tid, to: UserID)
    requires MailInv(s) && Posted(s, s', t, to)
    ensures forall t1, r :: ReachedAt(s', t1, r)
    ensures forall t1, r, i :: OnlyAt(s', t1, r, i)
  {
    assert TurnAt(s, t);
    assert s'.inbox[to][|s.inbox[to]|] == MessageOf(s'.threads[t]);
    forall t1, r ensures ReachedAt(s', t1, r) { assert ReachedAt(s, t1, r); }
    forall t1, r, i ensures OnlyAt(s', t1, r, i) { assert OnlyAt(s, t1, r, i) && TurnsDifferAt(s, t, t1); }
  }

  lemma DeliverMail(s: State, t: Tid, to: UserID)
    requires MailInv(s) && CanDeliver(s, t, to)
    ensures MailInv(DoDeliver(s, t, to))
  {
    PostedOrder(s, DoDeliver(s, t, to), t, to);
    PostedHolder(s, DoDeliver(s, t, to), t, to);
    PostedOnce(s, DoDeliver(s, t, to), t, to);
  }

  // Every other step only moves its thread, and takes no mutex that is not free.

  lemma FindMail(s: State, t: Tid)
    requires MailInv(s) && CanFind(s, t)
    ensures MailInv(DoFind(s, t))
  {
    assert TurnAt(s, t);
    var found := Found(s, s.threads[t].user, s.threads[t].op.id);
    var at := if found.None? then Releasing else NeedRoom(found.value);
    MovedExclusive(s, Goto(s, t, at), t, s.threads[t].(at := at));
    QuietKeeps(s, Goto(s, t, at), t, at);
  }

  lemma EnterInviteeMail(s: State, t: Tid)
    requires MailInv(s) && CanEnterInvitee(s, t)
    ensures MailInv(DoEnterInvitee(s, t))
  {
    assert TurnAt(s, t);
    MovedExclusive(s, DoEnterInvitee(s, t), t, DoEnterInvitee(s, t).threads[t]);
    QuietKeeps(s, DoEnterInvitee(s, t), t, DoEnterInvitee(s, t).threads[t].at);
  }

  lemma PartMail(s: State, t: Tid)
    requires MailInv(s) && CanPart(s, t)
    ensures MailInv(DoPart(s, t))
  {
    assert TurnAt(s, t);
    MovedExclusive(s, DoPart(s, t), t, DoPart(s, t).threads[t]);
    QuietKeeps(s, DoPart(s, t), t, DoPart(s, t).threads[t].at);
  }

  lemma UnlistMail(s: State, t: Tid)
    requires MailInv(s) && CanUnlist(s, t)
    ensures MailInv(DoUnlist(s, t))
  {
    assert TurnAt(s, t);
    MovedExclusive(s, DoUnlist(s, t), t, DoUnlist(s, t).threads[t]);
    QuietKeeps(s, DoUnlist(s, t), t, DoUnlist(s, t).threads[t].at);
  }

  lemma SendStepExclusive(s: State, a: Action, s': State)
    requires Exclusive(s) && SendNext(s, a, s') && (a.TakeRoom? || a.Release?)
    ensures Exclusive(s')
  {
    MovedExclusive(s, s', a.t, s'.threads[a.t]);
  }

  lemma InviteStepExclusive(s: State, a: Action, s': State)
    requires Exclusive(s) && InviteNext(s, a, s') && !a.EnterInvitee?
    ensures Exclusive(s')
  {
    if a.TakeSessions? || a.TakeChats? || a.TakeInvitee? {
      InviteTakes(s, a, s');
    } else {
      MovedExclusive(s, s', a.t, s'.threads[a.t]);
    }
  }

  lemma InviteTakes(s: State, a: Action, s': State)
    requires Exclusive(s) && InviteNext(s, a, s') && (a.TakeSessions? || a.TakeChats? || a.TakeInvitee?)
    ensures Exclusive(s')
  {
    MovedExclusive(s, s', a.t, s'.threads[a.t]);
  }

  lemma LeaveStepExclusive(s: State, a: Action, s': State)
    requires Exclusive(s) && LeaveNext(s, a, s') && !a.Part? && !a.Unlist?
    ensures Exclusive(s')
  {
    MovedExclusive(s, s', a.t, s'.threads[a.t]);
  }

  lemma OpenStepExclusive(s: State, a: Action, s': State)
    requires Exclusive(s) && OpenNext(s, a, s') && !a.Begin?
    ensures Exclusive(s')
  {
    MovedExclusive(s, s', a.t, s'.threads[a.t]);
  }

  lemma SendStepMail(s: State, a: Action, s': State)
    requires MailInv(s) && SendNext(s, a, s') && (a.TakeRoom? || a.Release?)
    ensures MailInv(s')
  {
    SendStepExclusive(s, a, s');
    assert TurnAt(s, a.t);
    QuietKeeps(s, s', a.t, s'.threads[a.t].at);
  }

  lemma InviteStepMail(s: State, a: Action, s': State)
    requires MailInv(s) && InviteNext(s, a, s') && !a.EnterInvitee?
    ensures MailInv(s')
  {
    InviteStepExclusive(s, a, s');
    assert TurnAt(s, a.t);
    QuietKeeps(s, s', a.t, s'.threads[a.t].at);
  }

  lemma LeaveStepMail(s: State, a: Action, s': State)
    requires MailInv(s) && LeaveNext(s, a, s') && !a.Part? && !a.Unlist?
    ensures MailInv(s')
  {
    LeaveStepExclusive(s, a, s');
    assert TurnAt(s, a.t);
    QuietKeeps(s, s', a.t, s'.threads[a.t].at);
  }

  lemma OpenStepMail(s: State, a: Action, s': State)
    requires MailInv(s) && OpenNext(s, a, s') && !a.Begin?
    ensures MailInv(s')
  {
    OpenStepExclusive(s, a, s');
    assert TurnAt(s, a.t);
    QuietKeeps(s, s', a.t, s'.threads[a.t].at);
  }

  lemma NextMail(s: State, a: Action, s': State)
    requires MailInv(s) && Next(s, a, s')
    ensures MailInv(s')
  {
    if a.Begin? {
      BeginMail(s, a.t, a.user, a.op);
    } else if a.TakeSession? {
      TakeSessionMail(s, a.t);
    } else if a.Snapshot? {
      SnapshotMail(s, a.t);
    } else if a.Deliver? {
      DeliverMail(s, a.t, a.to);
    } else if a.Find? {
      FindMail(s, a.t);
    } else if a.EnterInvitee? {
      EnterInviteeMail(s, a.t);
    } else if a.Part? {
      PartMail(s, a.t);
    } else if a.Unlist? {
      UnlistMail(s, a.t);
    } else if SendNext(s, a, s') {
      SendStepMail(s, a, s');
    } else if InviteNext(s, a, s') {
      InviteStepMail(s, a, s');
    } else if LeaveNext(s, a, s') {
      LeaveStepMail(s, a, s');
    } else {
      OpenStepMail(s, a, s');
    }
  }

  lemma {:induction false} RunMail(r: Run)
    requires IsRun(r)
    ensures MailInv(r.state)
  {
    match r
    case Start(_) =>
    case Then(before, a, s) =>
      RunMail(before);
      NextMail(before.state, a, s);
  }

  lemma {:induction false} MailOf(r: Run, t: Tid, to: UserID, i: nat, j: nat)
    requires IsRun(r)
    ensures OrderAt(r.state, to, i, j) && ReachedAt(r.state, t, to) && OnlyAt(r.state, t, to, i)
  {
    RunMail(r);
  }

  // ----- Theorems -----

  /** When a send has returned, its message has reached each participant of its snapshot exactly once, and nobody
      else. */
  lemma {:induction false} ExactlyOnce(r: Run, t: Tid, to: UserID)
    requires IsRun(r) && to in r.state.inbox
    requires t in r.state.threads && r.state.threads[t].op.Send? && r.state.threads[t].at.Finished?
    ensures var (p, box) := (r.state.threads[t], r.state.inbox[to]);
      && (to in p.snapshot ==> exists i :: 0 <= i < |box| && box[i] == MessageOf(p))
      && (forall i :: 0 <= i < |box| && box[i].sender == p.user && box[i].turn == p.turn ==>
            to in p.snapshot && box[i] == MessageOf(p))
      && (forall i, j :: 0 <= i < |box| && 0 <= j < |box| && box[i] == box[j] == MessageOf(p) ==> i == j)
  {
    var (p, box) := (r.state.threads[t], r.state.inbox[to]);
    MailOf(r, t, to, 0, 0);
    forall i | 0 <= i < |box| && box[i].sender == p.user && box[i].turn == p.turn
      ensures to in p.snapshot && box[i] == MessageOf(p)
    {
      MailOf(r, t, to, i, i);
    }
    forall i, j | 0 <= i < |box| && 0 <= j < |box| && box[i] == box[j] == MessageOf(p)
      ensures i == j
    {
      MailOf(r, t, to, i, j);
      MailOf(r, t, to, j, i);
    }
  }

  /** The run `r` goes on from `r0`. */
  ghost predicate GoesOnFrom(r: Run, r0: Run) {
    r == r0 || (r.Then? && GoesOnFrom(r.before, r0))
  }

  /** Whom a message goes to, which does not change any more once it is fixed. */
  ghost predicate SendsTo(s: State, t: Tid, user: UserID, whom: set<UserID>) {
    && t in s.threads && s.threads[t].user == user && s.threads[t].op.Send? && s.threads[t].snapshot == whom
    && (s.threads[t].at.Fanning? || s.threads[t].at.Finished?)
  }

  lemma OpenSendsTo(s: State, a: Action, s': State, t: Tid, user: UserID, whom: set<UserID>)
    requires MailInv(s) && OpenNext(s, a, s') && SendsTo(s, t, user, whom)
    ensures SendsTo(s', t, user, whom)
  {
    assert TurnAt(s, a.t);
  }

  lemma SendSendsTo(s: State, a: Action, s': State, t: Tid, user: UserID, whom: set<UserID>)
    requires SendNext(s, a, s') && SendsTo(s, t, user, whom)
    ensures SendsTo(s', t, user, whom)
  {}

  lemma InviteSendsTo(s: State, a: Action, s': State, t: Tid, user: UserID, whom: set<UserID>)
    requires InviteNext(s, a, s') && SendsTo(s, t, user, whom)
    ensures SendsTo(s', t, user, whom)
  {}

  lemma LeaveSendsTo(s: State, a: Action, s': State, t: Tid, user: UserID, whom: set<UserID>)
    requires LeaveNext(s, a, s') && SendsTo(s, t, user, whom)
    ensures SendsTo(s', t, user, whom)
  {}

  lemma NextSendsTo(s: State, a: Action, s': State, t: Tid, user: UserID, whom: set<UserID>)
    requires MailInv(s) && Next(s, a, s') && SendsTo(s, t, user, whom)
    ensures SendsTo(s', t, user, whom)
  {
    if OpenNext(s, a, s') {
      OpenSendsTo(s, a, s', t, user, whom);
    } else if SendNext(s, a, s') {
      SendSendsTo(s, a, s', t, user, whom);
    } else if InviteNext(s, a, s') {
      InviteSendsTo(s, a, s', t, user, whom);
    } else {
      LeaveSendsTo(s, a, s', t, user, whom);
    }
  }

  lemma {:induction false} StillSendsTo(r: Run, r0: Run, t: Tid, user: UserID, whom: set<UserID>)
    requires IsRun(r) && GoesOnFrom(r, r0) && SendsTo(r0.state, t, user, whom)
    ensures SendsTo(r.state, t, user, whom)
  {
    if r != r0 {
      StillSendsTo(r.before, r0, t, user, whom);
      RunMail(r.before);
      NextSendsTo(r.before.state, r.action, r.state, t, user, whom);
    }
  }

  /** How often a message of thread `p` is among those that have arrived. */
  ghost predicate ArrivedOnce(p: Proc, box: seq<Receipt>)
    requires p.op.Send?
  {
    && (exists i :: 0 <= i < |box| && box[i] == MessageOf(p))
    && (forall i, j :: 0 <= i < |box| && 0 <= j < |box| && box[i] == box[j] == MessageOf(p) ==> i == j)
  }

  ghost predicate NeverArrived(p: Proc, box: seq<Receipt>) {
    forall i :: 0 <= i < |box| ==> box[i].sender != p.user || box[i].turn != p.turn
  }

  /** A send whose thread went through the participants of a room and has returned: its message has reached exactly
      those who were members of the room when the thread looked, the sender among them, and each exactly once. `r0` is the
      run up to there. */
  lemma {:induction false} MembersGetIt(r: Run, r0: Run, t: Tid, u: UserID)
    requires IsRun(r) && GoesOnFrom(r, r0) && u in r.state.inbox
    requires r0.Then? && r0.action == Snapshot(t) && t in r0.before.state.threads && r0.before.state.threads[t].at.HasRoom?
    requires t in r.state.threads && r.state.threads[t].at.Finished?
    ensures r.state.threads[t].op.Send? && r.state.threads[t].user == r0.before.state.threads[t].user
    ensures r0.before.state.threads[t].at.room in r0.before.state.rooms
    ensures if u in r0.before.state.rooms[r0.before.state.threads[t].at.room].members
            then ArrivedOnce(r.state.threads[t], r.state.inbox[u]) else NeverArrived(r.state.threads[t], r.state.inbox[u])
  {
    Prefix(r, r0);
    var s := r0.before.state;
    assert CanSnapshot(s, t);
    assert SendsTo(r0.state, t, s.threads[t].user, s.rooms[s.threads[t].at.room].members);
    StillSendsTo(r, r0, t, s.threads[t].user, s.rooms[s.threads[t].at.room].members);
    ExactlyOnce(r, t, u);
  }

  lemma {:induction false} Prefix(r: Run, r0: Run)
    requires IsRun(r) && GoesOnFrom(r, r0)
    ensures IsRun(r0)
  {
    if r != r0 {
      Prefix(r.before, r0);
    }
  }

  /** Two messages of one session arrive everywhere in the order in which their threads got the session's mutex,
      whichever chats they go to and wherever those are. */
  lemma {:induction false} InOrder(r: Run, t1: Tid, t2: Tid, to: UserID, i: nat, j: nat)
    requires IsRun(r) && to in r.state.inbox && t1 in r.state.threads && t2 in r.state.threads
    requires r.state.threads[t1].op.Send? && r.state.threads[t2].op.Send?
    requires r.state.threads[t1].user == r.state.threads[t2].user
    requires r.state.threads[t1].turn < r.state.threads[t2].turn
    requires i < |r.state.inbox[to]| && r.state.inbox[to][i] == MessageOf(r.state.threads[t1])
    requires j < |r.state.inbox[to]| && r.state.inbox[to][j] == MessageOf(r.state.threads[t2])
    ensures i < j
  {
    MailOf(r, t1, to, j, i);
  }
}
