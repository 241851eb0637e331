/** How operations end, in every run of interleaved threads: each has had its effect, or has met with one of the reasons
    for which the program gives it up. */
module ThreadOutcomes {
  import opened Wrappers
  import opened Threads
  import opened ThreadSafety
  import opened ThreadMail
  import opened ThreadRuns

  ghost predicate IsOver(s: State, t: Tid) {
    t in s.threads && (s.threads[t].at.Releasing? || s.threads[t].at.Closing? || s.threads[t].at.Finished?)
  }

  /** The step `a` of thread `t` ends an invitation: the session does not have the chat; the user to be invited is in it
      already, has no session, or has the chat in its session; the chat is not in its server's map, where a user of that
      server would get it from; or the invited user is in. */
  ghost predicate EndsInvite(s: State, a: Action, s': State, t: Tid) {
    && t in s.threads && s.threads[t].op.Invite?
    && var (p, guest, id) := (s.threads[t], s.threads[t].op.invitee, s.threads[t].op.id);
       match a
       case Find(_) => Found(s, p.user, id) == None
       case Check(_) => p.at.HasRoom? && p.at.room in s.rooms && guest in s.rooms[p.at.room].members
       case TakeSessions(_) => guest !in s.sessions
       case TakeChats(_) => s.home(guest) == s.home(id) && id !in s.chats
       case EnterInvitee(_) => guest in s.sessions && id in s.sessions[guest].entries
       case EndTelling(_) => p.at.Spreading? && p.at.room in s'.rooms && guest in s'.rooms[p.at.room].members
       case _ => false
  }

  /** The same of a message: the session does not have the chat, or everyone in the snapshot has got it. */
  ghost predicate EndsSend(s: State, a: Action, t: Tid) {
    && t in s.threads && s.threads[t].op.Send?
    && match a
       case Find(_) => Found(s, s.threads[t].user, s.threads[t].op.id) == None
       case Release(_) => forall u :: u in s.threads[t].snapshot ==> HasSentTo(s.threads[t], u)
       case _ => false
  }

  /** The same of a leave: the session does not have the chat; the user is not in it; the map no longer has it; or the
      session has forgotten it. */
  ghost predicate EndsLeave(s: State, a: Action, s': State, t: Tid) {
    && t in s.threads && s.threads[t].op.Leave?
    && var (p, id) := (s.threads[t], s.threads[t].op.id);
       match a
       case Find(_) => Found(s, p.user, id) == None
       case Part(_) => p.at.HasRoom? && p.at.room in s.rooms && p.user !in s.rooms[p.at.room].members
       case Unlist(_) => id !in s.chats
       case Forget(_) => p.user in s'.sessions && id !in s'.sessions[p.user].entries
       case _ => false
  }

  ghost predicate Ends(s: State, a: Action, s': State, t: Tid) {
    a.t == t && (EndsInvite(s, a, s', t) || EndsSend(s, a, t) || EndsLeave(s, a, s', t))
  }

  ghost predicate IsSame(s: State, s': State, t: Tid) {
    t in s.threads && t in s'.threads && s'.threads[t].user == s.threads[t].user && s'.threads[t].op == s.threads[t].op
  }

  lemma OpenEnds(s: State, a: Action, s': State, t: Tid)
    requires MailInv(s) && OpenNext(s, a, s') && IsOver(s', t) && !s'.threads[t].op.Open?
    ensures IsOver(s, t) && IsSame(s, s', t)
  {
    assert TurnAt(s, a.t);
  }

  lemma SendEnds(s: State, a: Action, s': State, t: Tid)
    requires MailInv(s) && SendNext(s, a, s') && IsOver(s', t) && !s'.threads[t].op.Open?
    ensures IsSame(s, s', t) && (IsOver(s, t) || Ends(s, a, s', t))
  {
    assert TurnAt(s, t);
  }

  lemma InviteEnds(s: State, a: Action, s': State, t: Tid)
    requires InviteNext(s, a, s') && IsOver(s', t)
    ensures IsSame(s, s', t) && (IsOver(s, t) || Ends(s, a, s', t))
  {}

  lemma LeaveEnds(s: State, a: Action, s': State, t: Tid)
    requires Inv(s) && LeaveNext(s, a, s') && IsOver(s', t)
    ensures IsSame(s, s', t) && (IsOver(s, t) || Ends(s, a, s', t))
  {
    Knows(s, t);
  }

  lemma NextEnds(s: State, a: Action, s': State, t: Tid)
    requires Inv(s) && MailInv(s) && Next(s, a, s') && IsOver(s', t) && !s'.threads[t].op.Open?
    ensures IsSame(s, s', t) && (IsOver(s, t) || Ends(s, a, s', t))
  {
    if OpenNext(s, a, s') {
      OpenEnds(s, a, s', t);
    } else if SendNext(s, a, s') {
      SendEnds(s, a, s', t);
    } else if InviteNext(s, a, s') {
      InviteEnds(s, a, s', t);
    } else {
      LeaveEnds(s, a, s', t);
    }
  }

  /** An invitation, a message or a leave that is over has ended in one of those ways: `r0` is the run up to there. */
  lemma {:induction false} Outcome(r: Run, t: Tid) returns (r0: Run)
    requires IsRun(r) && Along(r, {UnlistEmpty}) && IsOver(r.state, t) && !r.state.threads[t].op.Open?
    ensures GoesOnFrom(r, r0) && r0.Then? && Ends(r0.before.state, r0.action, r0.state, t)
    ensures IsSame(r0.before.state, r.state, t)
  {
    match r
    case Then(before, a, s) =>
      RunPlaced(before);
      RunMail(before);
      NextEnds(before.state, a, s, t);
      if IsOver(before.state, t) {
        r0 := Outcome(before, t);
      } else {
        r0 := r;
      }
  }
}
