/** What a frontend gets to see, told from what happens alone. */
module GatewayTraffic {
  import opened Wrappers
  import opened Gateway

  // ----- Told from the script -----

  /** Who is attached, who is negotiating, how many connections were accepted, and what
      went wrong since the last attachment. */
  datatype Standing = Standing(frontend: Option<nat>, candidate: Option<nat>, accepted: nat, trouble: Option<string>)

  /** A connection is attached when its negotiation succeeds, until it is lost, lags
      behind or another one is attached; one candidate negotiates at a time. A failed
      candidate is no trouble while another connection is attached. */
  function After(at: Standing, branch: Branch): Standing {
    match branch
    case Connecting(true) =>
      if at.candidate.None? then at.(candidate := Some(at.accepted), accepted := at.accepted + 1) else at
    case Negotiated(None) => if at.candidate.Some? then Standing(at.candidate, None, at.accepted, None) else at
    case Negotiated(Some(error)) =>
      at.(candidate := None, trouble := if at.candidate.Some? && at.frontend.None? then Some(error) else at.trouble)
    case Lost(cause) => if at.frontend.Some? then Left(at, if cause.Some? then cause.value else "native frontend connection closed") else at
    case Lagged => if at.frontend.Some? then Left(at, "native frontend missed events") else at
    case _ => at
  }

  function Left(at: Standing, trouble: string): Standing {
    at.(frontend := None, trouble := Some(trouble))
  }

  function StandingOf(script: seq<Occasion>): Standing {
    if script == [] then Standing(None, None, 0, None)
    else After(StandingOf(script[..|script| - 1]), script[|script| - 1].branch)
  }

  /** The events that were notified while the connection was attached, in order. */
  function NotifiedTo(script: seq<Occasion>, connection: nat): seq<string> {
    if script == [] then []
    else
      var before, branch := script[..|script| - 1], script[|script| - 1].branch;
      NotifiedTo(before, connection) +
      if branch.Notified? && StandingOf(before).frontend == Some(connection) then [branch.event] else []
  }

  /** A request that was received, on which connection, and whether it resumes a session. */
  datatype Asked = Asked(connection: nat, id: string, resume: bool)

  function AskedIn(script: seq<Occasion>): seq<Asked> {
    if script == [] then []
    else
      var before, branch := script[..|script| - 1], script[|script| - 1].branch;
      var at := StandingOf(before);
      AskedIn(before) +
      if branch.Received? && branch.message.Request? && at.frontend.Some? then [Asked(at.frontend.value, branch.message.id, branch.message.resume)] else []
  }

  // ----- When the loop ends -----

  /** How many occasions the loop takes: all of them unless it ends before. */
  function Lasts(began: int, script: seq<Occasion>): (n: nat)
    ensures n <= |script|
  {
    if script == [] then 0
    else
      var before := script[..|script| - 1];
      if Run(Start(began), before).ended.Some? then Lasts(began, before) else |script|
  }

  /** The loop ends exactly on these occasions, and with this outcome. */
  lemma EndsExactly(s: State, o: Occasion)
    requires s.ended.None?
    ensures var ended := Step(s, o).ended;
            && (ended == Some(Finished) <==> o.branch.Stopped? || o.branch.Revoked? || o.branch == Closed(None))
            && (forall reason :: ended == Some(SessionClosed(reason)) <==> o.branch == Closed(Some(reason)))
            && (forall detail :: ended == Some(Unattached(detail)) <==>
                  o.branch.TimedOut? && s.frontend.None? && o.now >= s.deadline && detail == s.lastError)
            && (ended == Some(Transport) <==>
                  || (o.branch == Connecting(false) && s.handshakes == [])
                  || (o.branch == Received(Malformed) && s.frontend.Some?)
                  || o.branch.EventsEnded?)
            && (ended == Some(Busy) <==>
                  o.branch.Received? && o.branch.message.Request? && s.frontend.Some? && |s.pending| >= MAX_PENDING_REQUESTS)
            && (ended == Some(Refused) <==>
                  || (o.branch == Received(Response(false)) && s.frontend.Some?)
                  || (o.branch.Answered? && o.branch.index < |s.pending| && s.pending[o.branch.index].resume && o.branch.ok
                      && o.branch.prompts.None? && s.frontend.Some? && s.pending[o.branch.index].epoch == s.epoch))
  {}

  // ----- The loop agrees -----

  function EventsOn(sent: seq<Sent>, connection: nat): seq<string> {
    if sent == [] then []
    else
      var last := sent[|sent| - 1];
      EventsOn(sent[..|sent| - 1], connection) +
      if last.connection == connection && last.content.Event? then [last.content.event] else []
  }

  lemma {:induction false} EventsAppend(a: seq<Sent>, b: seq<Sent>, connection: nat)
    ensures EventsOn(a + b, connection) == EventsOn(a, connection) + EventsOn(b, connection)
  {
    if b == [] {
      assert a + b == a;
    } else {
      var n := |b| - 1;
      EventsAppend(a, b[..n], connection);
      assert (a + b)[..|a + b| - 1] == a + b[..n];
    }
  }

  lemma {:induction false} NoEvents(sent: seq<Sent>, connection: nat)
    requires forall e :: e in sent ==> !e.content.Event?
    ensures EventsOn(sent, connection) == []
  {
    if sent != [] {
      NoEvents(sent[..|sent| - 1], connection);
    }
  }

  lemma OneEvent(e: Sent, connection: nat)
    requires e.content.Event?
    ensures EventsOn([e], connection) == if e.connection == connection then [e.content.event] else []
  {
    assert [e][..0] == [];
  }

  /** The state of the loop is that standing. */
  predicate Agrees(s: State, at: Standing) {
    && s.frontend == at.frontend && s.accepted == at.accepted && s.lastError == at.trouble
    && s.handshakes == if at.candidate.Some? then [at.candidate.value] else []
  }

  lemma AttachAgrees(s: State, at: Standing, error: Option<string>)
    requires Agrees(s, at) && s.handshakes != []
    ensures Agrees(Attach(s, error), After(at, Negotiated(error)))
  {}

  lemma TrafficAgrees(s: State, at: Standing, o: Occasion)
    requires Agrees(s, at) && s.ended.None? && (o.branch.Received? || o.branch.Answered? || o.branch.Notified?)
    ensures Agrees(Step(s, o), After(at, o.branch))
  {}

  lemma StepAgrees(s: State, at: Standing, o: Occasion)
    requires Agrees(s, at) && s.ended.None?
    ensures Agrees(Step(s, o), After(at, o.branch))
  {
    match o.branch
    case Negotiated(error) => if s.handshakes != [] { AttachAgrees(s, at, error); }
    case Received(_) => TrafficAgrees(s, at, o);
    case Answered(_, _, _) => TrafficAgrees(s, at, o);
    case Notified(_) => TrafficAgrees(s, at, o);
    case _ =>
  }

  /** What one occasion sends: an event, or a reply and prompts. */
  lemma StepSends(s: State, o: Occasion) returns (more: seq<Sent>)
    requires s.ended.None?
    ensures Step(s, o).sent == s.sent + more
    ensures o.branch.Notified? ==>
              more == if s.frontend.Some? then [Sent(s.frontend.value, Event(o.branch.event))] else []
    ensures !o.branch.Notified? ==> forall e :: e in more ==> !e.content.Event?
  {
    more := Step(s, o).sent[|s.sent|..];
  }

  lemma {:induction false} RunAgrees(began: int, script: seq<Occasion>)
    ensures var taken := script[..Lasts(began, script)];
            Run(Start(began), script).ended.None? ==> taken == script && Agrees(Run(Start(began), script), StandingOf(script))
  {
    if script != [] {
      var n := |script| - 1;
      RunAgrees(began, script[..n]);
      if Run(Start(began), script[..n]).ended.None? {
        StepAgrees(Run(Start(began), script[..n]), StandingOf(script[..n]), script[n]);
        assert script[..|script|] == script;
      }
    }
  }

  /** An occasion behind the end changes neither the run nor how long it lasted. */
  lemma BehindTheEnd(began: int, script: seq<Occasion>)
    requires script != [] && Run(Start(began), script[..|script| - 1]).ended.Some?
    ensures Run(Start(began), script) == Run(Start(began), script[..|script| - 1])
    ensures script[..Lasts(began, script)] == script[..|script| - 1][..Lasts(began, script[..|script| - 1])]
  {}

  /** Whatever happens, a connection is sent exactly the events that are notified while
      it is attached and the loop runs, each once and in order. */
  lemma {:induction false} EventsReachTheFrontend(began: int, script: seq<Occasion>, connection: nat)
    ensures EventsOn(Run(Start(began), script).sent, connection)
            == NotifiedTo(script[..Lasts(began, script)], connection)
  {
    if script != [] {
      var n := |script| - 1;
      var before := Run(Start(began), script[..n]);
      EventsReachTheFrontend(began, script[..n], connection);
      if before.ended.Some? {
        BehindTheEnd(began, script);
      } else {
        RunAgrees(began, script[..n]);
        EventStep(before, script[n], connection);
        assert script[..|script|] == script;
      }
    }
  }

  lemma EventStep(s: State, o: Occasion, connection: nat)
    requires s.ended.None?
    ensures EventsOn(Step(s, o).sent, connection) == EventsOn(s.sent, connection) +
              if o.branch.Notified? && s.frontend == Some(connection) then [o.branch.event] else []
  {
    var more := StepSends(s, o);
    EventsAppend(s.sent, more, connection);
    if more != [] && o.branch.Notified? {
      OneEvent(more[0], connection);
    } else {
      NoEvents(more, connection);
    }
  }

  // ----- Replies -----

  /** Every request that was taken is known by its ticket, and so is every reply. */
  ghost predicate Numbered(s: State, asked: seq<Asked>) {
    && |s.arrivals| <= |asked| && (s.ended.None? ==> |s.arrivals| == |asked|)
    && (forall i :: 0 <= i < |s.arrivals| ==> asked[i].connection == s.arrivals[i])
    && (forall p :: p in s.pending ==> p.ticket < |s.arrivals| && asked[p.ticket].id == p.id && asked[p.ticket].resume == p.resume)
    && (forall e :: e in s.sent && e.content.Reply? ==> e.content.ticket < |s.arrivals| && asked[e.content.ticket].id == e.content.id)
  }

  lemma NumberedGrows(s: State, asked: seq<Asked>, more: seq<Asked>)
    requires Numbered(s, asked)
    ensures s.ended.Some? || more == [] ==> Numbered(s, asked + more)
  {
    assert asked + [] == asked;
  }

  lemma RequestNumbered(s: State, asked: seq<Asked>, id: string, resume: bool)
    requires Numbered(s, asked) && s.ended.None? && s.frontend.Some?
    ensures Numbered(Receive(s, Request(id, resume)), asked + [Asked(s.frontend.value, id, resume)])
  {}

  lemma AnswerNumbered(s: State, asked: seq<Asked>, index: nat, ok: bool, prompts: Option<seq<string>>)
    requires Numbered(s, asked) && s.ended.None? && index < |s.pending|
    ensures Numbered(Answer(s, index, ok, prompts), asked)
  {
    var p := s.pending[index];
    var rest := s.pending[..index] + s.pending[index + 1..];
    assert p in s.pending && forall q :: q in rest ==> q in s.pending;
  }

  /** Any other occasion leaves the requests alone and sends no reply. */
  lemma OtherNumbered(s: State, asked: seq<Asked>, o: Occasion)
    requires Numbered(s, asked) && s.ended.None?
    requires !o.branch.Answered? && !(o.branch.Received? && o.branch.message.Request?)
    ensures Numbered(Step(s, o), asked)
  {}

  lemma StepNumbered(s: State, asked: seq<Asked>, o: Occasion)
    requires Numbered(s, asked) && s.ended.None?
    ensures Numbered(Step(s, o), asked +
              if o.branch.Received? && o.branch.message.Request? && s.frontend.Some?
              then [Asked(s.frontend.value, o.branch.message.id, o.branch.message.resume)] else [])
  {
    assert asked + [] == asked;
    match o.branch
    case Received(Request(id, resume)) => if s.frontend.Some? { RequestNumbered(s, asked, id, resume); }
    case Answered(index, ok, prompts) => if index < |s.pending| { AnswerNumbered(s, asked, index, ok, prompts); }
    case _ => OtherNumbered(s, asked, o);
  }

  lemma {:induction false} RunNumbered(began: int, script: seq<Occasion>)
    ensures Numbered(Run(Start(began), script), AskedIn(script[..Lasts(began, script)]))
  {
    if script != [] {
      var n := |script| - 1;
      RunNumbered(began, script[..n]);
      if Run(Start(began), script[..n]).ended.Some? {
        BehindTheEnd(began, script);
      } else {
        RunAgrees(began, script[..n]);
        StepNumbered(Run(Start(began), script[..n]), AskedIn(script[..n]), script[n]);
        assert script[..|script|] == script;
      }
    }
  }

  /** A reply carries the identifier of a request that was received on its connection. */
  lemma RepliesAnswerRequests(began: int, script: seq<Occasion>, e: Sent)
    requires e in Run(Start(began), script).sent && e.content.Reply?
    ensures var asked := AskedIn(script[..Lasts(began, script)]);
            e.content.ticket < |asked| && asked[e.content.ticket].connection == e.connection && asked[e.content.ticket].id == e.content.id
  {
    RunNumbered(began, script);
    RepliesGoHomeOnce(began, script);
  }

  /** What is still pending are requests as they were received. */
  lemma PendingAsReceived(began: int, script: seq<Occasion>, p: Pending)
    requires p in Run(Start(began), script).pending
    ensures var s, asked := Run(Start(began), script), AskedIn(script[..Lasts(began, script)]);
            p.ticket < |s.arrivals| && p.ticket < |asked| && asked[p.ticket] == Asked(s.arrivals[p.ticket], p.id, p.resume)
  {
    RunNumbered(began, script);
  }

  /** A loop that nobody attached to ends with what went wrong last. */
  lemma {:induction false} TimeOutTellsWhy(began: int, script: seq<Occasion>, detail: Option<string>)
    requires Run(Start(began), script).ended == Some(Unattached(detail))
    ensures var n := Lasts(began, script);
            n > 0 && script[n - 1].branch.TimedOut? && StandingOf(script[..n - 1]).frontend.None? && StandingOf(script[..n - 1]).trouble == detail
  {
    var n := |script| - 1;
    var before := Run(Start(began), script[..n]);
    if before.ended.Some? {
      BehindTheEnd(began, script);
      TimeOutTellsWhy(began, script[..n], detail);
      var k := Lasts(began, script[..n]);
      assert script[..n][k - 1] == script[k - 1] && script[..n][..k - 1] == script[..k - 1];
    } else {
      RunAgrees(began, script[..n]);
      EndsExactly(before, script[n]);
    }
  }

  /** What an answer sends: nothing if its connection is gone, and otherwise the reply
      and, when a session was resumed, every outstanding prompt behind it. */
  lemma AnswerSends(s: State, now: int, index: nat, ok: bool, prompts: Option<seq<string>>)
    requires Sound(s) && s.ended.None? && index < |s.pending|
    ensures var p := s.pending[index];
            var t := Step(s, Occasion(now, Answered(index, ok, prompts)));
            var count := if p.resume && ok && prompts.Some? then |prompts.value| else 0;
            && p.ticket < |s.arrivals|
            && (s.frontend != Some(s.arrivals[p.ticket]) ==> t.sent == s.sent)
            && (s.frontend == Some(s.arrivals[p.ticket]) ==>
                  && |t.sent| == |s.sent| + 1 + count && t.sent[..|s.sent|] == s.sent
                  && t.sent[|s.sent|] == Sent(s.arrivals[p.ticket], Reply(p.ticket, p.id, ok))
                  && forall i :: 0 <= i < count ==> t.sent[|s.sent| + 1 + i] == Sent(s.arrivals[p.ticket], Prompt(prompts.value[i])))
  {
    var p := s.pending[index];
    assert AtHome(s, p);
  }
}
