/** The loop that serves one native frontend at a time. */
module Gateway {
  import opened Wrappers

  const ATTACH_TIMEOUT := 30
  const MAX_PENDING_REQUESTS := 64

  // ----- What can happen -----

  datatype Message =
    | Malformed
    | Initialized
    | Request(id: string, resume: bool)
    | Notification
    | Response(taken: bool)
    | Blank
    | Heartbeat

  /** The branches of the selection, each with what it receives. `Answered` names a
      pending request by its place, since they finish in any order; its prompts are
      missing when the backend cannot list them. */
  datatype Branch =
    | Stopped
    | Revoked
    | Closed(reason: Option<string>)
    | TimedOut
    | Connecting(accepted: bool)
    | Negotiated(error: Option<string>)
    | Received(message: Message)
    | Lost(cause: Option<string>)
    | Answered(index: nat, ok: bool, prompts: Option<seq<string>>)
    | Notified(event: string)
    | Lagged
    | EventsEnded

  datatype Occasion = Occasion(now: int, branch: Branch)

  /** `Unattached` tells what went wrong last, if anything did. */
  datatype Outcome =
    Finished | SessionClosed(reason: string) | Unattached(detail: Option<string>) | Transport | Busy | Refused

  // ----- The state of the loop -----

  /** A dispatched request: its number, the epoch it arrived in and its RPC id. */
  datatype Pending = Pending(ticket: nat, epoch: nat, id: string, resume: bool)

  datatype Content = Reply(ticket: nat, id: string, ok: bool) | Prompt(request: string) | Event(event: string)

  datatype Sent = Sent(connection: nat, content: Content)

  /** Connections are numbered as they are accepted. The last three fields are
      history: the connection of each epoch, the connection each request arrived
      on, and what was sent where. */
  datatype State = State(
    frontend: Option<nat>, epoch: nat, pending: seq<Pending>, handshakes: seq<nat>, deadline: int,
    lastError: Option<string>, accepted: nat, ended: Option<Outcome>,
    connections: seq<nat>, arrivals: seq<nat>, sent: seq<Sent>)

  function Start(now: int): State {
    State(None, 0, [], [], now + ATTACH_TIMEOUT, None, 0, None, [], [], [])
  }

  /** The guards of the selection. */
  predicate Enabled(s: State, o: Occasion) {
    match o.branch
    case TimedOut => s.frontend.None? && o.now >= s.deadline
    case Connecting(_) => s.handshakes == []
    case Negotiated(_) => s.handshakes != []
    case Received(_) => s.frontend.Some?
    case Lost(_) => s.frontend.Some?
    case Answered(index, _, _) => index < |s.pending|
    case _ => true
  }

  function Attach(s: State, error: Option<string>): State
    requires s.handshakes != []
  {
    var rest := s.(handshakes := s.handshakes[1..]);
    if error.None? then
      rest.(frontend := Some(s.handshakes[0]), epoch := s.epoch + 1, lastError := None, connections := s.connections + [s.handshakes[0]])
    else if s.frontend.None? then rest.(lastError := error)
    else rest
  }

  function Detach(s: State, now: int, error: string): State {
    s.(frontend := None, deadline := now + ATTACH_TIMEOUT, lastError := Some(error))
  }

  function Receive(s: State, message: Message): State
    requires s.frontend.Some?
  {
    match message
    case Malformed => s.(ended := Some(Transport))
    case Request(id, resume) =>
      if |s.pending| >= MAX_PENDING_REQUESTS then s.(ended := Some(Busy))
      else
        s.(pending := s.pending + [Pending(|s.arrivals|, s.epoch, id, resume)],
           arrivals := s.arrivals + [s.frontend.value])
    case Response(taken) => if taken then s else s.(ended := Some(Refused))
    case _ => s
  }

  function Prompts(connection: nat, requests: seq<string>): seq<Sent> {
    seq(|requests|, i requires 0 <= i < |requests| => Sent(connection, Prompt(requests[i])))
  }

  function Answer(s: State, index: nat, ok: bool, prompts: Option<seq<string>>): State
    requires index < |s.pending|
  {
    var p := s.pending[index];
    var rest := s.(pending := s.pending[..index] + s.pending[index + 1..]);
    if p.epoch != s.epoch || s.frontend.None? then rest
    else
      var replied := s.sent + [Sent(s.frontend.value, Reply(p.ticket, p.id, ok))];
      if !p.resume || !ok then rest.(sent := replied)
      else if prompts.None? then rest.(sent := replied, ended := Some(Refused))
      else rest.(sent := replied + Prompts(s.frontend.value, prompts.value))
  }

  function Step(s: State, o: Occasion): State {
    if s.ended.Some? || !Enabled(s, o) then s
    else
      match o.branch
      case Stopped => s.(ended := Some(Finished))
      case Revoked => s.(ended := Some(Finished))
      case Closed(reason) => s.(ended := Some(if reason.Some? then SessionClosed(reason.value) else Finished))
      case TimedOut => s.(ended := Some(Unattached(s.lastError)))
      case Connecting(accepted) =>
        if accepted then s.(handshakes := s.handshakes + [s.accepted], accepted := s.accepted + 1)
        else s.(ended := Some(Transport))
      case Negotiated(error) => Attach(s, error)
      case Received(message) => Receive(s, message)
      case Lost(cause) => Detach(s, o.now, if cause.Some? then cause.value else "native frontend connection closed")
      case Answered(index, ok, prompts) => Answer(s, index, ok, prompts)
      case Notified(event) =>
        if s.frontend.Some? then s.(sent := s.sent + [Sent(s.frontend.value, Event(event))]) else s
      case Lagged => if s.frontend.Some? then Detach(s, o.now, "native frontend missed events") else s
      case EventsEnded => s.(ended := Some(Transport))
  }

  function Run(s: State, script: seq<Occasion>): State {
    if script == [] then s else Step(Run(s, script[..|script| - 1]), script[|script| - 1])
  }

  // ----- The loop itself -----

  method Serve(began: int, revoked: bool, closed: bool, script: seq<Occasion>) returns (outcome: Option<Outcome>, sent: seq<Sent>)
    ensures revoked || closed ==> outcome.Some? && outcome.value.SessionClosed? && sent == []
    ensures !revoked && !closed ==> outcome == Run(Start(began), script).ended && sent == Run(Start(began), script).sent
  {
    sent := [];
    if revoked || closed {
      return Some(SessionClosed("session is closed")), [];
    }
    var frontend: Option<nat> := None;
    var epoch, accepted := 0, 0;
    var pending: seq<Pending> := [];
    var handshakes: seq<nat> := [];
    var deadline := began + ATTACH_TIMEOUT;
    var lastError: Option<string> := None;
    var requests := 0;
    ghost var state := Start(began);
    outcome := None;
    var i := 0;
    while i < |script| && outcome.None?
      invariant 0 <= i <= |script|
      invariant state == Run(Start(began), script[..i])
      invariant state == State(frontend, epoch, pending, handshakes, deadline, lastError, accepted, outcome,
                               state.connections, state.arrivals, sent)
      invariant requests == |state.arrivals|
    {
      var o := script[i];
      assert script[..i + 1][..i] == script[..i] && script[..i + 1][i] == o;
      if Enabled(State(frontend, epoch, pending, handshakes, deadline, lastError, accepted, outcome, [], [], sent), o) {
        match o.branch
        case Stopped => outcome := Some(Finished);
        case Revoked => outcome := Some(Finished);
        case Closed(reason) => outcome := Some(if reason.Some? then SessionClosed(reason.value) else Finished);
        case TimedOut => outcome := Some(Unattached(lastError));
        case Connecting(ok) =>
          if ok {
            handshakes := handshakes + [accepted];
            accepted := accepted + 1;
          } else {
            outcome := Some(Transport);
          }
        case Negotiated(error) =>
          var next := handshakes[0];
          handshakes := handshakes[1..];
          if error.None? {
            epoch := epoch + 1;
            frontend := Some(next);
            lastError := None;
          } else if frontend.None? {
            lastError := error;
          }
        case Received(message) =>
          match message {
            case Malformed => outcome := Some(Transport);
            case Request(id, resume) =>
              if |pending| >= MAX_PENDING_REQUESTS {
                outcome := Some(Busy);
              } else {
                pending := pending + [Pending(requests, epoch, id, resume)];
                requests := requests + 1;
              }
            case Response(taken) =>
              if !taken {
                outcome := Some(Refused);
              }
            case _ =>
          }
        case Lost(cause) =>
          lastError := Some(if cause.Some? then cause.value else "native frontend connection closed");
          frontend := None;
          deadline := o.now + ATTACH_TIMEOUT;
        case Answered(index, ok, prompts) =>
          var p := pending[index];
          pending := pending[..index] + pending[index + 1..];
          if p.epoch == epoch && frontend.Some? {
            sent := sent + [Sent(frontend.value, Reply(p.ticket, p.id, ok))];
            if p.resume && ok {
              if prompts.None? {
                outcome := Some(Refused);
              } else {
                sent := sent + Prompts(frontend.value, prompts.value);
              }
            }
          }
        case Notified(event) =>
          if frontend.Some? {
            sent := sent + [Sent(frontend.value, Event(event))];
          }
        case Lagged =>
          if frontend.Some? {
            frontend := None;
            deadline := o.now + ATTACH_TIMEOUT;
            lastError := Some("native frontend missed events");
          }
        case EventsEnded => outcome := Some(Transport);
      }
      state := Step(state, o);
      i := i + 1;
    }
    RunEnded(Start(began), script, i);
    assert script[..|script|] == script;
  }

  /** Once ended, nothing more happens. */
  lemma {:induction false} RunEnded(s: State, script: seq<Occasion>, i: nat)
    requires i <= |script|
    ensures Run(s, script[..i]).ended.Some? ==> Run(s, script) == Run(s, script[..i])
    decreases |script|
  {
    if i < |script| {
      var n := |script| - 1;
      RunEnded(s, script[..n], i);
      assert script[..n][..i] == script[..i];
    } else {
      assert script[..i] == script;
    }
  }

  // ----- Safety -----

  /** What holds in every reachable state. */
  ghost predicate Sound(s: State) {
    && |s.handshakes| <= 1 && |s.pending| <= MAX_PENDING_REQUESTS
    && s.epoch == |s.connections|
    && (s.frontend.Some? ==> s.epoch > 0 && s.connections[s.epoch - 1] == s.frontend.value)
    && Fresh(s)
    && (forall p :: p in s.pending ==> AtHome(s, p))
    && (forall i, j :: 0 <= i < j < |s.pending| ==> s.pending[i].ticket != s.pending[j].ticket)
    && (forall e :: e in s.sent && e.content.Reply? ==> Replied(s, e))
    && (forall i, j :: 0 <= i < j < |s.sent| && s.sent[i].content.Reply? && s.sent[j].content.Reply? ==>
          s.sent[i].content.ticket != s.sent[j].content.ticket)
  }

  /** No two epochs share a connection. */
  ghost predicate Fresh(s: State) {
    && (forall i, j :: 0 <= i < j < |s.connections| ==> s.connections[i] != s.connections[j])
    && (forall c :: c in s.connections ==> c < s.accepted)
    && (forall c :: c in s.handshakes ==> c < s.accepted && c !in s.connections)
  }

  predicate AtHome(s: State, p: Pending) {
    p.ticket < |s.arrivals| && 1 <= p.epoch <= |s.connections| && s.arrivals[p.ticket] == s.connections[p.epoch - 1]
  }

  predicate Replied(s: State, e: Sent)
    requires e.content.Reply?
  {
    && e.content.ticket < |s.arrivals| && e.connection == s.arrivals[e.content.ticket]
    && forall p :: p in s.pending ==> p.ticket != e.content.ticket
  }

  lemma TakenSound(s: State, index: nat)
    requires Sound(s) && index < |s.pending|
    ensures var rest := s.(pending := s.pending[..index] + s.pending[index + 1..]);
            && Sound(rest)
            && forall q :: q in rest.pending ==> q.ticket != s.pending[index].ticket
  {
    var rest := s.pending[..index] + s.pending[index + 1..];
    assert forall i :: 0 <= i < |rest| ==> rest[i] == s.pending[if i < index then i else i + 1];
    assert forall q :: q in rest ==> q in s.pending;
  }

  lemma AnswerSound(s: State, index: nat, ok: bool, prompts: Option<seq<string>>)
    requires Sound(s) && index < |s.pending|
    ensures Sound(Answer(s, index, ok, prompts))
  {
    var p := s.pending[index];
    var rest := s.(pending := s.pending[..index] + s.pending[index + 1..]);
    TakenSound(s, index);
    if p.epoch == s.epoch && s.frontend.Some? {
      assert AtHome(s, p);
      ReplySound(rest, p, ok);
      var replied := rest.(sent := s.sent + [Sent(s.frontend.value, Reply(p.ticket, p.id, ok))]);
      if p.resume && ok {
        if prompts.Some? {
          SendSound(replied, Prompts(s.frontend.value, prompts.value));
        } else {
          RestSound(replied, replied.(ended := Some(Refused)));
        }
      }
    }
  }

  /** Losing the frontend, ending, and the clock do not matter here. */
  lemma RestSound(s: State, t: State)
    requires Sound(s) && (t.frontend == s.frontend || t.frontend.None?)
    requires t == s.(frontend := t.frontend, ended := t.ended, deadline := t.deadline, lastError := t.lastError)
    ensures Sound(t)
  {
    assert forall p :: p in s.pending ==> AtHome(s, p) && AtHome(t, p);
    assert forall e :: e in s.sent && e.content.Reply? ==> Replied(s, e) && Replied(t, e);
  }

  lemma AttachSound(s: State, error: Option<string>)
    requires Sound(s) && s.handshakes != []
    ensures Sound(Attach(s, error))
  {
    var t := Attach(s, error);
    assert s.handshakes[0] in s.handshakes && t.handshakes == [];
    assert forall i :: 0 <= i < |s.connections| ==> s.connections[i] in s.connections;
    assert forall p :: p in s.pending ==> AtHome(s, p) && AtHome(t, p);
    assert forall e :: e in s.sent && e.content.Reply? ==> Replied(s, e) && Replied(t, e);
  }

  lemma ConnectSound(s: State)
    requires Sound(s) && s.handshakes == []
    ensures Sound(s.(handshakes := s.handshakes + [s.accepted], accepted := s.accepted + 1))
  {
    var t := s.(handshakes := s.handshakes + [s.accepted], accepted := s.accepted + 1);
    assert forall p :: p in s.pending ==> AtHome(s, p) && AtHome(t, p);
    assert forall e :: e in s.sent && e.content.Reply? ==> Replied(s, e) && Replied(t, e);
  }

  lemma ReplySound(s: State, p: Pending, ok: bool)
    requires Sound(s) && AtHome(s, p) && s.frontend.Some? && p.epoch == s.epoch
    requires forall q :: q in s.pending ==> q.ticket != p.ticket
    requires forall e :: e in s.sent && e.content.Reply? ==> e.content.ticket != p.ticket
    ensures Sound(s.(sent := s.sent + [Sent(s.frontend.value, Reply(p.ticket, p.id, ok))]))
  {}

  lemma SendSound(s: State, more: seq<Sent>)
    requires Sound(s) && forall e :: e in more ==> !e.content.Reply?
    ensures Sound(s.(sent := s.sent + more))
  {}

  lemma RequestSound(s: State, id: string, resume: bool)
    requires Sound(s) && s.frontend.Some?
    ensures Sound(Receive(s, Request(id, resume)))
  {
    if |s.pending| < MAX_PENDING_REQUESTS {
      var t := Receive(s, Request(id, resume));
      assert forall p :: p in t.pending ==> p in s.pending || p == t.pending[|s.pending|];
      assert forall p :: p in s.pending ==> AtHome(s, p) && AtHome(t, p);
      assert forall i :: 0 <= i < |s.pending| ==> s.pending[i] in s.pending && t.pending[i] == s.pending[i];
      assert forall e :: e in s.sent && e.content.Reply? ==> Replied(s, e) && Replied(t, e);
    }
  }

  lemma ReceiveSound(s: State, message: Message)
    requires Sound(s) && s.frontend.Some?
    ensures Sound(Receive(s, message))
  {
    if message.Request? {
      RequestSound(s, message.id, message.resume);
    } else {
      RestSound(s, Receive(s, message));
    }
  }

  lemma NotifySound(s: State, event: string)
    requires Sound(s) && s.frontend.Some?
    ensures Sound(s.(sent := s.sent + [Sent(s.frontend.value, Event(event))]))
  {
    SendSound(s, [Sent(s.frontend.value, Event(event))]);
  }

  /** Branches that end the loop, lose the frontend or change nothing. */
  lemma QuietSound(s: State, o: Occasion)
    requires Sound(s) && s.ended.None? && Enabled(s, o)
    requires !o.branch.Negotiated? && !o.branch.Received? && !o.branch.Answered? && !o.branch.Notified?
    requires o.branch.Connecting? ==> !o.branch.accepted
    ensures Sound(Step(s, o))
  {
    RestSound(s, Step(s, o));
  }

  lemma EnabledSound(s: State, o: Occasion)
    requires Sound(s) && s.ended.None? && Enabled(s, o)
    ensures Sound(Step(s, o))
  {
    match o.branch
    case Connecting(true) => ConnectSound(s);
    case Negotiated(error) => AttachSound(s, error);
    case Received(message) => ReceiveSound(s, message);
    case Answered(index, ok, prompts) => AnswerSound(s, index, ok, prompts);
    case Notified(event) => if s.frontend.Some? { NotifySound(s, event); }
    case _ => QuietSound(s, o);
  }

  lemma StepSound(s: State, o: Occasion)
    requires Sound(s)
    ensures Sound(Step(s, o))
  {
    if s.ended.None? && Enabled(s, o) {
      EnabledSound(s, o);
    }
  }

  lemma {:induction false} RunSound(began: int, script: seq<Occasion>)
    ensures Sound(Run(Start(began), script))
  {
    if script != [] {
      RunSound(began, script[..|script| - 1]);
      StepSound(Run(Start(began), script[..|script| - 1]), script[|script| - 1]);
    }
  }

  /** Whatever happens, a reply goes only to the connection its request arrived on,
      and at most once, though requests outlive connections. */
  lemma RepliesGoHomeOnce(began: int, script: seq<Occasion>)
    ensures var s := Run(Start(began), script);
            && (forall e :: e in s.sent && e.content.Reply? ==>
                  e.content.ticket < |s.arrivals| && e.connection == s.arrivals[e.content.ticket])
            && (forall i, j :: 0 <= i < j < |s.sent| && s.sent[i].content.Reply? && s.sent[j].content.Reply? ==>
                  s.sent[i].content.ticket != s.sent[j].content.ticket)
  {
    RunSound(began, script);
  }

  /** At most so many requests and one handshake are pending. */
  lemma PendingBounded(began: int, script: seq<Occasion>)
    ensures |Run(Start(began), script).pending| <= MAX_PENDING_REQUESTS
    ensures |Run(Start(began), script).handshakes| <= 1
  {
    RunSound(began, script);
  }

  // ----- The frontend and its deadline -----

  /** A frontend goes away only by being lost, by lagging behind or by being
      replaced with a negotiated connection; then alone does it change. */
  lemma FrontendChanges(s: State, o: Occasion)
    requires Step(s, o).frontend != s.frontend
    ensures || (o.branch.Negotiated? && o.branch.error.None? && Step(s, o).frontend.Some? && Step(s, o).epoch == s.epoch + 1)
            || ((o.branch.Lost? || o.branch.Lagged?) && s.frontend.Some? && Step(s, o).frontend.None?)
  {}

  /** A rejected candidate leaves a healthy frontend and all its requests alone. */
  lemma RejectedCandidateHarmless(s: State, now: int, error: string)
    requires s.frontend.Some?
    ensures var t := Step(s, Occasion(now, Negotiated(Some(error))));
            t == s.(handshakes := t.handshakes)
  {}

  /** The deadline moves exactly when a frontend is lost, and then to its full length. */
  lemma DeadlineMoves(s: State, o: Occasion)
    ensures var t := Step(s, o);
            t.deadline == if s.frontend.Some? && t.frontend.None? then o.now + ATTACH_TIMEOUT else s.deadline
  {}

  /** While no frontend attaches, nothing extends the window, neither rejected
      candidates nor backlog; the time-out ends the loop once it has passed. */
  lemma {:induction false} WindowIsFixed(s: State, script: seq<Occasion>, now: int)
    requires s.frontend.None? && s.ended.None?
    requires forall o :: o in script ==> !(o.branch.Negotiated? && o.branch.error.None?)
    ensures var t := Run(s, script);
            && t.frontend.None? && t.deadline == s.deadline && t.sent == s.sent
            && Step(t, Occasion(now, TimedOut)).ended.Some? == (t.ended.Some? || now >= s.deadline)
  {
    if script != [] {
      var n := |script| - 1;
      assert forall o :: o in script[..n] ==> o in script;
      WindowIsFixed(s, script[..n], now);
      assert script[n] in script;
    }
  }

  // ----- What becomes of a request -----

  /** An answer is passed on exactly if its connection is still the frontend. */
  lemma AnsweredIffStillThere(s: State, now: int, index: nat, ok: bool, prompts: Option<seq<string>>)
    requires Sound(s) && s.ended.None? && index < |s.pending|
    ensures var p := s.pending[index];
            var t := Step(s, Occasion(now, Answered(index, ok, prompts)));
            && p.ticket < |s.arrivals|
            && if s.frontend == Some(s.arrivals[p.ticket])
               then |t.sent| > |s.sent| && t.sent[|s.sent|] == Sent(s.arrivals[p.ticket], Reply(p.ticket, p.id, ok))
               else t.sent == s.sent
  {
    var p := s.pending[index];
    assert AtHome(s, p);
  }
}
