/**
 * The robot's update loop inside the protocol: its sessions, with whatever everyone else does in between,
 * are runs, so what runs never do the loop never does.
 */
module UpdateSession {
  import opened OtaProtocol
  import opened OtaDelivery
  import opened UpdateAgent

  /** A message of the stream, and what others do before it comes and while its acknowledgement is out. */
  datatype Turn = Turn(before: seq<Step>, msg: Message, after: seq<Step>)

  /** What others do before the agent connects, and the session. */
  datatype Session = Session(before: seq<Step>, turns: seq<Turn>)

  function Messages(turns: seq<Turn>): (r: seq<Message>)
    ensures |r| == |turns|
  {
    if turns == [] then [] else [turns[0].msg] + Messages(turns[1..])
  }

  function AllMessages(sessions: seq<Session>): (r: seq<seq<Message>>)
    ensures |r| == |sessions|
  {
    if sessions == [] then [] else [Messages(sessions[0].turns)] + AllMessages(sessions[1..])
  }

  // ── The steps of a session ──────────────────────────────────────────────────

  function OwnSteps(device: string, ok: bool): seq<Step> {
    [Receive(device), Finish(device, ok), SendAck(device)]
  }

  /** One command: receive, apply, acknowledge, and the answer or the broken connection. */
  function TurnSteps(device: string, t: Turn): seq<Step> {
    match t.msg
    case StreamError => t.before + [Disconnect(device)]
    case Command(_, applies, acks) =>
      t.before + (OwnSteps(device, applies) + (t.after + [if acks then GetReply(device) else Disconnect(device)]))
  }

  /** The loop goes on after an answered command; when the stream ends the connection does too. */
  function SessionSteps(device: string, turns: seq<Turn>): seq<Step> {
    if turns == [] then [Disconnect(device)]
    else TurnSteps(device, turns[0]) + (if GoesOn(turns[0]) then SessionSteps(device, turns[1..]) else [])
  }

  predicate GoesOn(t: Turn) {
    t.msg.Command? && t.msg.acks
  }

  function LoopSteps(device: string, sessions: seq<Session>): seq<Step> {
    if sessions == [] then []
    else
      sessions[0].before + ([Connect(device)] + (SessionSteps(device, sessions[0].turns) +
        (if EndsWell(Messages(sessions[0].turns)) then [] else LoopSteps(device, sessions[1..]))))
  }

  predicate OthersOnly(device: string, steps: seq<Step>) {
    forall st :: st in steps ==> !Acts(st, device)
  }

  /** The command is next on the agent's stream, and an answered acknowledgement was processed. */
  ghost predicate TurnFed(s: Ota, device: string, t: Turn) {
    && OthersOnly(device, t.before) && OthersOnly(device, t.after)
    && (t.msg.Command? ==>
          var s1 := Run(s, t.before);
          var pc := AgentAt(s1, device);
          && pc.Watching? && pc.rx < |s1.hub.rx| && s1.hub.rx[pc.rx].wire != []
          && s1.hub.rx[pc.rx].wire[0] == t.msg.job
          && (t.msg.acks ==>
                var s3 := Run(Run(s1, OwnSteps(device, t.msg.applies)), t.after);
                |s1.acks| < |s3.acks| && s3.acks[|s1.acks|].state.Done?))
  }

  /** The messages are what the protocol brings to the agent's stream. */
  ghost predicate Fed(s: Ota, device: string, turns: seq<Turn>)
    decreases |turns|
  {
    turns == [] ||
    (&& TurnFed(s, device, turns[0])
     && (GoesOn(turns[0]) ==> Fed(Run(s, TurnSteps(device, turns[0])), device, turns[1..])))
  }

  ghost predicate AllFed(s: Ota, device: string, sessions: seq<Session>)
    decreases |sessions|
  {
    sessions == [] ||
    (var s1 := Next(Run(s, sessions[0].before), Connect(device));
     && OthersOnly(device, sessions[0].before) && Fed(s1, device, sessions[0].turns)
     && (!EndsWell(Messages(sessions[0].turns)) ==>
           AllFed(Run(s1, SessionSteps(device, sessions[0].turns)), device, sessions[1..])))
  }

  // ── What a run has the agent apply and acknowledge ──────────────────────────

  /** What a device finished and what it acknowledged, in order. */
  datatype Trace = Trace(done: seq<Application>, reported: seq<Application>)

  const IDLE := Trace([], [])

  function Both(applications: seq<Application>): Trace {
    Trace(applications, applications)
  }

  function Joined(first: Trace, second: Trace): Trace {
    Trace(first.done + second.done, first.reported + second.reported)
  }

  function StepTrace(pc: Pc, step: Step, device: string): Trace {
    if step.Finish? && step.device == device && pc.Applying? then Trace([Application(pc.job, step.ok)], [])
    else if step == SendAck(device) && pc.Applied? then Trace([], [Application(pc.job, pc.ok)])
    else IDLE
  }

  /** The applications that `device` finishes along a run, and the outcomes it acknowledges. */
  function TraceOf(s: Ota, steps: seq<Step>, device: string): Trace
    decreases |steps|
  {
    if steps == [] then IDLE
    else Joined(StepTrace(AgentAt(s, device), steps[0], device), TraceOf(Next(s, steps[0]), steps[1..], device))
  }

  lemma JoinedAssoc(a: Trace, b: Trace, c: Trace)
    ensures Joined(Joined(a, b), c) == Joined(a, Joined(b, c))
    ensures Joined(IDLE, a) == a == Joined(a, IDLE)
  {
  }

  lemma {:induction false} TraceConcat(s: Ota, steps: seq<Step>, more: seq<Step>, device: string)
    ensures TraceOf(s, steps + more, device) == Joined(TraceOf(s, steps, device), TraceOf(Run(s, steps), more, device))
    decreases |steps|
  {
    if steps == [] {
      assert steps + more == more;
      JoinedAssoc(TraceOf(s, more, device), IDLE, IDLE);
    } else {
      var s1, rest := Next(s, steps[0]), steps[1..];
      assert (steps + more)[0] == steps[0] && (steps + more)[1..] == rest + more;
      TraceConcat(s1, rest, more, device);
      JoinedAssoc(StepTrace(AgentAt(s, device), steps[0], device), TraceOf(s1, rest, device),
                  TraceOf(Run(s1, rest), more, device));
    }
  }

  lemma TraceOne(s: Ota, step: Step, device: string)
    ensures Run(s, [step]) == Next(s, step)
    ensures TraceOf(s, [step], device) == StepTrace(AgentAt(s, device), step, device)
  {
    assert [step][1..] == [];
    assert Run(Next(s, step), []) == Next(s, step);
  }

  lemma IdleFirst(s: Ota, first: seq<Step>, rest: seq<Step>, device: string)
    requires TraceOf(s, first, device) == IDLE
    ensures Run(s, first + rest) == Run(Run(s, first), rest)
    ensures TraceOf(s, first + rest, device) == TraceOf(Run(s, first), rest, device)
  {
    TraceConcat(s, first, rest, device);
    RunConcat(s, first, rest);
    JoinedAssoc(TraceOf(Run(s, first), rest, device), IDLE, IDLE);
  }

  lemma IdleLast(s: Ota, first: seq<Step>, last: seq<Step>, device: string)
    requires TraceOf(Run(s, first), last, device) == IDLE
    ensures Run(s, first + last) == Run(Run(s, first), last)
    ensures TraceOf(s, first + last, device) == TraceOf(s, first, device)
  {
    TraceConcat(s, first, last, device);
    RunConcat(s, first, last);
    JoinedAssoc(TraceOf(s, first, device), IDLE, IDLE);
  }

  lemma {:induction false} OthersDoNothing(s: Ota, steps: seq<Step>, device: string)
    requires OthersOnly(device, steps)
    ensures AgentAt(Run(s, steps), device) == AgentAt(s, device) && TraceOf(s, steps, device) == IDLE
    decreases |steps|
  {
    if steps != [] {
      assert !Acts(steps[0], device);
      OthersLeavePc(s, steps[0], device);
      OthersDoNothing(Next(s, steps[0]), steps[1..], device);
    }
  }

  /** Receiving, applying and acknowledging the next command. */
  lemma OwnStepsApply(s: Ota, device: string, ok: bool)
    requires var pc := AgentAt(s, device); pc.Watching? && pc.rx < |s.hub.rx| && s.hub.rx[pc.rx].wire != []
    ensures var r := AgentAt(s, device).rx;
            && TraceOf(s, OwnSteps(device, ok), device) == Both([Application(s.hub.rx[r].wire[0], ok)])
            && AgentAt(Run(s, OwnSteps(device, ok)), device) == Acking(r, |s.acks|)
  {
    var rest := [Finish(device, ok), SendAck(device)];
    assert OwnSteps(device, ok) == [Receive(device)] + rest;
    ReceiveIsIdle(s, device);
    AppliedAndAcked(Next(s, Receive(device)), device, ok);
    IdleFirst(s, [Receive(device)], rest, device);
  }

  lemma ReceiveIsIdle(s: Ota, device: string)
    requires var pc := AgentAt(s, device); pc.Watching? && pc.rx < |s.hub.rx| && s.hub.rx[pc.rx].wire != []
    ensures TraceOf(s, [Receive(device)], device) == IDLE && Run(s, [Receive(device)]) == Next(s, Receive(device))
    ensures var s1 := Next(s, Receive(device)); var r := AgentAt(s, device).rx;
            AgentAt(s1, device) == Applying(r, s.hub.rx[r].wire[0]) && s1.acks == s.acks
  {
    TraceOne(s, Receive(device), device);
  }

  lemma AppliedAndAcked(s: Ota, device: string, ok: bool)
    requires AgentAt(s, device).Applying?
    ensures var pc := AgentAt(s, device);
            var steps := [Finish(device, ok), SendAck(device)];
            && TraceOf(s, steps, device) == Both([Application(pc.job, ok)])
            && AgentAt(Run(s, steps), device) == Acking(pc.rx, |s.acks|)
  {
    var s1 := Next(s, Finish(device, ok));
    assert AgentAt(s1, device) == Applied(AgentAt(s, device).rx, AgentAt(s, device).job, ok) && s1.acks == s.acks;
    TraceOne(s, Finish(device, ok), device);
    TraceOne(s1, SendAck(device), device);
    TraceConcat(s, [Finish(device, ok)], [SendAck(device)], device);
    RunConcat(s, [Finish(device, ok)], [SendAck(device)]);
    assert [Finish(device, ok), SendAck(device)] == [Finish(device, ok)] + [SendAck(device)];
  }

  // ── A session, and all of them ──────────────────────────────────────────────

  /** What one message makes the agent apply. */
  function TurnApplications(t: Turn): seq<Application> {
    if t.msg.Command? then [Application(t.msg.job, t.msg.applies)] else []
  }

  /** Only the second of four parts has the device do anything. */
  lemma FourParts(s: Ota, first: seq<Step>, own: seq<Step>, third: seq<Step>, last: seq<Step>, device: string)
    requires var s1 := Run(s, first); var s2 := Run(s1, own); var s3 := Run(s2, third);
             TraceOf(s, first, device) == TraceOf(s2, third, device) == TraceOf(s3, last, device) == IDLE
    ensures var s1 := Run(s, first); var all := first + (own + (third + last));
            && Run(s, all) == Run(Run(Run(s1, own), third), last)
            && TraceOf(s, all, device) == TraceOf(s1, own, device)
  {
    var s1 := Run(s, first);
    IdleFirst(Run(s1, own), third, last, device);
    IdleLast(s1, own, third + last, device);
    IdleFirst(s, first, own + (third + last), device);
  }

  lemma EndOfTurn(s: Ota, device: string, acks: bool, k: nat)
    requires AgentAt(s, device).Acking? && AgentAt(s, device).ack == k
    requires acks ==> k < |s.acks| && s.acks[k].state.Done?
    ensures var last := if acks then GetReply(device) else Disconnect(device);
            && TraceOf(s, [last], device) == IDLE
            && (if acks then AgentAt(Run(s, [last]), device).Watching? else AgentAt(Run(s, [last]), device).Off?)
  {
    TraceOne(s, if acks then GetReply(device) else Disconnect(device), device);
  }

  lemma CommandTurn(s: Ota, device: string, t: Turn)
    requires AgentAt(s, device).Watching? && TurnFed(s, device, t) && t.msg.Command?
    ensures var steps := TurnSteps(device, t);
            && TraceOf(s, steps, device) == Both(TurnApplications(t))
            && (if t.msg.acks then AgentAt(Run(s, steps), device).Watching? else AgentAt(Run(s, steps), device).Off?)
  {
    var s1 := Run(s, t.before);
    OthersDoNothing(s, t.before, device);
    OwnStepsApply(s1, device, t.msg.applies);
    var s2 := Run(s1, OwnSteps(device, t.msg.applies));
    OthersDoNothing(s2, t.after, device);
    var s3 := Run(s2, t.after);
    var last := if t.msg.acks then GetReply(device) else Disconnect(device);
    EndOfTurn(s3, device, t.msg.acks, |s1.acks|);
    FourParts(s, t.before, OwnSteps(device, t.msg.applies), t.after, [last], device);
  }

  lemma ErrorTurn(s: Ota, device: string, t: Turn)
    requires TurnFed(s, device, t) && t.msg.StreamError?
    ensures var steps := TurnSteps(device, t);
            TraceOf(s, steps, device) == IDLE && AgentAt(Run(s, steps), device).Off?
  {
    OthersDoNothing(s, t.before, device);
    TraceOne(Run(s, t.before), Disconnect(device), device);
    IdleFirst(s, t.before, [Disconnect(device)], device);
  }

  lemma ApplicationsByTurn(turns: seq<Turn>)
    requires turns != []
    ensures Applications(Messages(turns)) ==
              TurnApplications(turns[0]) + (if GoesOn(turns[0]) then Applications(Messages(turns[1..])) else [])
  {
    var first, rest := turns[0].msg, Messages(turns[1..]);
    var all := Messages(turns);
    assert all == [first] + rest && all[1..] == rest;
    if GoesOn(turns[0]) {
      forall i | 0 <= i < Taken(rest) ensures Applications(all)[i + 1] == Applications(rest)[i] {
        assert all[i + 1] == rest[i];
      }
    }
  }

  /** A session of the loop is a run in which the agent applies and acknowledges just what the loop does. */
  lemma {:induction false} SessionIsARun(s: Ota, device: string, turns: seq<Turn>)
    requires AgentAt(s, device).Watching? && Fed(s, device, turns)
    ensures var steps := SessionSteps(device, turns);
            && TraceOf(s, steps, device) == Both(Applications(Messages(turns)))
            && AgentAt(Run(s, steps), device).Off?
    decreases |turns|
  {
    if turns == [] {
      TraceOne(s, Disconnect(device), device);
    } else {
      var t := turns[0];
      if t.msg.Command? {
        CommandTurn(s, device, t);
      } else {
        ErrorTurn(s, device, t);
      }
      ApplicationsByTurn(turns);
      var rest := if GoesOn(t) then SessionSteps(device, turns[1..]) else [];
      if GoesOn(t) {
        SessionIsARun(Run(s, TurnSteps(device, t)), device, turns[1..]);
      }
      TraceConcat(s, TurnSteps(device, t), rest, device);
      RunConcat(s, TurnSteps(device, t), rest);
    }
  }

  /** The sessions the loop goes through: up to the first that ends well. */
  function UntilGood(sessions: seq<seq<Message>>): seq<seq<Message>> {
    if sessions == [] then []
    else [sessions[0]] + (if EndsWell(sessions[0]) then [] else UntilGood(sessions[1..]))
  }

  lemma PrependKeepsEnd(session: seq<Message>, rest: seq<seq<Message>>)
    requires rest != []
    ensures var all := [session] + rest;
            && all[..|all| - 1] == [session] + rest[..|rest| - 1]
            && all[|all| - 1] == rest[|rest| - 1]
  {
  }

  lemma {:induction false} AllApplicationsCons(session: seq<Message>, rest: seq<seq<Message>>)
    ensures AllApplications([session] + rest) == Applications(session) + AllApplications(rest)
    decreases |rest|
  {
    var all := [session] + rest;
    assert AllApplications(all) == AllApplications(all[..|rest|]) + Applications(all[|rest|]);
    if rest == [] {
      assert all[..0] == [];
    } else {
      PrependKeepsEnd(session, rest);
      AllApplicationsCons(session, rest[..|rest| - 1]);
    }
  }

  lemma ApplicationsBySession(sessions: seq<Session>)
    requires sessions != []
    ensures var first := Messages(sessions[0].turns);
            AllApplications(UntilGood(AllMessages(sessions))) ==
              Applications(first) +
              (if EndsWell(first) then [] else AllApplications(UntilGood(AllMessages(sessions[1..]))))
  {
    var first := Messages(sessions[0].turns);
    var later := if EndsWell(first) then [] else UntilGood(AllMessages(sessions[1..]));
    assert AllMessages(sessions)[1..] == AllMessages(sessions[1..]);
    AllApplicationsCons(first, later);
    assert AllApplications([]) == [];
  }

  lemma ConnectAndServe(s: Ota, device: string, session: Session)
    requires AgentAt(s, device).Off? && OthersOnly(device, session.before)
    requires Fed(Next(Run(s, session.before), Connect(device)), device, session.turns)
    ensures var s1 := Next(Run(s, session.before), Connect(device));
            var steps := [Connect(device)] + SessionSteps(device, session.turns);
            && Run(s, session.before + steps) == Run(s1, SessionSteps(device, session.turns))
            && TraceOf(s, session.before + steps, device) == Both(Applications(Messages(session.turns)))
            && AgentAt(Run(s, session.before + steps), device).Off?
  {
    var s0 := Run(s, session.before);
    OthersDoNothing(s, session.before, device);
    TraceOne(s0, Connect(device), device);
    SessionIsARun(Next(s0, Connect(device)), device, session.turns);
    IdleFirst(s0, [Connect(device)], SessionSteps(device, session.turns), device);
    IdleFirst(s, session.before, [Connect(device)] + SessionSteps(device, session.turns), device);
  }

  lemma LoopStepsSplit(device: string, sessions: seq<Session>)
    requires sessions != []
    ensures LoopSteps(device, sessions) ==
              (sessions[0].before + ([Connect(device)] + SessionSteps(device, sessions[0].turns))) +
              (if EndsWell(Messages(sessions[0].turns)) then [] else LoopSteps(device, sessions[1..]))
  {
  }

  /** The whole loop, reconnects included, is a run in which the agent applies just what the loop does. */
  lemma {:induction false} LoopIsARun(s: Ota, device: string, sessions: seq<Session>)
    requires AgentAt(s, device).Off? && AllFed(s, device, sessions)
    ensures var steps := LoopSteps(device, sessions);
            TraceOf(s, steps, device) == Both(AllApplications(UntilGood(AllMessages(sessions))))
    decreases |sessions|
  {
    if sessions != [] {
      var first := sessions[0].before + ([Connect(device)] + SessionSteps(device, sessions[0].turns));
      var good := EndsWell(Messages(sessions[0].turns));
      var rest := if good then [] else LoopSteps(device, sessions[1..]);
      LoopStepsSplit(device, sessions);
      ConnectAndServe(s, device, sessions[0]);
      if !good {
        LoopIsARun(Run(s, first), device, sessions[1..]);
      }
      TraceConcat(s, first, rest, device);
      ApplicationsBySession(sessions);
    }
  }

  // ── What this gives for the loop ────────────────────────────────────────────

  /** What a device finishes is among what is finished, later than what was finished before. */
  lemma {:induction false} DoneIsFinished(s: Ota, steps: seq<Step>, device: string)
    ensures s.finished <= Run(s, steps).finished
    ensures forall a :: a in TraceOf(s, steps, device).done ==> a in Run(s, steps).finished[|s.finished|..]
    decreases |steps|
  {
    if steps != [] {
      var s1 := Next(s, steps[0]);
      var last := Run(s1, steps[1..]).finished;
      DoneIsFinished(s1, steps[1..], device);
      FinishedGrows(s, steps[0], device);
      assert forall a :: a in last[|s1.finished|..] ==> a in last[|s.finished|..];
      assert |s1.finished| > |s.finished| ==> last[|s.finished|..][0] == s1.finished[|s.finished|];
    }
  }

  lemma FinishedGrows(s: Ota, step: Step, device: string)
    ensures s.finished <= Next(s, step).finished
    ensures step.Finish? && step.device == device && AgentAt(s, device).Applying? ==>
              Next(s, step).finished == s.finished + [Application(AgentAt(s, device).job, step.ok)]
  {
  }

  lemma {:induction false} DoneOnce(s: Ota, steps: seq<Step>, device: string)
    requires OncePerFinish(Run(s, steps).finished)
    ensures OncePerFinish(TraceOf(s, steps, device).done)
    decreases |steps|
  {
    if steps != [] {
      var s1 := Next(s, steps[0]);
      DoneOnce(s1, steps[1..], device);
      DoneIsFinished(s1, steps[1..], device);
      FinishedGrows(s, steps[0], device);
      var rest := TraceOf(s1, steps[1..], device).done;
      if TraceOf(s, steps, device).done != rest {
        var last, n := Run(s1, steps[1..]).finished, |s.finished|;
        forall i | 0 <= i < |rest| ensures rest[i].job != last[n].job {
          assert rest[i] in last[n + 1..];
          var k :| 0 <= k < |last[n + 1..]| && last[n + 1..][k] == rest[i];
          assert last[n + 1 + k] == rest[i];
        }
      }
    }
  }

  lemma {:induction false} GoodIsFirst(sessions: seq<seq<Message>>, n: nat)
    requires n <= |sessions| && forall i :: 0 <= i < n ==> !EndsWell(sessions[i])
    requires n < |sessions| ==> EndsWell(sessions[n])
    ensures UntilGood(sessions) == if n < |sessions| then sessions[..n + 1] else sessions
  {
    if n > 0 {
      GoodIsFirst(sessions[1..], n - 1);
    }
  }

  /**
   * The running loop, fed by the protocol from any reachable state with acknowledgements from agents only,
   * applies no job twice, and what it applies is what the protocol records for its device.
   */
  method RunFed(ghost steps: seq<Step>, ghost device: string, ghost sessions: seq<Session>, messages: seq<seq<Message>>)
    returns (applied: seq<Application>)
    requires AgentAt(Run(START, steps), device).Off? && AllFed(Run(START, steps), device, sessions)
    requires messages == AllMessages(sessions)
    requires AgentsOnly(steps) && AgentsOnly(LoopSteps(device, sessions))
    ensures TraceOf(Run(START, steps), LoopSteps(device, sessions), device) == Both(applied)
    ensures OncePerFinish(applied)
  {
    var ok: bool;
    var waits: seq<nat>;
    ok, applied, waits := RunStreams(messages);
    GoodIsFirst(messages, |waits|);
    LoopIsARun(Run(START, steps), device, sessions);
    AppliesOnce(steps, LoopSteps(device, sessions), device);
  }

  lemma AppliesOnce(steps: seq<Step>, more: seq<Step>, device: string)
    requires AgentsOnly(steps) && AgentsOnly(more)
    ensures OncePerFinish(TraceOf(Run(START, steps), more, device).done)
  {
    RunKeepsDelivery(START, steps);
    RunKeepsDelivery(Run(START, steps), more);
    DoneOnce(Run(START, steps), more, device);
  }
}
