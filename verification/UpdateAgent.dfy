/** The robot's update loop: receive, apply, acknowledge, and reconnect with a doubling delay. */
module UpdateAgent {
  import opened OtaProtocol

  /** What one session brings: a command, with how applying and acknowledging it go, or a stream error. */
  datatype Message = Command(job: string, applies: bool, acks: bool) | StreamError

  const MAX_BACKOFF := 60

  /** How many commands of a session are taken: up to an error, counting one whose acknowledgement fails. */
  function Taken(session: seq<Message>): (n: nat)
    ensures n <= |session|
    ensures forall i :: 0 <= i < n ==> session[i].Command?
    ensures forall i :: 0 <= i < n - 1 ==> session[i].acks
  {
    if session == [] || session[0].StreamError? then 0
    else if !session[0].acks then 1
    else 1 + Taken(session[1..])
  }

  /** The session ends well: every message is a command whose acknowledgement is answered. */
  predicate EndsWell(session: seq<Message>) {
    forall i :: 0 <= i < |session| ==> session[i].Command? && session[i].acks
  }

  /** What the session's taken commands did, in order. */
  function Applications(session: seq<Message>): (r: seq<Application>)
    ensures |r| == Taken(session)
  {
    seq(Taken(session), i requires 0 <= i < Taken(session) => Application(session[i].job, session[i].applies))
  }

  lemma {:induction false} TakenPast(session: seq<Message>, i: nat)
    requires i <= |session| && forall k :: 0 <= k < i ==> session[k].Command? && session[k].acks
    ensures Taken(session) == i + Taken(session[i..])
  {
    if i > 0 {
      TakenPast(session[1..], i - 1);
      assert session[1..][i - 1..] == session[i..];
    } else {
      assert session[0..] == session;
    }
  }

  function Power2(n: nat): nat {
    if n == 0 then 1 else 2 * Power2(n - 1)
  }

  /** Seconds to wait after the n-th failure in a row, counted from 0. */
  function Delay(n: nat): nat {
    if Power2(n) < MAX_BACKOFF then Power2(n) else MAX_BACKOFF
  }

  lemma DelayDoubles(n: nat)
    ensures Delay(n + 1) == if Delay(n) * 2 < MAX_BACKOFF then Delay(n) * 2 else MAX_BACKOFF
  {
  }

  /** Each command is applied once and acknowledged with its own outcome before the next is looked at. */
  method RunStream(session: seq<Message>) returns (ok: bool, applied: seq<Application>, acked: seq<Application>)
    ensures ok <==> EndsWell(session)
    ensures applied == acked == Applications(session)
    ensures ok <==> forall i :: 0 <= i < |session| ==> session[i].Command? && session[i].acks
    ensures |applied| <= |session|
    ensures forall i :: 0 <= i < |applied| ==>
              session[i].Command? && applied[i] == acked[i] == Application(session[i].job, session[i].applies)
    ensures forall i :: 0 <= i < |applied| - 1 ==> session[i].Command? && session[i].acks
    ensures |applied| < |session| ==>
              || session[|applied|].StreamError?
              || (applied != [] && session[|applied| - 1].Command? && !session[|applied| - 1].acks)
  {
    applied, acked := [], [];
    var i := 0;
    while i < |session|
      invariant 0 <= i <= |session|
      invariant forall k :: 0 <= k < i ==> session[k].Command? && session[k].acks
      invariant applied == acked && |applied| == i
      invariant forall k :: 0 <= k < i ==> applied[k] == Application(session[k].job, session[k].applies)
    {
      TakenPast(session, i);
      if session[i].StreamError? {
        return false, applied, acked;
      }
      applied := applied + [Application(session[i].job, session[i].applies)];
      acked := acked + [Application(session[i].job, session[i].applies)];
      if !session[i].acks {
        return false, applied, acked;
      }
      i := i + 1;
    }
    TakenPast(session, i);
    return true, applied, acked;
  }

  /** What the taken commands of several sessions did, in order. */
  function AllApplications(sessions: seq<seq<Message>>): seq<Application> {
    if sessions == [] then []
    else AllApplications(sessions[..|sessions| - 1]) + Applications(sessions[|sessions| - 1])
  }

  lemma OneMoreSession(sessions: seq<seq<Message>>, i: nat)
    requires i < |sessions|
    ensures AllApplications(sessions[..i + 1]) == AllApplications(sessions[..i]) + Applications(sessions[i])
  {
    assert sessions[..i + 1][..i] == sessions[..i];
  }

  /** Reconnects until a session ends well (or the given ones run out), waiting 1, 2, 4, ... at most 60 seconds. */
  method RunStreams(sessions: seq<seq<Message>>) returns (ok: bool, applied: seq<Application>, waits: seq<nat>)
    ensures |waits| <= |sessions| && (ok <==> |waits| < |sessions|)
    ensures applied == AllApplications(if ok then sessions[..|waits| + 1] else sessions)
    ensures forall i :: 0 <= i < |waits| ==> waits[i] == Delay(i)
    ensures |waits| > 0 ==> waits[0] == 1
    ensures forall i :: 0 < i < |waits| ==> waits[i] == if 2 * waits[i - 1] < 60 then 2 * waits[i - 1] else 60
    ensures forall i :: 0 <= i < |waits| ==> !EndsWell(sessions[i])
    ensures ok ==> EndsWell(sessions[|waits|])
  {
    applied, waits := [], [];
    var backoff := 1;
    var i := 0;
    while i < |sessions|
      invariant 0 <= i == |waits| <= |sessions| && backoff == Delay(i)
      invariant applied == AllApplications(sessions[..i])
      invariant forall k :: 0 <= k < i ==> !EndsWell(sessions[k]) && waits[k] == Delay(k)
      invariant i > 0 ==> waits[0] == 1 && backoff == if 2 * waits[i - 1] < 60 then 2 * waits[i - 1] else 60
      invariant i == 0 ==> backoff == 1
      invariant forall k :: 0 < k < i ==> waits[k] == if 2 * waits[k - 1] < 60 then 2 * waits[k - 1] else 60
    {
      var good, now, _ := RunStream(sessions[i]);
      OneMoreSession(sessions, i);
      applied := applied + now;
      if good {
        return true, applied, waits;
      }
      waits := waits + [backoff];
      DelayDoubles(i);
      backoff := if backoff * 2 < MAX_BACKOFF then backoff * 2 else MAX_BACKOFF;
      i := i + 1;
    }
    assert sessions[..i] == sessions;
    return false, applied, waits;
  }
}
