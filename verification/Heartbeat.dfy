/** The heartbeat stream handler, interleaved with whatever else the service does. */
module Heartbeat {
  import opened Prelude
  import opened DeviceTables
  import opened ServerProtocol

  datatype Incoming = Good(deviceId: string) | Bad

  datatype Response = Beat | NotFoundStatus(id: string) | InternalStatus

  /** Good messages before the first stream error. */
  function GoodPrefix(stream: seq<Incoming>): (n: nat)
    ensures n <= |stream|
    ensures forall i :: 0 <= i < n ==> stream[i].Good?
    ensures n < |stream| ==> stream[n].Bad?
  {
    if stream == [] || stream[0].Bad? then 0 else 1 + GoodPrefix(stream[1..])
  }

  function Min(a: nat, b: nat): (m: nat)
    ensures m <= a && m <= b && (m == a || m == b)
  {
    if a < b then a else b
  }

  function Beats(n: nat): (r: seq<Response>)
    ensures |r| == n && forall i :: 0 <= i < n ==> r[i] == Beat
  {
    seq(n, _ => Beat)
  }

  /** The device id, once for each of the first `n` messages whose touch the engine performs. */
  function Touches(id: string, n: nat, broken: set<nat>): seq<string> {
    if n == 0 then [] else Touches(id, n - 1, broken) + (if n - 1 in broken then [] else [id])
  }

  // ── The loop, over any service ──────────────────────────────────────────────

  /** What others do to the service before each message, and touch_last_seen, which may find no such device. */
  datatype Service<!S> = Service(others: (S, nat) -> S, touch: S -> Option<S>)

  /** The service when message `n` is about to be touched for. */
  function AtTouch<S>(svc: Service<S>, s0: S, n: nat, broken: set<nat>): S
    decreases n, 1
  {
    svc.others(AfterHandling(svc, s0, n, broken), n)
  }

  /** The service after `n` messages. */
  function AfterHandling<S>(svc: Service<S>, s0: S, n: nat, broken: set<nat>): S
    decreases n, 0
  {
    if n == 0 then s0
    else
      var s := AtTouch(svc, s0, n - 1, broken);
      if n - 1 in broken || svc.touch(s).None? then s else svc.touch(s).value
  }

  /** None of the first `n` messages is refused. */
  predicate NoneRefused<S>(svc: Service<S>, s0: S, n: nat, broken: set<nat>) {
    n == 0 ||
    (NoneRefused(svc, s0, n - 1, broken) && (n - 1 in broken || svc.touch(AtTouch(svc, s0, n - 1, broken)).Some?))
  }

  /** The messages, the first one included: `n` of them handled, and then perhaps a refusal. */
  method Loop<S>(svc: Service<S>, s0: S, id: string, stream: seq<Incoming>, room: nat, broken: set<nat>)
    returns (s: S, sent: seq<Response>, touched: seq<string>, refused: bool, ghost n: nat)
    ensures NoneRefused(svc, s0, n, broken) && touched == Touches(id, n, broken)
    ensures if refused then
              && n < GoodPrefix(stream) && n <= room && n !in broken
              && s == AtTouch(svc, s0, n, broken) && svc.touch(s).None?
              && sent == (Beats(n) + [NotFoundStatus(id)])[..Min(room, n + 1)]
            else
              && n == Min(GoodPrefix(stream), room + 1) && s == AfterHandling(svc, s0, n, broken)
              && sent == Beats(Min(GoodPrefix(stream), room))
  {
    s, sent, touched, refused, n := s0, [], [], false, 0;
    var i := 0;
    while i < |stream|
      invariant 0 <= i <= GoodPrefix(stream) && i <= room && n == i && !refused
      invariant s == AfterHandling(svc, s0, i, broken) && NoneRefused(svc, s0, i, broken)
      invariant sent == Beats(i) && touched == Touches(id, i, broken)
    {
      if stream[i].Bad? {
        break;
      }
      s := svc.others(s, i);
      if i !in broken {
        var found := svc.touch(s);
        if found.None? {
          sent := (sent + [NotFoundStatus(id)])[..Min(room, i + 1)];
          refused := true;
          return;
        }
        s := found.value;
        touched := touched + [id];
      }
      n := i + 1;
      if |sent| == room {
        return;
      }
      sent := sent + [Beat];
      i := i + 1;
    }
  }

  // ── The device service ──────────────────────────────────────────────────────

  /** Steps of other requests that fall before message `i` is handled. */
  function Before(others: seq<seq<ServerStep>>, i: nat): seq<ServerStep> {
    if i < |others| then others[i] else []
  }

  /** touch_last_seen: the one thing that changes is when the device was last seen. */
  function TouchDevice(v: Server, id: string, now: int): (r: Option<Server>)
    ensures r.Some? <==> id in v.tables.devices
    ensures r.Some? ==>
              r.value == v.(tables := v.tables.(devices := v.tables.devices[
                                                  id := v.tables.devices[id].(lastSeenAt := now)]))
  {
    if id in v.tables.devices then Some(ServerNext(v, Touch(id, now))) else None
  }

  function DeviceService(others: seq<seq<ServerStep>>, id: string, now: int): Service<Server> {
    Service((v: Server, i: nat) => ServerRun(v, Before(others, i)), (v: Server) => TouchDevice(v, id, now))
  }

  /** What happens to the service while `n` messages are handled: others' steps and the touches performed. */
  function Handled(others: seq<seq<ServerStep>>, id: string, n: nat, broken: set<nat>, now: int): seq<ServerStep> {
    if n == 0 then []
    else
      Handled(others, id, n - 1, broken, now) + Before(others, n - 1)
      + (if n - 1 in broken then [] else [Touch(id, now)])
  }

  lemma RunOneTouch(v: Server, id: string, now: int)
    ensures ServerRun(v, [Touch(id, now)]) == if id in v.tables.devices then TouchDevice(v, id, now).value else v
  {
    RunOfOne(v, Touch(id, now));
  }

  lemma OneMoreHandled(v0: Server, handled: seq<ServerStep>, before: seq<ServerStep>, id: string, now: int)
    ensures var w := ServerRun(ServerRun(v0, handled), before);
            && ServerRun(v0, handled + before + []) == ServerRun(v0, handled + before) == w
            && ServerRun(v0, handled + before + [Touch(id, now)]) ==
               if id in w.tables.devices then TouchDevice(w, id, now).value else w
  {
    RunConcat(v0, handled, before);
    RunConcat(v0, handled + before, [Touch(id, now)]);
    RunOneTouch(ServerRun(v0, handled + before), id, now);
    assert handled + before + [] == handled + before;
  }

  lemma HandlingStep(v0: Server, others: seq<seq<ServerStep>>, id: string, n: nat, broken: set<nat>, now: int,
                     handled: seq<ServerStep>, touch: seq<ServerStep>)
    requires AfterHandling(DeviceService(others, id, now), v0, n, broken) == ServerRun(v0, handled)
    requires touch == if n in broken then [] else [Touch(id, now)]
    ensures AfterHandling(DeviceService(others, id, now), v0, n + 1, broken) ==
              ServerRun(v0, handled + Before(others, n) + touch)
  {
    OneMoreHandled(v0, handled, Before(others, n), id, now);
  }

  /** Handling is a run of the others' steps and the touches. */
  lemma {:induction false} HandlingIsARun(v0: Server, others: seq<seq<ServerStep>>, id: string, n: nat,
                                          broken: set<nat>, now: int)
    ensures AfterHandling(DeviceService(others, id, now), v0, n, broken) ==
              ServerRun(v0, Handled(others, id, n, broken, now))
  {
    if n > 0 {
      HandlingIsARun(v0, others, id, n - 1, broken, now);
      var touch := if n - 1 in broken then [] else [Touch(id, now)];
      HandlingStep(v0, others, id, n - 1, broken, now, Handled(others, id, n - 1, broken, now), touch);
    }
  }

  lemma {:induction false} RunKeepsDevice(v: Server, steps: seq<ServerStep>, id: string)
    requires id in v.tables.devices
    ensures id in ServerRun(v, steps).tables.devices
    decreases |steps|
  {
    if steps != [] {
      StepGrowsTables(v, steps[0]);
      RunKeepsDevice(ServerNext(v, steps[0]), steps[1..], id);
    }
  }

  lemma {:induction false} NothingTouched(id: string, n: nat, broken: set<nat>)
    ensures Touches(id, n, broken) == [] <==> forall j :: 0 <= j < n ==> j in broken
  {
    if n > 0 {
      NothingTouched(id, n - 1, broken);
    }
  }

  /** A device that is there once is there from then on, and was last seen at the last touch performed. */
  lemma {:induction false} KnownStaysKnown(v0: Server, others: seq<seq<ServerStep>>, id: string, n: nat,
                                           broken: set<nat>, now: int)
    requires NoneRefused(DeviceService(others, id, now), v0, n, broken)
    ensures var v := AfterHandling(DeviceService(others, id, now), v0, n, broken);
            var found := id in ServerRun(v0, Before(others, 0)).tables.devices;
            && (Touches(id, n, broken) != [] ==> id in v.tables.devices)
            && (n > 0 && found ==> id in v.tables.devices)
            && (n > 0 && n - 1 !in broken ==> id in v.tables.devices && v.tables.devices[id].lastSeenAt == now)
            && (n > 0 && 0 !in broken ==> found)
  {
    if n > 0 {
      KnownStaysKnown(v0, others, id, n - 1, broken, now);
      var v := AfterHandling(DeviceService(others, id, now), v0, n - 1, broken);
      assert AtTouch(DeviceService(others, id, now), v0, n - 1, broken) == ServerRun(v, Before(others, n - 1));
      if id in v.tables.devices {
        RunKeepsDevice(v, Before(others, n - 1), id);
      }
    }
  }

  // ── The handler ─────────────────────────────────────────────────────────────

  /** NotFound goes out for message `k`, the first whose touch the engine performs. */
  predicate EndsNotFound(stream: seq<Incoming>, room: nat, broken: set<nat>, id: string, k: nat, sent: seq<Response>) {
    && k < GoodPrefix(stream) && k <= room && k !in broken && (forall j :: 0 <= j < k ==> j in broken)
    && sent == (Beats(k) + [NotFoundStatus(id)])[..Min(room, k + 1)]
  }

  /** Every good message is answered while the receiver is open, and each touch performed took effect. */
  ghost predicate Served(v0: Server, id: string, stream: seq<Incoming>, others: seq<seq<ServerStep>>, room: nat,
                         broken: set<nat>, now: int, v: Server, sent: seq<Response>, touched: seq<string>)
  {
    var n := Min(GoodPrefix(stream), room + 1);
    && sent == Beats(Min(GoodPrefix(stream), room))
    && touched == Touches(id, n, broken)
    && v == ServerRun(v0, Handled(others, id, n, broken, now))
    && (touched != [] ==> id in v.tables.devices)
    && (n > 0 && n - 1 !in broken ==> id in v.tables.devices && v.tables.devices[id].lastSeenAt == now)
  }

  ghost predicate Refused(v0: Server, id: string, stream: seq<Incoming>, others: seq<seq<ServerStep>>, room: nat,
                          broken: set<nat>, now: int, v: Server, sent: seq<Response>, touched: seq<string>)
  {
    touched == [] && exists k: nat ::
      && EndsNotFound(stream, room, broken, id, k, sent)
      && v == ServerRun(v0, Handled(others, id, k, broken, now) + Before(others, k))
  }

  /** Where the loop stops at a refusal. */
  lemma RefusedAt(v0: Server, id: string, stream: seq<Incoming>, others: seq<seq<ServerStep>>, room: nat,
                  broken: set<nat>, now: int, k: nat, sent: seq<Response>)
    requires NoneRefused(DeviceService(others, id, now), v0, k, broken)
    requires k < GoodPrefix(stream) && k <= room && k !in broken
    requires id !in AtTouch(DeviceService(others, id, now), v0, k, broken).tables.devices
    requires sent == (Beats(k) + [NotFoundStatus(id)])[..Min(room, k + 1)]
    ensures var start := ServerRun(v0, Before(others, 0));
            var v := AtTouch(DeviceService(others, id, now), v0, k, broken);
            && id !in start.tables.devices && Touches(id, k, broken) == []
            && Refused(v0, id, stream, others, room, broken, now, v, sent, [])
            && (0 !in broken ==> sent == [NotFoundStatus(id)][..Min(room, 1)] && v == start)
  {
    var v := AfterHandling(DeviceService(others, id, now), v0, k, broken);
    KnownStaysKnown(v0, others, id, k, broken, now);
    NothingTouched(id, k, broken);
    HandlingIsARun(v0, others, id, k, broken, now);
    OneMoreHandled(v0, Handled(others, id, k, broken, now), Before(others, k), id, now);
    if id in v.tables.devices {
      RunKeepsDevice(v, Before(others, k), id);
    }
    assert EndsNotFound(stream, room, broken, id, k, sent);
  }

  /** Where it stops without one. */
  lemma ServedAt(v0: Server, id: string, stream: seq<Incoming>, others: seq<seq<ServerStep>>, room: nat,
                 broken: set<nat>, now: int, n: nat)
    requires NoneRefused(DeviceService(others, id, now), v0, n, broken)
    requires n == Min(GoodPrefix(stream), room + 1)
    ensures Served(v0, id, stream, others, room, broken, now,
                   AfterHandling(DeviceService(others, id, now), v0, n, broken),
                   Beats(Min(GoodPrefix(stream), room)), Touches(id, n, broken))
    ensures n > 0 && 0 !in broken ==> id in ServerRun(v0, Before(others, 0)).tables.devices
  {
    HandlingIsARun(v0, others, id, n, broken, now);
    KnownStaysKnown(v0, others, id, n, broken, now);
  }

  /**
   * The receiver accepts `room` responses and then is closed; the engine fails at the touches in `broken`,
   * which are answered as usual. Every touch is on the first message's device. If that device is known,
   * every good message up to the first error is answered while the receiver is open, and never with
   * NotFound, whatever runs in between. Otherwise NotFound can only answer the first touch performed. The
   * service ends as others' steps and exactly these touches leave it.
   */
  method Handle(v0: Server, stream: seq<Incoming>, others: seq<seq<ServerStep>>, room: nat, broken: set<nat>, now: int)
    returns (v: Server, sent: seq<Response>, touched: seq<string>)
    ensures stream == [] ==> v == v0 && sent == [] && touched == []
    ensures stream != [] && stream[0].Bad? ==> v == v0 && touched == [] && sent == [InternalStatus][..Min(room, 1)]
    ensures stream != [] && stream[0].Good? ==>
              var id := stream[0].deviceId;
              var found := id in ServerRun(v0, Before(others, 0)).tables.devices;
              || Served(v0, id, stream, others, room, broken, now, v, sent, touched)
              || (!found && Refused(v0, id, stream, others, room, broken, now, v, sent, touched))
    ensures stream != [] && stream[0].Good? && 0 !in broken
            && stream[0].deviceId !in ServerRun(v0, Before(others, 0)).tables.devices ==>
              sent == [NotFoundStatus(stream[0].deviceId)][..Min(room, 1)] && v == ServerRun(v0, Before(others, 0))
  {
    v, sent, touched := v0, [], [];
    if stream == [] {
      return;
    }
    if stream[0].Bad? {
      sent := [InternalStatus][..Min(room, 1)];
      return;
    }
    var id, refused := stream[0].deviceId, false;
    ghost var n: nat;
    v, sent, touched, refused, n := Loop(DeviceService(others, id, now), v0, id, stream, room, broken);
    if refused {
      RefusedAt(v0, id, stream, others, room, broken, now, n, sent);
    } else {
      ServedAt(v0, id, stream, others, room, broken, now, n);
    }
  }
}
