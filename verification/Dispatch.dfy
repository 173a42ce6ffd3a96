/** Per-device broadcast channels: a receiver sees what is sent after it subscribes and keeps the last eight. */
module Dispatch {
  import opened Prelude
  import opened JobTable

  const CHANNEL_CAPACITY: nat := 8

  /** `queue` is unread in the channel; `wire` has left it on the update stream but is unread by the robot. */
  datatype Receiver = Receiver(device: string, queue: seq<string>, missed: nat, wire: seq<string>, open: bool)

  datatype Hub = Hub(channels: set<string>, rx: seq<Receiver>)

  function Push(r: Receiver, cmd: string): (r': Receiver)
    ensures |r.queue| <= CHANNEL_CAPACITY ==> |r'.queue| <= CHANNEL_CAPACITY
    ensures |r.queue| + r.missed + 1 == |r'.queue| + r'.missed
    ensures r'.queue == (if |r.queue| < 8 then r.queue else r.queue[1..]) + [cmd]
    ensures r' == r.(queue := r'.queue, missed := r'.missed)
  {
    if |r.queue| < CHANNEL_CAPACITY then r.(queue := r.queue + [cmd])
    else r.(queue := r.queue[1..] + [cmd], missed := r.missed + 1)
  }

  predicate Listens(r: Receiver, device: string) {
    r.open && r.device == device
  }

  function Subscribe(h: Hub, device: string): Hub {
    Hub(h.channels + {device}, h.rx + [Receiver(device, [], 0, [], true)])
  }

  function Count(rx: seq<Receiver>, device: string): nat {
    if rx == [] then 0
    else (if Listens(rx[0], device) then 1 else 0) + Count(rx[1..], device)
  }

  function SendAll(rx: seq<Receiver>, device: string, cmd: string): (r: seq<Receiver>)
    ensures |r| == |rx|
    ensures forall i :: 0 <= i < |rx| ==> r[i] == (if Listens(rx[i], device) then Push(rx[i], cmd) else rx[i])
  {
    seq(|rx|, i requires 0 <= i < |rx| => if Listens(rx[i], device) then Push(rx[i], cmd) else rx[i])
  }

  function DispatchTo(h: Hub, device: string, cmd: string): (Result<nat, JobError>, Hub) {
    if device !in h.channels || Count(h.rx, device) == 0 then (Failure(NoActiveSubscribers(device)), h)
    else (Success(Count(h.rx, device)), h.(rx := SendAll(h.rx, device, cmd)))
  }

  lemma {:induction false} CountPositive(rx: seq<Receiver>, device: string)
    ensures Count(rx, device) > 0 <==> exists i :: 0 <= i < |rx| && Listens(rx[i], device)
  {
    if rx != [] {
      CountPositive(rx[1..], device);
      if exists i :: 0 <= i < |rx| && Listens(rx[i], device) {
        var i :| 0 <= i < |rx| && Listens(rx[i], device);
        assert i > 0 ==> Listens(rx[1..][i - 1], device);
      }
    }
  }

  lemma {:induction false} CountAppend(rx: seq<Receiver>, r: Receiver, device: string)
    ensures Count(rx + [r], device) == Count(rx, device) + (if Listens(r, device) then 1 else 0)
  {
    if rx == [] {
      assert rx + [r] == [r];
    } else {
      assert (rx + [r])[1..] == rx[1..] + [r];
      CountAppend(rx[1..], r, device);
    }
  }

  lemma {:induction false} CountIsSize(rx: seq<Receiver>, device: string)
    ensures Count(rx, device) == |set i | 0 <= i < |rx| && rx[i].open && rx[i].device == device|
    decreases |rx|
  {
    var all := set i | 0 <= i < |rx| && rx[i].open && rx[i].device == device;
    if rx == [] {
      assert all == {};
    } else {
      var n := |rx| - 1;
      var front := rx[..n];
      CountIsSize(front, device);
      assert rx == front + [rx[n]];
      CountAppend(front, rx[n], device);
      var fewer := set i | 0 <= i < |front| && front[i].open && front[i].device == device;
      assert all == if Listens(rx[n], device) then fewer + {n} else fewer;
    }
  }

  /** The receivers after a send, and how many of them listened. */
  method Offer(rx: seq<Receiver>, device: string, cmd: string) returns (count: nat, sent: seq<Receiver>)
    ensures sent == SendAll(rx, device, cmd) && count == Count(rx, device)
    ensures count > 0 <==> exists i :: 0 <= i < |rx| && rx[i].open && rx[i].device == device
    ensures count == |set i | 0 <= i < |rx| && rx[i].open && rx[i].device == device|
  {
    count, sent := 0, [];
    var i := 0;
    while i < |rx|
      invariant 0 <= i <= |rx| && count == Count(rx[..i], device)
      invariant sent == SendAll(rx, device, cmd)[..i]
    {
      assert rx[..i + 1] == rx[..i] + [rx[i]];
      CountAppend(rx[..i], rx[i], device);
      if Listens(rx[i], device) {
        count := count + 1;
        sent := sent + [Push(rx[i], cmd)];
      } else {
        sent := sent + [rx[i]];
      }
      i := i + 1;
    }
    assert rx[..i] == rx && sent == SendAll(rx, device, cmd);
    CountIsSize(rx, device);
    Heard(rx, device);
  }

  lemma Heard(rx: seq<Receiver>, device: string)
    ensures Count(rx, device) > 0 <==> exists i :: 0 <= i < |rx| && rx[i].open && rx[i].device == device
  {
    CountPositive(rx, device);
    if exists i :: 0 <= i < |rx| && rx[i].open && rx[i].device == device {
      var i :| 0 <= i < |rx| && rx[i].open && rx[i].device == device;
      assert Listens(rx[i], device);
    }
  }

  class Dispatcher {
    var channels: set<string>
    var rx: seq<Receiver>

    function Contents(): Hub
      reads this
    {
      Hub(channels, rx)
    }

    constructor ()
      ensures Contents() == Hub({}, [])
    {
      channels, rx := {}, [];
    }

    method SubscribeDevice(device: string) returns (r: nat)
      modifies this
      ensures Contents() == Subscribe(old(Contents()), device)
      ensures r == |old(rx)| && rx == old(rx) + [Receiver(device, [], 0, [], true)]
      ensures channels == old(channels) + {device}
    {
      r := |rx|;
      channels := channels + {device};
      rx := rx + [Receiver(device, [], 0, [], true)];
    }

    /** Delivers to every listening receiver of the device, or to nobody and says so. */
    method Send(device: string, cmd: string) returns (r: Result<nat, JobError>)
      modifies this
      ensures (r, Contents()) == DispatchTo(old(Contents()), device, cmd)
      ensures channels == old(channels) && |rx| == |old(rx)|
      ensures var heard := device in channels &&
                           exists i :: 0 <= i < |old(rx)| && old(rx)[i].open && old(rx)[i].device == device;
              && (r.Failure? ==> r.error == NoActiveSubscribers(device))
              && (r.Success? <==> heard)
              && (forall i :: 0 <= i < |rx| ==>
                    rx[i] == if heard && old(rx)[i].open && old(rx)[i].device == device then Push(old(rx)[i], cmd)
                             else old(rx)[i])
      ensures r.Success? ==>
                r.value == |set i | 0 <= i < |old(rx)| && old(rx)[i].open && old(rx)[i].device == device|
    {
      if device !in channels {
        return Failure(NoActiveSubscribers(device));
      }
      var count, sent := Offer(rx, device, cmd);
      if count == 0 {
        return Failure(NoActiveSubscribers(device));
      }
      rx := sent;
      return Success(count);
    }
  }
}
