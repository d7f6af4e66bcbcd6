/**
 The running core behind its API (XrayApi in app/xray_live_apply.py).  A command can fail before or after it took
 effect, the reply of a successful command can be lost, and the process can be replaced at any time; a
 replaced process has a new identity and arbitrary handlers.  The caller can die in any call.  A faultless core does
 none of that; it stands for an environment in which nothing goes wrong.
 */
module XrayCore {
  import opened ApplyJournal
  import opened RuntimeModel

  datatype Reply = Ok | Fails | Uncertain | Dies {
    predicate IsFailure() { !Ok? }

    function PropagateFailure(): Reply
      requires IsFailure()
    {
      this
    }
  }

  method AnyFailure() returns (r: Reply)
    ensures r.Fails? || r.Dies?
  {
    var dies: bool := *;
    r := if dies then Dies else Fails;
  }

  class XrayApi {
    const faultless: bool
    var identity: nat
    var live: Observation

    constructor (identity: nat, live: Observation, faultless: bool)
      ensures this.identity == identity && this.live == live && this.faultless == faultless
    {
      this.identity, this.live, this.faultless := identity, live, faultless;
    }

    // Whether something comes between: a fault, a refusal, another intent.
    method Obstacle() returns (struck: bool)
      ensures faultless ==> !struck
    {
      struck := *;
      if faultless { struck := false; }
    }

    // The process may be replaced between any two calls.
    method MayRestart()
      modifies this
      ensures identity >= old(identity) && (identity == old(identity) ==> live == old(live))
      ensures faultless ==> identity == old(identity)
    {
      var restarts: nat := *;
      if restarts > 0 && !faultless {
        identity := identity + restarts;
        live := *;
      }
    }

    // A controlled restart: whatever it answers, the process may be a new one by then.  A faultless one is a new
    // process with the handlers of the configuration on disk.
    method Restart(loads: set<Tag>) returns (ack: Ack)
      modifies this
      ensures ack != Absent
      ensures identity >= old(identity) && (identity == old(identity) ==> live == old(live))
      ensures faultless ==> ack == Answer(true) && identity > old(identity) && live.handlers.Keys == loads
    {
      if faultless {
        identity, live := identity + 1, Observation(map tag | tag in loads :: "", map[]);
        return Answer(true);
      }
      MayRestart();
      var accepts: bool, throws: bool, dies: bool := *, *, *;
      ack := if dies then DiesInside else if throws then Throws else Answer(accepts);
    }

    method Identity() returns (id: nat)
      modifies this
      ensures id == identity && identity >= old(identity) && (identity == old(identity) ==> live == old(live))
      ensures faultless ==> identity == old(identity)
    {
      MayRestart();
      id := identity;
    }

    method Outbounds() returns (r: Reply, tags: set<Tag>)
      modifies this
      ensures identity >= old(identity) && (identity == old(identity) ==> live == old(live))
      ensures r.Ok? ==> tags == live.handlers.Keys
      ensures !r.Uncertain?
      ensures faultless ==> r.Ok? && identity == old(identity)
    {
      MayRestart();
      tags := live.handlers.Keys;
      r := Ok;
      var fails := Obstacle();
      if fails { r := AnyFailure(); }
    }

    method Target(balancer: Tag) returns (r: Reply, target: Tag)
      modifies this
      ensures identity >= old(identity) && (identity == old(identity) ==> live == old(live))
      ensures r.Ok? ==> balancer in live.overrides && target == live.overrides[balancer]
      ensures !r.Uncertain?
      ensures faultless ==> identity == old(identity) && (r.Ok? || balancer !in live.overrides)
    {
      MayRestart();
      target := "";
      var fails := Obstacle();
      if fails || balancer !in live.overrides {
        r := AnyFailure();
      } else {
        target := live.overrides[balancer];
        r := Ok;
      }
    }

    method Observe() returns (r: Reply, seen: Observation)
      modifies this
      ensures identity >= old(identity) && (identity == old(identity) ==> live == old(live))
      ensures r.Ok? ==> seen == live
      ensures !r.Uncertain?
      ensures faultless ==> r.Ok? && identity == old(identity)
    {
      MayRestart();
      seen := live;
      r := Ok;
      var fails := Obstacle();
      if fails { r := AnyFailure(); }
    }

    method Add(tag: Tag, body: string) returns (r: Reply)
      modifies this
      ensures identity >= old(identity)
      ensures identity == old(identity) ==>
                live == old(live) || live == old(live).(handlers := old(live).handlers[tag := body])
      ensures r.Ok? && identity == old(identity) ==> live == old(live).(handlers := old(live).handlers[tag := body])
      ensures !r.Uncertain?
      ensures faultless ==> r.Ok? && identity == old(identity)
    {
      MayRestart();
      var lost := Obstacle();
      if !lost { live := live.(handlers := live.handlers[tag := body]); }
      r := Ok;
      var fails := Obstacle();
      if fails || lost { r := AnyFailure(); }
    }

    // Select and read the selection back.
    method Select(balancer: Tag, target: Tag) returns (r: Reply)
      modifies this
      ensures identity >= old(identity)
      ensures identity == old(identity) ==>
                live == old(live) || live == old(live).(overrides := old(live).overrides[balancer := target])
      ensures r.Ok? && identity == old(identity) ==>
                live == old(live).(overrides := old(live).overrides[balancer := target])
      ensures !r.Uncertain?
      ensures faultless ==> r.Ok? && identity == old(identity)
    {
      MayRestart();
      var lost := Obstacle();
      if !lost { live := live.(overrides := live.overrides[balancer := target]); }
      var fails := Obstacle();
      if fails { r := AnyFailure(); return; }
      var seen: Tag;
      r, seen := Target(balancer);
      if r.Ok? && seen != target { r := AnyFailure(); }
    }

    // Remove and confirm that the handler is gone.
    method Remove(tag: Tag) returns (r: Reply)
      modifies this
      ensures identity >= old(identity)
      ensures identity == old(identity) ==>
                live == old(live) || live == old(live).(handlers := old(live).handlers - {tag})
      ensures r.Ok? && identity == old(identity) ==> live == old(live).(handlers := old(live).handlers - {tag})
      ensures !r.Uncertain?
      ensures faultless ==> r.Ok? && identity == old(identity)
    {
      MayRestart();
      var lost := Obstacle();
      if !lost { live := live.(handlers := live.handlers - {tag}); }
      var fails := Obstacle();
      if fails { r := AnyFailure(); return; }
      var tags: set<Tag>;
      r, tags := Outbounds();
      if r.Ok? && tag in tags { r := AnyFailure(); }
    }
  }
}
