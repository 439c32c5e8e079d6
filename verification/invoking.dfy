/** Calls and returns: what an invocation does to the registers and the list of frames. */
module Invoking {
  import opened Frames

  /** What the next instruction, or the native code at work, does, as far as the registers and
      the frames are concerned. Any program on any data is some sequence of these. */
  datatype Event =
    | Data(delta: int)                            // an instruction that only moves the stack pointer
    | CallFunc(argc: nat, notReturned: bool)      // a function, with as many arguments as it has parameters
    | CallNative(argc: nat, notReturned: bool)    // the same for native code
    | CallMismatch(argc: nat, notReturned: bool)  // another number of arguments
    | Invoke(pushed: int, argc: nat)              // a call back into the machine: a comparison, or from native code
    | NativeReturn(status: int)
    | Return
    | Raise(pushed: int)

  datatype Ended = Finished(status: int) | Unfinished

  /** How a call goes on: with the next instruction, with an exception, back to native code. */
  datatype Called = Going(ip: Ip) | Raising | Done(status: int) | Pending

  predicate IsCall(e: Event)
  {
    e.CallFunc? || e.CallNative? || e.CallMismatch?
  }

  // ----- How a run ends -----------------------------------------------------

  /** Seen from outside, without registers and frames: it returns, it raises, or there are no more
      events, or events that cannot happen there. */
  datatype Verdict = Returned | Raised | Open

  /** An invocation with `argc` arguments begins with a call. */
  function Invocation(argc: nat, events: seq<Event>): (r: (Verdict, seq<Event>))
    ensures |r.1| <= |events|
    decreases |events|, 0
  {
    if events == [] || !IsCall(events[0]) || events[0].argc != argc || events[0].notReturned then (Open, events)
    else
      var rest := events[1..];
      if events[0].CallFunc? then Functions(1, rest) else if events[0].CallNative? then Native(rest) else (Raised, rest)
  }

  /** What is left of an invocation when `depth` functions have been entered and not left. A return
      leaves one of them; an exception leaves all. */
  function Functions(depth: nat, events: seq<Event>): (r: (Verdict, seq<Event>))
    requires depth > 0
    ensures |r.1| <= |events|
    decreases |events|, 1
  {
    if events == [] then (Open, events)
    else
      var rest := events[1..];
      match events[0]
      case Data(_) => Functions(depth, rest)
      case CallFunc(_, _) => Functions(depth + 1, rest)
      case CallMismatch(_, _) => (Raised, rest)
      case CallNative(_, _) => AfterPart(depth, Native(rest), |rest|)
      case Invoke(_, argc) => AfterPart(depth, Invocation(argc, rest), |rest|)
      case Return => if depth == 1 then (Returned, rest) else Functions(depth - 1, rest)
      case Raise(_) => (Raised, rest)
      case NativeReturn(_) => (Open, rest)
  }

  /** After native code or a nested invocation: on with the next instruction if it has returned. */
  function AfterPart(depth: nat, part: (Verdict, seq<Event>), bound: nat): (r: (Verdict, seq<Event>))
    requires depth > 0 && |part.1| <= bound
    ensures |r.1| <= |part.1|
    decreases bound, 2
  {
    if part.0 == Returned then Functions(depth, part.1) else part
  }

  /** Native code goes on until it returns, whatever has become of its invocations; a negative
      status is an exception. */
  function Native(events: seq<Event>): (r: (Verdict, seq<Event>))
    ensures |r.1| <= |events|
    decreases |events|, 0
  {
    if events == [] then (Open, events)
    else
      var rest := events[1..];
      match events[0]
      case Data(_) => Native(rest)
      case Invoke(_, argc) =>
        var part := Invocation(argc, rest);
        if part.0 == Open then part else Native(part.1)
      case NativeReturn(status) => (if status >= 0 then Returned else Raised, rest)
      case _ => (Open, rest)
  }

  /** The status that stands for a verdict. */
  predicate Stands(end: Ended, v: Verdict)
  {
    match v
    case Returned => end == Finished(0)
    case Raised => end == Finished(-1)
    case Open => end == Unfinished
  }

  /** A function that calls native code and returns: whether the invocation returns is up to the status
      of the native code. */
  lemma {:induction false} NativeInside(argc: nat, nested: nat, notReturned: bool, status: int, rest: seq<Event>)
    ensures
      var events := [CallFunc(argc, false), CallNative(nested, notReturned), NativeReturn(status), Return] + rest;
      Invocation(argc, events) == if status >= 0 then (Returned, rest) else (Raised, [Return] + rest)
  {
    var events := [CallFunc(argc, false), CallNative(nested, notReturned), NativeReturn(status), Return] + rest;
    assert events[1..] == [CallNative(nested, notReturned), NativeReturn(status), Return] + rest;
    assert events[1..][1..] == [NativeReturn(status), Return] + rest;
    assert events[1..][1..][1..] == [Return] + rest;
    assert ([Return] + rest)[1..] == rest;
    assert Native(events[1..][1..]) == (if status >= 0 then Returned else Raised, [Return] + rest);
    assert Functions(1, [Return] + rest) == (Returned, rest);
    assert Functions(1, events[1..]) == AfterPart(1, Native(events[1..][1..]), |events[1..][1..]|);
    assert Invocation(argc, events) == Functions(1, events[1..]);
  }

  class CallStack {
    var sp: int
    var fp: int
    const frames: FrameList

    ghost predicate Valid()
      reads this, frames, frames.repr
    {
      frames.Valid()
    }

    constructor ()
      ensures Valid() && sp == -1 && fp == 0 && frames.nodes == [] && frames.repr == {} && fresh(frames)
    {
      sp, fp := -1, 0;
      frames := new FrameList();
    }

    /** The start of a call; the arguments are on top of the stack, the function below them. */
    method EnterCall(argc: nat, notReturned: bool, ip: Ip)
      requires Valid()
      modifies this, frames, frames.repr
      ensures Valid() && fresh(frames.repr - old(frames.repr)) && sp == old(sp) && fp == sp + 1
      ensures Entered(old(frames.nodes), Info(notReturned, sp - argc + 1, old(fp), ip))
      ensures forall i {:trigger frames.nodes[i]} ::
        0 <= i < |old(frames.nodes)| ==> frames.nodes[i].info == old(frames.nodes[i].info)
    {
      frames.Enter();
      frames.current.info := Info(notReturned, sp - argc + 1, fp, ip);
      fp := sp + 1;
    }

    /** One frame more than `base`. */
    ghost predicate Entered(base: seq<Frame>, info: Info)
      reads this, frames, frames.nodes
    {
      |frames.nodes| == |base| + 1 && base <= frames.nodes && frames.nodes[|base|].info == info
    }

    /** The end of a call: the registers are as the frame says. Unless the result is dropped, or
        control goes back to native code, it replaces the function on the stack. */
    method LeaveCall(raised: bool) returns (ip: Ip)
      requires Valid() && frames.nodes != []
      modifies this, frames, frames.repr
      ensures Valid() && frames.repr == old(frames.repr) && frames.nodes == old(frames.nodes)[..|old(frames.nodes)| - 1]
      ensures forall f {:trigger f in frames.repr} :: f in frames.repr ==> f.info == old(f.info)
      ensures
        var info := old(frames.nodes[|frames.nodes| - 1].info);
        && ip == info.prevIp && fp == info.prevFp
        && sp == if raised || info.notReturned || info.prevIp == Null then info.argList - 2 else info.argList - 1
    {
      var info := frames.current.info;
      ip, fp := info.prevIp, info.prevFp;
      sp := if raised || info.notReturned || ip == Null then info.argList - 2 else info.argList - 1;
      frames.Leave();
    }

    // ----- One invocation ---------------------------------------------------

    /** Above the frames `base` there are those of an invocation: the first one was entered from
        native code, with the given argument list and frame pointer, the others from instructions. */
    ghost predicate Active(base: seq<Frame>, argList: int, prevFp: int)
      reads this, frames, frames.nodes, frames.repr
    {
      && |base| < |frames.nodes| && base == frames.nodes[..|base|]
      && frames.nodes[|base|].info.prevIp == Null
      && frames.nodes[|base|].info.argList == argList && frames.nodes[|base|].info.prevFp == prevFp
      && forall k {:trigger frames.nodes[k].info} :: |base| < k < |frames.nodes| ==> frames.nodes[k].info.prevIp.At?
    }

    /** An exception goes through all frames of the invocation. */
    method Unwind(ghost base: seq<Frame>, ghost argList: int, ghost prevFp: int)
      requires Valid() && Active(base, argList, prevFp)
      modifies this, frames, frames.repr
      ensures Valid() && frames.repr == old(frames.repr) && frames.nodes == base && fp == prevFp && sp == argList - 2
      ensures forall f {:trigger f in frames.repr} :: f in frames.repr ==> f.info == old(f.info)
    {
      var ip := LeaveCall(true);
      while ip.At?
        invariant Valid() && frames.repr == old(frames.repr) && base <= frames.nodes
        invariant forall f {:trigger f in frames.repr} :: f in frames.repr ==> f.info == old(f.info)
        invariant ip.At? ==> Active(base, argList, prevFp)
        invariant ip == Null ==> frames.nodes == base && fp == prevFp && sp == argList - 2
        decreases |frames.nodes|
      {
        ip := LeaveCall(true);
      }
    }

    /** A call, from the instruction before `ip` or, if that is null, from native code. Native code that
        returns leaves its result, if that is wanted, in place of the function and the arguments; if it raises,
        the exception comes on top of that. */
    method Call(e: Event, ip: Ip, events: seq<Event>) returns (r: Called, rest: seq<Event>)
      requires Valid() && IsCall(e)
      modifies this, frames, frames.repr
      ensures Valid() && |rest| <= |events| && old(frames.nodes) <= frames.nodes
      ensures fresh(frames.repr - old(frames.repr))
      ensures forall i {:trigger frames.nodes[i]} ::
        0 <= i < |old(frames.nodes)| ==> frames.nodes[i].info == old(frames.nodes[i].info)
      ensures e.CallFunc? ==>
        r == Going(At(0)) && rest == events && sp == old(sp) && fp == sp + 1 &&
        Entered(old(frames.nodes), Info(e.notReturned, old(sp) - e.argc + 1, old(fp), ip))
      ensures e.CallMismatch? ==>
        r == Raising && rest == events && sp == old(sp) + 1 &&
        Entered(old(frames.nodes), Info(e.notReturned, old(sp) - e.argc + 1, old(fp), ip))
      ensures e.CallNative? ==> rest == Native(events).1 && (r == Pending <==> Native(events).0 == Open)
      ensures e.CallNative? && r != Pending ==> frames.nodes == old(frames.nodes) && fp == old(fp)
      ensures e.CallNative? && ip == Null ==>
        match Native(events).0
        case Returned => r == Done(0) && sp == old(sp) - e.argc - 1
        case Raised => r == Done(-1) && sp == old(sp) - e.argc - 1
        case Open => true
      ensures e.CallNative? && ip.At? ==>
        var left := old(sp) - e.argc - (if e.notReturned then 1 else 0);
        match Native(events).0
        case Returned => r == Going(ip) && sp == left
        case Raised => r == Raising && sp == left + 1
        case Open => true
      decreases |events|, 2
    {
      EnterCall(e.argc, e.notReturned, ip);
      rest := events;
      match e
      case CallFunc(_, _) => r := Going(At(0));
      case CallMismatch(_, _) =>
        sp := sp + 1;
        r := Raising;
      case CallNative(_, _) =>
        var end;
        end, rest := RunNative(events);
        if end.Unfinished? { return Pending, rest; }
        var back := LeaveCall(false);
        assert back == ip;
        if ip == Null { return Done(if end.status >= 0 then 0 else -1), rest; }
        if end.status < 0 {
          sp := sp + 1;
          r := Raising;
        } else {
          r := Going(ip);
        }
    }

    /** Native code: it moves the stack pointer, and may call back into the machine. */
    method RunNative(events: seq<Event>) returns (end: Ended, rest: seq<Event>)
      requires Valid()
      modifies this, frames, frames.repr
      ensures Valid() && |rest| <= |events| && old(frames.nodes) <= frames.nodes
      ensures fresh(frames.repr - old(frames.repr))
      ensures forall i {:trigger frames.nodes[i]} ::
        0 <= i < |old(frames.nodes)| ==> frames.nodes[i].info == old(frames.nodes[i].info)
      ensures end.Finished? ==> frames.nodes == old(frames.nodes) && fp == old(fp)
      ensures rest == Native(events).1
      ensures match Native(events).0
        case Returned => end.Finished? && end.status >= 0
        case Raised => end.Finished? && end.status < 0
        case Open => end == Unfinished
      decreases |events|, 1
    {
      rest := events;
      while rest != []
        invariant Valid() && |rest| <= |events| && frames.nodes == old(frames.nodes) && fp == old(fp)
        invariant Native(rest) == Native(events)
        invariant fresh(frames.repr - old(frames.repr))
        invariant forall i {:trigger frames.nodes[i]} ::
          0 <= i < |old(frames.nodes)| ==> frames.nodes[i].info == old(frames.nodes[i].info)
        decreases |rest|
      {
        var e := rest[0];
        rest := rest[1..];
        match e {
          case Data(delta) => sp := sp + delta;
          case Invoke(pushed, argc) =>
            sp := sp + pushed;
            end, rest := Run(argc, rest);
            if end.Unfinished? { return; }
          case NativeReturn(status) => return Finished(status), rest;
          case _ => return Unfinished, rest;
        }
      }
      end := Unfinished;
    }

    /** An invocation from native code: for every run that comes to an end, by a return or by an
        exception, at whatever depth of calls, the stack pointer is below the function that was
        called, and the frame pointer and the list of frames are as before. It ends with 0 if it
        returns and with -1 if it raises. */
    method Run(argc: nat, events: seq<Event>) returns (end: Ended, rest: seq<Event>)
      requires Valid()
      modifies this, frames, frames.repr
      ensures Valid() && |rest| <= |events| && old(frames.nodes) <= frames.nodes
      ensures fresh(frames.repr - old(frames.repr))
      ensures forall i {:trigger frames.nodes[i]} ::
        0 <= i < |old(frames.nodes)| ==> frames.nodes[i].info == old(frames.nodes[i].info)
      ensures end.Finished? ==> sp == old(sp) - argc - 1 && fp == old(fp) && frames.nodes == old(frames.nodes)
      ensures rest == Invocation(argc, events).1 && Stands(end, Invocation(argc, events).0)
      decreases |events|, 0
    {
      if events == [] || !IsCall(events[0]) || events[0].argc != argc || events[0].notReturned {
        return Unfinished, events;
      }
      ghost var base, argList, prevFp := frames.nodes, sp - argc + 1, fp;
      var r;
      r, rest := Call(events[0], Null, events[1..]);
      match r
      case Pending => end := Unfinished;
      case Done(status) => end := Finished(status);
      case Raising =>
        Unwind(base, argList, prevFp);
        end := Finished(-1);
      case Going(ip) => end, rest := Dispatch(base, argList, prevFp, ip, rest);
    }

    /** The dispatch loop, from some instruction on to the end of the invocation. */
    method Dispatch(ghost base: seq<Frame>, ghost argList: int, ghost prevFp: int, start: Ip, events: seq<Event>)
        returns (end: Ended, rest: seq<Event>)
      requires Valid() && Active(base, argList, prevFp) && start.At?
      modifies this, frames, frames.repr
      ensures Valid() && fresh(frames.repr - old(frames.repr)) && |rest| <= |events| && base <= frames.nodes
      ensures forall i {:trigger frames.nodes[i]} ::
        0 <= i < |base| ==> frames.nodes[i].info == old(frames.nodes[i].info)
      ensures end.Finished? ==> sp == argList - 2 && fp == prevFp && frames.nodes == base
      ensures
        var all := Functions(old(|frames.nodes|) - |base|, events);
        rest == all.1 && Stands(end, all.0)
      decreases |events|, 4
    {
      var ip := start;
      rest := events;
      while rest != []
        invariant Valid() && fresh(frames.repr - old(frames.repr)) && |rest| <= |events| &&
          Active(base, argList, prevFp) && ip.At?
        invariant forall i {:trigger frames.nodes[i]} ::
          0 <= i < |base| ==> frames.nodes[i].info == old(frames.nodes[i].info)
        invariant Functions(|frames.nodes| - |base|, rest) == Functions(old(|frames.nodes|) - |base|, events)
        decreases |rest|
      {
        hide Functions, Native, Invocation, AfterPart;
        assert rest == [rest[0]] + rest[1..];
        var r;
        r, rest := Turn(base, argList, prevFp, rest[0], ip, rest[1..]);
        match r {
          case Going(next) => ip := next;
          case Raising => Unwind(base, argList, prevFp); return Finished(-1), rest;
          case Done(status) => return Finished(status), rest;
          case Pending => return Unfinished, rest;
        }
      }
      end := Unfinished;
    }

    /** One turn of the loop: the number of functions that are active, and the verdict if that settles it. */
    ghost predicate Turned(base: seq<Frame>, argList: int, prevFp: int, depth: int, events: seq<Event>,
        r: Called, rest: seq<Event>)
      reads this, frames, frames.nodes, frames.repr
    {
      depth > 0 &&
      var all := Functions(depth, events);
      match r
      case Going(next) =>
        Active(base, argList, prevFp) && next.At? && |rest| < |events| &&
          all == Functions(|frames.nodes| - |base|, rest)
      case Raising => Active(base, argList, prevFp) && all == (Verdict.Raised, rest)
      case Done(status) =>
        sp == argList - 2 && fp == prevFp && frames.nodes == base && status == 0 && all == (Returned, rest)
      case Pending => all == (Open, rest)
    }

    method Turn(ghost base: seq<Frame>, ghost argList: int, ghost prevFp: int, e: Event, ip: Ip, events: seq<Event>)
        returns (r: Called, rest: seq<Event>)
      requires Valid() && Active(base, argList, prevFp) && ip.At?
      modifies this, frames, frames.repr
      ensures Valid() && fresh(frames.repr - old(frames.repr)) && |rest| <= |events| && base <= frames.nodes
      ensures forall i {:trigger frames.nodes[i]} ::
        0 <= i < |base| ==> frames.nodes[i].info == old(frames.nodes[i].info)
      ensures Turned(base, argList, prevFp, old(|frames.nodes|) - |base|, [e] + events, r, rest)
      decreases |events|, 3
    {
      if IsCall(e) {
        r, rest := Call(e, ip, events);
      } else {
        r, rest := Instruction(base, argList, prevFp, e, ip, events);
      }
    }

    /** An instruction that does not call a function of the program. */
    method Instruction(ghost base: seq<Frame>, ghost argList: int, ghost prevFp: int, e: Event, ip: Ip,
        events: seq<Event>) returns (r: Called, rest: seq<Event>)
      requires Valid() && Active(base, argList, prevFp) && ip.At? && !IsCall(e)
      modifies this, frames, frames.repr
      ensures Valid() && fresh(frames.repr - old(frames.repr)) && |rest| <= |events| && base <= frames.nodes
      ensures forall i {:trigger frames.nodes[i]} ::
        0 <= i < |base| ==> frames.nodes[i].info == old(frames.nodes[i].info)
      ensures Turned(base, argList, prevFp, old(|frames.nodes|) - |base|, [e] + events, r, rest)
      ensures e.Data? ==> r == Going(ip) && sp == old(sp) + e.delta
      ensures e.Raise? ==> r == Raising && sp == old(sp) + e.pushed
      ensures e.Invoke? && (r.Going? || r.Raising?) ==> sp == old(sp) + e.pushed - e.argc
      ensures e.Return? && r.Going? ==>
        var info := old(frames.nodes[|frames.nodes| - 1].info);
        && r == Going(info.prevIp) && fp == info.prevFp
        && sp == if info.notReturned then info.argList - 2 else info.argList - 1
      decreases |events|, 2
    {
      rest := events;
      match e
      case Data(delta) =>
        sp := sp + delta;
        r := Going(ip);
      case Invoke(pushed, nested) =>
        var local := sp + pushed;
        sp := local;
        var end;
        end, rest := Run(nested, rest);
        if end.Unfinished? { return Pending, rest; }
        assert sp + 1 == local - nested;
        sp := local - nested;
        r := if end.status != 0 then Raising else Going(ip);
      case Return =>
        var back := LeaveCall(false);
        r := if back == Null then Done(0) else Going(back);
      case Raise(pushed) =>
        sp := sp + pushed;
        r := Raising;
      case _ => r := Pending;
    }
  }
}
