/**
  The dispatch of one thread as the service runs it: thread-local stacks, one control record per
  dispatch updated in place, and loops over the callbacks. Every method is proved against the
  interpreter of HookDispatch, and the stacks are proved never to overflow and always to be restored.
 */
module HookEngine {
  import opened Options
  import opened HookDispatch

  /** The flags and the result a dispatch keeps while its callbacks run. */
  datatype Locals = Locals(result: Value, originalCalled: bool, overridden: bool, superseded: bool, recalled: bool)

  /** What the running dispatch shares with the requests its callbacks make. */
  class DispatchControl<W(!new)> {
    const target: Target<W>
    var frame: Frame
    var locals: Locals
    ghost var ledger: seq<Entry>
    ghost var posts: seq<Entry>

    constructor (target: Target<W>, frame: Frame, locals: Locals)
      ensures this.target == target && this.frame == frame && this.locals == locals && ledger == [] && posts == []
    {
      this.target, this.frame, this.locals := target, frame, locals;
      this.ledger, this.posts := [], [];
    }

    /** The dispatch's state; while a callback runs, `args` are the arguments it was given. */
    ghost function RunView(args: seq<Value>, flag: bool, world: W, trace: seq<Event>): Run<W>
      reads this
    {
      Run(args, locals.result, locals.originalCalled, locals.overridden, locals.superseded, locals.recalled,
          flag, world, trace, ledger, posts)
    }

    /** Between callbacks the frame repeats the dispatch's own state. */
    ghost predicate Settled()
      reads this
    {
      |frame.args| == |target.kinds| && frame.result == locals.result && frame.called == locals.originalCalled
    }
  }

  /** What an action leaves of the flags and the result, given what the callback wrote. */
  function Applied(action: Action, before: Locals, written: Value, explicitCall: bool, beforeResult: Value): Locals {
    var decided := action == Supersede || (action == Override && !before.superseded);
    before.(result := if decided then written else if action != Override && explicitCall then before.result else beforeResult,
            overridden := before.overridden || decided,
            superseded := before.superseded || action == Supersede)
  }

  /** The room of the thread's callback stack; `InvokeCallback` shows that it never runs out. */
  const MAX_CALLBACK_DEPTH: nat := 128

  datatype RecallState = RecallState(from: nat, overridden: Option<Value>)

  /** Every dispatch under way has a control, and so a frame, of its own. */
  ghost predicate Different<W(!new)>(controls: seq<DispatchControl<W>>) {
    forall i, j :: 0 <= i < j < |controls| ==> controls[i] != controls[j]
  }

  lemma DifferentPush<W(!new)>(controls: seq<DispatchControl<W>>, control: DispatchControl<W>)
    requires Different(controls) && control !in controls
    ensures Different(controls + [control])
  {
  }

  class HookThread<W(!new)> {
    var world: W
    ghost var trace: seq<Event>
    var callbackStack: seq<Callback<W>>
    var dispatchStack: seq<DispatchControl<W>>
    var targetStack: seq<Target<W>>
    var recallState: Option<RecallState>

    constructor (world: W)
      ensures Valid() && this.world == world && trace == [] && recallState.None?
      ensures callbackStack == [] && dispatchStack == [] && targetStack == []
    {
      this.world := world;
      this.trace := [];
      this.callbackStack, this.dispatchStack, this.targetStack := [], [], [];
      this.recallState := None;
    }

    ghost predicate Valid()
      reads this
    {
      && |callbackStack| <= |dispatchStack| <= |targetStack| <= MAX_TARGET_DEPTH
      && Different(dispatchStack)
    }

    /** The request comes from the plugin whose callback runs, and names the frame that callback was given. */
    predicate Rightful(plugin: nat, frame: DispatchControl?<W>)
      reads this
    {
      && callbackStack != [] && dispatchStack != []
      && callbackStack[|callbackStack| - 1].owner == plugin && dispatchStack[|dispatchStack| - 1] == frame
    }

    ghost function Room(): nat
      requires Valid()
      reads this
    {
      MAX_TARGET_DEPTH - |targetStack|
    }

    /** The stacks are what they were: every push was undone. */
    twostate predicate Restored()
      reads this
    {
      && callbackStack == old(callbackStack) && dispatchStack == old(dispatchStack)
      && targetStack == old(targetStack) && recallState == old(recallState)
    }

    /**
      The control of the callback now running on this thread, for a request of `plugin` on `frame`; null for
      another plugin's handle, and for the frame of a dispatch that this one interrupted.
     */
    method CurrentControl(plugin: nat, frame: DispatchControl?<W>) returns (control: DispatchControl?<W>)
      requires Valid()
      ensures control != null <==> Rightful(plugin, frame)
      ensures control != null ==> control == frame
      ensures forall i :: 0 <= i < |dispatchStack| - 1 && frame == dispatchStack[i] ==> control == null
    {
      if frame == null || dispatchStack == [] || callbackStack == [] || callbackStack[|callbackStack| - 1].owner != plugin {
        return null;
      }
      control := dispatchStack[|dispatchStack| - 1];
      if control != frame {
        control := null;
      }
    }

    method CallOriginal(target: Target<W>, args: seq<Value>) returns (value: Value)
      modifies this`world, this`trace
      ensures (value, world) == RunOriginal(target, args, old(world))
      ensures trace == old(trace) + [Original(Retype(target.kinds, args), value)]
    {
      var (bits, after) := target.original(Retype(target.kinds, args), world);
      value := Value(target.ret, 0, bits);
      world := after;
      trace := trace + [Original(Retype(target.kinds, args), value)];
    }

    method CallOriginalControl(plugin: nat, claimed: DispatchControl?<W>, control: DispatchControl<W>,
          ghost before: seq<Value>, ghost flag: bool)
          returns (reply: Reply)
      requires Valid() && callbackStack != [] && dispatchStack[|dispatchStack| - 1] == control
      modifies this`world, this`trace, control
      ensures (reply, control.frame, control.RunView(before, flag, world, trace)) ==
        old(ServeOriginal(control.target, Rightful(plugin, claimed), control.frame, control.RunView(before, flag, world, trace)))
      ensures reply == (if !Rightful(plugin, claimed) then NotReady
                        else if old(control.frame.phase) == Post then Unsupported
                        else if old(control.locals.originalCalled || control.locals.superseded) then AlreadyExists
                        else Ok)
      ensures reply == Ok ==>
        var args := Retype(control.target.kinds, old(control.frame.args));
        && (control.frame.result.bits, world) == control.target.original(args, old(world))
        && trace == old(trace) + [Original(args, control.frame.result)]
    {
      var current := CurrentControl(plugin, claimed);
      if current == null {
        return NotReady;
      }
      if current.frame.phase != Pre {
        return Unsupported;
      }
      if current.locals.originalCalled || current.locals.superseded {
        return AlreadyExists;
      }
      var value := CallOriginal(current.target, current.frame.args);
      current.locals := current.locals.(result := value, originalCalled := true);
      current.frame := current.frame.(result := value, called := true);
      current.ledger := current.ledger + [Ran(false, value)];
      return Ok;
    }

    method RecallControl(env: seq<Target<W>>, plugin: nat, claimed: DispatchControl?<W>, control: DispatchControl<W>,
          c: Callback<W>,
          ghost before: seq<Value>, ghost flag: bool) returns (reply: Reply)
      requires Valid() && callbackStack != [] && dispatchStack[|dispatchStack| - 1] == control
      requires callbackStack[|callbackStack| - 1] == c && recallState.None?
      requires |control.frame.args| == |control.target.kinds|
      modifies this, control
      decreases MAX_TARGET_DEPTH - |targetStack|, 2
      ensures Valid() && Restored() && |control.frame.args| == |control.target.kinds|
      ensures (reply, control.frame, control.RunView(before, flag, world, trace)) ==
        old(HookDispatch.Serve(env, control.target, c, Rightful(plugin, claimed), Recall, control.frame, control.RunView(before, flag, world, trace), Room()))
      ensures reply == (if !old(Rightful(plugin, claimed)) then NotReady
                        else if old(control.frame.phase) == Post || !control.target.closure then Unsupported
                        else if old(control.locals.originalCalled || control.locals.superseded) then AlreadyExists
                        else if |targetStack| >= MAX_TARGET_DEPTH then Busy
                        else Ok)
    {
      var current := CurrentControl(plugin, claimed);
      if current == null {
        return NotReady;
      }
      if current.frame.phase != Pre || !current.target.closure {
        return Unsupported;
      }
      if current.locals.originalCalled || current.locals.superseded {
        return AlreadyExists;
      }
      if |targetStack| >= MAX_TARGET_DEPTH {
        return Busy;
      }
      var previous := recallState;
      recallState := Some(RecallState(callbackStack[|callbackStack| - 1].handle, if current.locals.overridden then Some(current.locals.result) else None));
      var value;
      ghost var ledger, posts;
      value, ledger, posts := Dispatch(env, current.target, current.frame.args);
      recallState := previous;
      current.locals := current.locals.(result := value, originalCalled := true, recalled := true);
      current.frame := current.frame.(result := value, called := true, recalled := true);
      current.ledger := current.ledger + [Recalled(ledger, value)];
      return Ok;
    }

    /** A request of the running callback; one that is not its own names no frame here. */
    method Serve(env: seq<Target<W>>, control: DispatchControl<W>, c: Callback<W>, request: Next,
          ghost before: seq<Value>, ghost flag: bool) returns (reply: Reply)
      requires Valid() && callbackStack != [] && dispatchStack[|dispatchStack| - 1] == control
      requires callbackStack[|callbackStack| - 1] == c && recallState.None?
      requires |control.frame.args| == |control.target.kinds| && request.Ask?
      modifies this, control
      decreases MAX_TARGET_DEPTH - |targetStack|, 3
      ensures Valid() && Restored() && |control.frame.args| == |control.target.kinds|
      ensures (reply, control.frame, control.RunView(before, flag, world, trace)) ==
        old(HookDispatch.Serve(env, control.target, c, request.own, request.control, control.frame,
                               control.RunView(before, flag, world, trace), Room()))
    {
      var claimed: DispatchControl?<W> := if request.own then control else null;
      assert Rightful(c.owner, claimed) == request.own;
      match request.control
      case CallOriginal =>
        reply := CallOriginalControl(c.owner, claimed, control, before, flag);
      case Recall =>
        reply := RecallControl(env, c.owner, claimed, control, c, before, flag);
      case Reenter(target, args) =>
        reply := NotReady;
        if target < |env| {
          var value;
          ghost var ledger, posts;
          value, ledger, posts := Dispatch(env, env[target], args);
          reply := Returned(value);
        }
    }

    /** One callback of the running dispatch, with everything it asks for on the way. */
    method InvokeCallback(env: seq<Target<W>>, control: DispatchControl<W>, c: Callback<W>) returns (action: Action)
      requires Valid() && |callbackStack| < |dispatchStack| && dispatchStack[|dispatchStack| - 1] == control && recallState.None?
      requires control.Settled()
      modifies this, control
      decreases MAX_TARGET_DEPTH - |targetStack|, 5
      ensures Valid() && Restored() && |control.frame.args| == |control.target.kinds|
      ensures (action, control.frame, control.RunView(old(control.frame.args), old(control.frame.recalled), world, trace)) ==
        old(Invoke(env, control.target, c, control.frame, control.RunView(control.frame.args, control.frame.recalled, world, trace), Room()))
    {
      if !c.enabled {
        return Continue;
      }
      if |callbackStack| >= MAX_CALLBACK_DEPTH {
        assert false;
      }
      ghost var before, flag := control.frame.args, control.frame.recalled;
      callbackStack := callbackStack + [c];
      trace := trace + [Entered(c.handle, control.frame.phase, control.frame.args, control.frame.result, control.frame.called)];
      action := RunBody(env, control, c, before, flag);
      callbackStack := callbackStack[..|callbackStack| - 1];
    }

    /** One move of a callback. */
    method Move(control: DispatchControl<W>, c: Callback<W>, k: nat, reply: Reply, ghost before: seq<Value>, ghost flag: bool)
          returns (next: Next)
      requires |control.frame.args| == |control.target.kinds|
      modifies this`world, control`frame
      ensures |control.frame.args| == |control.target.kinds|
      ensures (next, control.frame, control.RunView(before, flag, world, trace)) ==
        old(Moved(c, k, reply, control.frame, control.RunView(before, flag, world, trace)))
    {
      var m := c.body(k, control.frame, reply, world);
      control.frame := control.frame.(args := Written(control.frame.args, m.args), result := m.result, recalled := m.recalled);
      world := m.world;
      next := m.next;
    }

    /** The callback's own code: it writes its frame and asks, until it returns or its budget ends. */
    method RunBody(env: seq<Target<W>>, control: DispatchControl<W>, c: Callback<W>, ghost before: seq<Value>,
          ghost flag: bool) returns (action: Action)
      requires Valid() && callbackStack != [] && dispatchStack[|dispatchStack| - 1] == control
      requires callbackStack[|callbackStack| - 1] == c && recallState.None?
      requires |control.frame.args| == |control.target.kinds|
      modifies this, control
      decreases MAX_TARGET_DEPTH - |targetStack|, 4
      ensures Valid() && Restored() && |control.frame.args| == |control.target.kinds|
      ensures (action, control.frame, control.RunView(before, flag, world, trace)) ==
        old(Body(env, control.target, c, 0, Ok, control.frame, control.RunView(before, flag, world, trace), Room()))
    {
      var k, reply := 0, Ok;
      action := Continue;
      ghost var room := Room();
      ghost var goal := Body(env, control.target, c, 0, Ok, control.frame, control.RunView(before, flag, world, trace), room);
      while true
        invariant 0 <= k <= c.budget
        invariant Valid() && Restored() && room == Room() && |control.frame.args| == |control.target.kinds|
        invariant Body(env, control.target, c, k, reply, control.frame, control.RunView(before, flag, world, trace), room) == goal
        decreases c.budget - k
      {
        BodyUnfolds(env, control.target, c, k, reply, control.frame, control.RunView(before, flag, world, trace), room);
        var next := Move(control, c, k, reply, before, flag);
        if next.Done? {
          return next.action;
        }
        if k == c.budget {
          return Continue;
        }
        reply := Serve(env, control, c, next, before, flag);
        k := k + 1;
      }
    }

    method PreChain(env: seq<Target<W>>, control: DispatchControl<W>, callbacks: seq<Callback<W>>, start: nat)
      requires Valid() && |callbackStack| < |dispatchStack| && dispatchStack[|dispatchStack| - 1] == control && recallState.None?
      requires control.Settled() && control.frame.phase == Pre && !control.locals.recalled && start <= |callbacks|
      modifies this, control
      decreases MAX_TARGET_DEPTH - |targetStack|, 6
      ensures Valid() && Restored() && control.Settled() && control.frame.phase == Pre
      ensures control.RunView(control.frame.args, control.frame.recalled, world, trace) ==
        old(PreLoop(env, control.target, callbacks, start, control.RunView(control.frame.args, control.frame.recalled, world, trace), Room()))
    {
      var index := start;
      ghost var t, room := control.target, Room();
      ghost var run0 := control.RunView(control.frame.args, control.frame.recalled, world, trace);
      while index < |callbacks| && !control.locals.recalled
        invariant start <= index <= |callbacks|
        invariant Valid() && room == Room() && Restored() && control.Settled() && control.frame.phase == Pre
        invariant var run := control.RunView(control.frame.args, control.frame.recalled, world, trace);
          (if run.recalled then run else PreLoop(env, t, callbacks, index, run, room)) == PreLoop(env, t, callbacks, start, run0, room)
      {
        var callback := callbacks[index];
        index := index + 1;
        if callback.pre {
          var beforeArgs, beforeResult, originalBefore := control.frame.args, control.locals.result, control.locals.originalCalled;
          ghost var found := control.frame.recalled;
          ghost var before := control.RunView(control.frame.args, control.frame.recalled, world, trace);
          var action := InvokeCallback(env, control, callback);
          ghost var settled := SettlePre(t, callback, before, action, control.frame, control.RunView(before.args, before.flag, world, trace));
          Settle(control, callback, action, beforeArgs, beforeResult, originalBefore, found);
          assert control.RunView(control.frame.args, control.frame.recalled, world, trace) == settled;
          assert settled == PreStep(env, t, callback, before, room);
        }
      }
    }

    /** Frame validation and the action table after a PRE callback. */
    method Settle(control: DispatchControl<W>, callback: Callback<W>, action: Action, beforeArgs: seq<Value>,
          beforeResult: Value, originalBefore: bool, ghost found: bool)
      requires |beforeArgs| == |control.frame.args| == |control.target.kinds|
      modifies control
      ensures var written := if Legal(old(control.frame.result), control.target.ret) then old(control.frame.result) else beforeResult;
        && control.ledger == old(control.ledger) + [Took(callback.handle, action, written, old(control.frame.args), found, old(control.frame.recalled))]
        && control.posts == old(control.posts)
        && control.locals == Applied(action, old(control.locals), written, !originalBefore && old(control.locals.originalCalled), beforeResult)
        && control.frame == old(control.frame).(
             args := if action == Invalid && (originalBefore || !old(control.locals.originalCalled)) then beforeArgs
                     else CheckedArgs(control.target.kinds, old(control.frame.args), beforeArgs),
             result := control.locals.result, called := control.locals.originalCalled)
    {
      var written := if Legal(control.frame.result, control.target.ret) then control.frame.result else beforeResult;
      var args := CheckedArgs(control.target.kinds, control.frame.args, beforeArgs);
      var explicitCall := !originalBefore && control.locals.originalCalled;
      var locals := control.locals;
      match action {
        case Continue =>
          if !explicitCall {
            locals := locals.(result := beforeResult);
          }
        case Override =>
          if !locals.superseded {
            locals := locals.(result := written, overridden := true);
          } else {
            locals := locals.(result := beforeResult);
          }
        case Supersede =>
          locals := locals.(result := written, overridden := true, superseded := true);
        case Invalid =>
          if !explicitCall {
            args := beforeArgs;
            locals := locals.(result := beforeResult);
          }
      }
      control.ledger := control.ledger + [Took(callback.handle, action, written, control.frame.args, found, control.frame.recalled)];
      control.locals := locals;
      control.frame := control.frame.(args := args, result := locals.result, called := locals.originalCalled);
    }

    method PostChain(env: seq<Target<W>>, control: DispatchControl<W>, callbacks: seq<Callback<W>>)
      requires Valid() && |callbackStack| < |dispatchStack| && dispatchStack[|dispatchStack| - 1] == control && recallState.None?
      requires control.Settled() && control.frame.phase == Post
      modifies this, control
      decreases MAX_TARGET_DEPTH - |targetStack|, 6
      ensures Valid() && Restored() && control.Settled()
      ensures control.RunView(control.frame.args, control.frame.recalled, world, trace) ==
        old(PostLoop(env, control.target, callbacks, |callbacks|, control.RunView(control.frame.args, control.frame.recalled, world, trace), Room()))
    {
      var index := |callbacks|;
      ghost var t, room := control.target, Room();
      ghost var run0 := control.RunView(control.frame.args, control.frame.recalled, world, trace);
      while index > 0
        invariant 0 <= index <= |callbacks|
        invariant Valid() && room == Room() && Restored() && control.Settled() && control.frame.phase == Post
        invariant PostLoop(env, t, callbacks, index, control.RunView(control.frame.args, control.frame.recalled, world, trace), room) ==
                  PostLoop(env, t, callbacks, |callbacks|, run0, room)
      {
        index := index - 1;
        var callback := callbacks[index];
        if callback.post {
          var beforeArgs, beforeResult := control.frame.args, control.locals.result;
          ghost var found := control.frame.recalled;
          ghost var before := control.RunView(control.frame.args, control.frame.recalled, world, trace);
          var action := InvokeCallback(env, control, callback);
          ghost var settled := HookDispatch.SettlePost(t, callback, before, action, control.frame, control.RunView(before.args, before.flag, world, trace));
          SettlePost(control, callback, action, beforeArgs, beforeResult, found);
          assert control.RunView(control.frame.args, control.frame.recalled, world, trace) == settled;
          PostLoopUnfolds(env, t, callbacks, index + 1, before, room, settled);
        }
      }
    }

    /** Frame validation and the action table after a POST callback. */
    method SettlePost(control: DispatchControl<W>, callback: Callback<W>, action: Action, beforeArgs: seq<Value>,
          beforeResult: Value, ghost found: bool)
      requires |beforeArgs| == |control.frame.args| == |control.target.kinds|
      modifies control
      ensures var written := if Legal(old(control.frame.result), control.target.ret) then old(control.frame.result) else beforeResult;
        && control.posts == old(control.posts) + [Took(callback.handle, action, written, old(control.frame.args), found, old(control.frame.recalled))]
        && control.ledger == old(control.ledger)
        && control.locals == old(control.locals).(result := if action == Override then written else beforeResult)
        && control.frame == old(control.frame).(
             args := if action == Override || action == Continue then CheckedArgs(control.target.kinds, old(control.frame.args), beforeArgs)
                     else beforeArgs,
             result := control.locals.result, called := control.locals.originalCalled)
    {
      var written := if Legal(control.frame.result, control.target.ret) then control.frame.result else beforeResult;
      var args, result := CheckedArgs(control.target.kinds, control.frame.args, beforeArgs), beforeResult;
      if action == Override {
        result := written;
      } else if action != Continue {
        args := beforeArgs;
      }
      control.posts := control.posts + [Took(callback.handle, action, written, control.frame.args, found, control.frame.recalled)];
      control.locals := control.locals.(result := result);
      control.frame := control.frame.(args := args, result := result, called := control.locals.originalCalled);
    }

    /** PRE, the original if it is still owed, and POST unless a recall did it all. */
    method RunChains(env: seq<Target<W>>, control: DispatchControl<W>, callbacks: seq<Callback<W>>, start: nat)
      requires Valid() && |callbackStack| < |dispatchStack| && dispatchStack[|dispatchStack| - 1] == control && recallState.None?
      requires control.Settled() && control.frame.phase == Pre && !control.locals.recalled && start <= |callbacks|
      modifies this, control
      decreases MAX_TARGET_DEPTH - |targetStack|, 7
      ensures Valid() && Restored()
      ensures control.RunView(control.frame.args, control.frame.recalled, world, trace) ==
        old(Rest(env, control.target, callbacks, start, control.RunView(control.frame.args, control.frame.recalled, world, trace), Room()))
    {
      PreChain(env, control, callbacks, start);
      if !control.locals.recalled {
        ImplicitOriginal(control);
        PostChain(env, control, callbacks);
      }
    }

    /** A call of a hooked function on this thread. */
    method Dispatch(env: seq<Target<W>>, target: Target<W>, native: seq<Value>)
          returns (value: Value, ghost ledger: seq<Entry>, ghost posts: seq<Entry>)
      requires Valid()
      modifies this
      decreases MAX_TARGET_DEPTH - |targetStack|, 1
      ensures Valid() && recallState.None?
      ensures callbackStack == old(callbackStack) && dispatchStack == old(dispatchStack) && targetStack == old(targetStack)
      ensures Outcome(value, world, trace, ledger, posts) ==
        old(HookDispatch.Dispatch(env, target, SeedOf(recallState), native, Room(), world, trace))
    {
      var recall := recallState;
      recallState := None;
      if |targetStack| >= MAX_TARGET_DEPTH {
        value := CallOriginal(target, Retype(target.kinds, native));
        return value, [Ran(true, value)], [];
      }
      value, ledger, posts := Hooked(env, target, native, recall);
    }

    /** A dispatch with a slot of the target stack to itself. */
    method Hooked(env: seq<Target<W>>, target: Target<W>, native: seq<Value>, recall: Option<RecallState>)
          returns (value: Value, ghost ledger: seq<Entry>, ghost posts: seq<Entry>)
      requires Valid() && recallState.None? && |targetStack| < MAX_TARGET_DEPTH
      modifies this
      decreases MAX_TARGET_DEPTH - |targetStack|, 0
      ensures Valid() && Restored()
      ensures Outcome(value, world, trace, ledger, posts) ==
        old(HookDispatch.Dispatch(env, target, SeedOf(recall), native, Room(), world, trace))
    {
      ghost var goal, room := HookDispatch.Dispatch(env, target, SeedOf(recall), native, Room(), world, trace), Room() - 1;
      targetStack := targetStack + [target];
      var callbacks := Sorted(target.callbacks);
      var control := Prepare(target, native, recall);
      if |dispatchStack| >= MAX_TARGET_DEPTH {
        assert false;
      }
      DifferentPush(dispatchStack, control);
      dispatchStack := dispatchStack + [control];
      var start := if recall.Some? then StartAfter(callbacks, recall.value.from) else 0;
      ghost var run := control.RunView(control.frame.args, control.frame.recalled, world, trace);
      ghost var last := Rest(env, target, callbacks, start, run, room);
      assert goal == Outcome(last.result, last.world, last.trace, last.ledger, last.posts) by {
        DispatchUnfolds(env, target, SeedOf(recall), native, room + 1, world, trace, last);
      }
      RunChains(env, control, callbacks, start);
      assert control.RunView(control.frame.args, control.frame.recalled, world, trace) == last;
      dispatchStack := dispatchStack[..|dispatchStack| - 1];
      targetStack := targetStack[..|targetStack| - 1];
      return control.locals.result, control.ledger, control.posts;
    }

    /** The control record of a fresh dispatch; a recall hands on its overridden result. */
    method Prepare(target: Target<W>, native: seq<Value>, recall: Option<RecallState>)
          returns (control: DispatchControl<W>)
      ensures fresh(control) && control.target == target && control.Settled() && control.frame.phase == Pre && !control.locals.recalled
      ensures forall w, tr :: control.RunView(control.frame.args, control.frame.recalled, w, tr) == Start(target, SeedOf(recall), native, w, tr)
    {
      var overridden := recall.Some? && recall.value.overridden.Some?;
      var result := if overridden then recall.value.overridden.value else Zero(target.ret);
      control := new DispatchControl(target, Frame(Pre, recall.Some?, false, Retype(target.kinds, native), result),
                                     Locals(result, false, overridden, false, false));
    }

    /** The call still owed after PRE, and the frame POST starts from. */
    method ImplicitOriginal(control: DispatchControl<W>)
      requires Valid() && control.Settled()
      modifies this`world, this`trace, control
      ensures control.Settled() && control.frame.phase == Post
      ensures control.RunView(control.frame.args, control.frame.recalled, world, trace) ==
        old(Implicit(control.target, control.RunView(control.frame.args, control.frame.recalled, world, trace)))
    {
      if !control.locals.superseded && !control.locals.originalCalled {
        var original := CallOriginal(control.target, control.frame.args);
        control.locals := control.locals.(originalCalled := true);
        control.ledger := control.ledger + [Ran(true, original)];
        if !control.locals.overridden {
          control.locals := control.locals.(result := original);
        }
      }
      control.frame := control.frame.(phase := Post, result := control.locals.result, called := control.locals.originalCalled);
    }
  }

  function SeedOf(recall: Option<RecallState>): Option<Seed> {
    if recall.None? then None else Some(Seed(recall.value.from, recall.value.overridden))
  }
}
