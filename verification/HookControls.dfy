/**
  A callback that calls the original, recalls, supersedes or continues, as its first argument says, and
  asks a second time after each request: it conforms, so the law of recalls covers it.
 */
module HookControls {
  import opened HookConduct
  import opened HookDispatch

  const INT32: nat := 6
  const KINDS: seq<nat> := [INT32, INT32]

  function Int32(bits: int): Value {
    Value(INT32, 0, bits)
  }

  /** What the callback makes of its first argument before it asks for anything. */
  function First<W>(f: Frame, w: W, left: int): Move<W> {
    if left == 100 then Move([Int32(2), Int32(3)], f.result, f.recalled, Ask(true, CallOriginal), w)
    else if left == 200 || left == 201 then Move([Int32(4), Int32(5)], f.result, f.recalled, Ask(true, Recall), w)
    else if left == 300 then Move([Int32(6), Int32(7)], f.result, f.recalled, Ask(true, CallOriginal), w)
    else if left == 400 then Move(f.args, Int32(888), f.recalled, Done(Supersede), w)
    else Move(f.args, f.result, f.recalled, Done(Continue), w)
  }

  /** After the first request, whose arguments are still in the frame. */
  function Second<W>(f: Frame, w: W, left: int): Move<W> {
    if left == 2 then Move(f.args, f.result, f.recalled, Ask(true, CallOriginal), w)
    else if left == 4 then Move(f.args, f.result, f.recalled, Ask(true, Recall), w)
    else Move(f.args, Int32(777), f.recalled, Done(Supersede), w)
  }

  function Controls<W>(k: nat, f: Frame, r: Reply, w: W): Move<W> {
    if f.phase != Pre || |f.args| != 2 || k > 1 then Move(f.args, f.result, f.recalled, Done(Continue), w)
    else if k == 0 then First(f, w, f.args[0].bits)
    else Second(f, w, f.args[0].bits)
  }

  function Controller<W>(handle: nat, owner: nat, priority: int, sequence: nat): Callback<W> {
    Callback(handle, owner, priority, sequence, true, false, true, 2, Controls)
  }

  lemma SecondFair<W(!new)>(targets: iset<nat>, c: Callback<W>, f: Frame, r: Reply, w: W)
    requires c.body == Controls && c.budget == 2 && f.phase == Pre && LegalArgs(KINDS, f.args)
    requires f.args[0].bits == 2 || f.args[0].bits == 6
    ensures Fair(targets, KINDS, c, true, 1, f, r, w)
  {
    if f.args[0].bits == 2 {
      assert FairAfter(targets, KINDS, c, true, 2, Left(f, Second(f, w, 2)));
    }
  }

  /** After the recall it asks to be recalled again, in vain, and continues. */
  lemma SecondQuits<W(!new)>(c: Callback<W>, f: Frame, r: Reply, w: W, why: Reply)
    requires c.body == Controls && c.budget == 2 && f.phase == Pre && LegalArgs(KINDS, f.args) && f.args[0].bits == 4
    ensures Quits(c, 1, f, r, w, why)
  {
    var m := Second(f, w, 4);
    assert Written(f.args, m.args) == f.args;
    var g := Left(f, m);
    assert c.body(2, g, why, w) == Move(g.args, g.result, g.recalled, Done(Continue), w) && Written(g.args, g.args) == g.args;
    assert Quits(c, 2, g, why, w, why);
  }

  lemma FirstResigns<W(!new)>(c: Callback<W>, f: Frame, w: W)
    requires c.body == Controls && c.budget == 2 && f.phase == Pre && f.args == [Int32(4), Int32(5)]
    ensures Resigns(KINDS, c, 1, f, w)
  {
    forall v, world
      ensures Quits(c, 1, RecalledFrame(f, v), Ok, world, AlreadyExists)
    {
      SecondQuits(c, RecalledFrame(f, v), Ok, world, AlreadyExists);
    }
    SecondQuits(c, f, Unsupported, w, Unsupported);
    SecondQuits(c, f, AlreadyExists, w, AlreadyExists);
    SecondQuits(c, f, Busy, w, Busy);
  }

  lemma FirstFair<W(!new)>(targets: iset<nat>, c: Callback<W>, f: Frame, w: W)
    requires c.body == Controls && c.budget == 2 && f.phase == Pre && LegalArgs(KINDS, f.args)
    ensures Fair(targets, KINDS, c, true, 0, f, Ok, w)
  {
    var m := First(f, w, f.args[0].bits);
    if m.next == Ask(true, Recall) {
      assert Written(f.args, m.args) == [Int32(4), Int32(5)];
      FirstResigns(c, Left(f, m), w);
    } else if m.next.Ask? {
      assert Written(f.args, m.args) == m.args;
      forall g, r, world | Served(Left(f, m), g)
        ensures Fair(targets, KINDS, c, true, 1, g, r, world)
      {
        SecondFair(targets, c, g, r, world);
      }
    }
  }

  lemma ControllerConforms<W(!new)>(targets: iset<nat>, handle: nat, owner: nat, priority: int, sequence: nat)
    ensures Recaller<W>(targets, KINDS, Controller(handle, owner, priority, sequence))
  {
    var c := Controller<W>(handle, owner, priority, sequence);
    forall f: Frame, w: W | f.phase == Pre && LegalArgs(KINDS, f.args)
      ensures Fair(targets, KINDS, c, true, 0, f, Ok, w)
    {
      FirstFair(targets, c, f, w);
    }
  }
}
