/** Whole runs of checked programs: safety, and calls that return what they were called for. */
module BcRuns {
  import opened Bytecode
  import opened BcSpec
  import opened BcSafety
  import opened BcValues

  // A run in which no `get` or `set` is without a result.
  predicate Plain(p: Program, ss: seq<State>) {
    forall i :: 0 <= i < |ss| - 1 ==> !Silent(p, ss[i])
  }

  // A run keeps the stack discipline, or is over with the one result of the entry function.
  ghost predicate InvOrOver(p: Program, heights: Heights, s: State) {
    if s.frames == [] then |s.operands| == 1 else Inv(p, heights, s)
  }

  lemma StartSafe(p: Program, heights: Heights)
    requires Checked(p, heights) && Start(p).Next?
    ensures Inv(p, heights, Start(p).state)
  {
    hide FlowOk, Fetch;
    var s := Start(p).state;
    assert At(heights, Loc(p.entry, 0), 0);
    StartFrame(p);
    assert FrameOk(p, heights, s, 0);
  }

  lemma StartFrame(p: Program)
    requires Start(p).Next?
    ensures var s := Start(p).state;
            && IsFunctionConstant(p, p.entry) && s.ip == Loc(p.entry, 0) && |s.frames| == 1
            && |s.frames[0].locals| == Slots(p, p.entry) && s.operands == [] && |s.globals| == |p.constants|
  {
  }

  lemma InvRuns(p: Program, heights: Heights, s: State)
    requires Inv(p, heights, s)
    ensures |s.frames| > 0
  {
  }

  lemma {:induction false} RunSafe(p: Program, heights: Heights, ss: seq<State>)
    requires Checked(p, heights) && IsRun(p, ss) && Plain(p, ss) && Inv(p, heights, ss[0])
    ensures InvOrOver(p, heights, ss[|ss| - 1])
    decreases |ss|
  {
    hide Step, Silent, Inv;
    InvRuns(p, heights, ss[0]);
    if |ss| > 1 {
      var front := FrontPlain(p, ss);
      RunSafe(p, heights, front);
      StepSafe(p, heights, ss[|ss| - 2]);
    }
  }

  lemma FrontPlain(p: Program, ss: seq<State>) returns (front: seq<State>)
    requires IsRun(p, ss) && |ss| > 1 && Plain(p, ss)
    ensures front == ss[..|ss| - 1] && IsRun(p, front) && Plain(p, front)
    ensures var t := ss[|ss| - 2];
            && front[0] == ss[0] && front[|front| - 1] == t
            && |t.frames| > 0 && Step(p, t) == Next(ss[|ss| - 1]) && !Silent(p, t)
  {
    hide Step, Silent;
    front := Front(p, ss);
  }

  // Whatever state a run of a checked program reaches without a silent built-in, it keeps
  // the stack discipline or the run is over, and the next step can stop only for reasons
  // of values or limits; if no call left an unset slot, no unset slot stops it either.
  lemma RunsAreSafe(p: Program, heights: Heights, ss: seq<State>)
    requires Checked(p, heights) && IsRun(p, ss) && Start(p) == Next(ss[0]) && Plain(p, ss)
    ensures var s := ss[|ss| - 1];
            && InvOrOver(p, heights, s) && ValuesOk(p, s, false)
            && (s.frames != [] && Step(p, s).Halted? ==>
                  var stop := Step(p, s).stop;
                  && !Static(stop) && stop != DANGLING
                  && ((forall i :: 0 <= i < |ss| - 1 ==> !Unsets(p, ss[i])) ==> stop != UNSET))
  {
    hide Step, Start, Silent, Unsets, Inv, ValuesOk;
    StartSafe(p, heights);
    RunSafe(p, heights, ss);
    ReachableHeaps(p, ss);
    UnsetExactly(p, ss);
    if ss[|ss| - 1].frames != [] { StepSafe(p, heights, ss[|ss| - 1]); }
  }

  // Over whole runs the stack discipline is kept exactly as long as no built-in is silent.
  lemma DisciplineExactly(p: Program, heights: Heights, ss: seq<State>)
    requires Checked(p, heights) && IsRun(p, ss) && Inv(p, heights, ss[0])
    ensures (forall i :: 0 <= i < |ss| ==> InvOrOver(p, heights, ss[i])) <==> Plain(p, ss)
  {
    hide Step, Silent, Inv;
    if Plain(p, ss) {
      forall i | 0 <= i < |ss| ensures InvOrOver(p, heights, ss[i]) {
        var front := ss[..i + 1];
        RunSafe(p, heights, front);
        assert front[|front| - 1] == ss[i];
      }
    }
    if forall i :: 0 <= i < |ss| ==> InvOrOver(p, heights, ss[i]) {
      forall i | 0 <= i < |ss| - 1 ensures !Silent(p, ss[i]) {
        assert InvOrOver(p, heights, ss[i]) && InvOrOver(p, heights, ss[i + 1]);
        StepSafe(p, heights, ss[i]);
      }
    }
  }

  // --------------------------------------------------------- calls and returns

  // What a step does to the stacks, by the instruction.
  lemma StepShape(p: Program, heights: Heights, s: State) returns (pops: nat)
    requires Checked(p, heights) && Inv(p, heights, s) && !Silent(p, s) && Step(p, s).Next?
    ensures var t := Step(p, s).state; var d := Fetch(p, s.ip);
            && d.Decoded? && pops == Pops(p, d.instr) <= heights[s.ip]
            && if d.instr.Return? then t == ExecReturn(s).state && heights[s.ip] == 1
               else if |t.frames| > |s.frames| then Entered(p, s, t, Moved(s, d.length).ip, pops)
               else Flat(s, t, pops, Pushes(d.instr))
  {
    hide Exec, ExecCallFunction, ExecCallMethod, Static, Inv, Checked, SilentCall;
    InTable(p, heights, s);
    Readied(p, heights, s);
    var Decoded(instr, length) := Fetch(p, s.ip);
    var m := Moved(s, length);
    pops := Pops(p, instr);
    assert Step(p, s) == Exec(p, m, instr);
    match instr {
      case Return => ReturnShape(p, s);
      case CallFunction(argc) =>
        FunctionCalled(p, m, argc);
        CallIsExec(p, m, instr);
      case CallMethod(k, argc) =>
        MethodCalled(p, m, k, argc);
        CallIsExec(p, m, instr);
      case _ => FlatInstruction(p, m, instr);
    }
  }

  lemma ReturnShape(p: Program, s: State)
    requires |s.frames| > 0 && Fetch(p, s.ip).Decoded? && Fetch(p, s.ip).instr.Return?
    ensures Step(p, s) == ExecReturn(s)
  {
    assert ExecReturn(Moved(s, Fetch(p, s.ip).length)) == ExecReturn(s);
  }

  lemma CallIsExec(p: Program, m: State, instr: Instr)
    requires |m.frames| > 0 && IsCall(instr)
    ensures instr.CallFunction? ==> Exec(p, m, instr) == ExecCallFunction(p, m, instr.argc)
    ensures instr.CallMethod? ==> Exec(p, m, instr) == ExecCallMethod(p, m, instr.index, instr.argc)
  {
    hide ExecCallFunction, ExecCallMethod;
  }

  // While a call is active: the caller and everything under it are as the call left
  // them, and the frame of the call will return to `ret`.
  ghost predicate Active(caller: State, ret: Loc, pops: nat, t: State) {
    var d := |caller.frames|;
    var base := |caller.operands| - pops;
    && |t.frames| > d && t.frames[..d] == caller.frames && t.frames[d].ret == ret
    && 0 <= base <= |t.operands| && t.operands[..base] == caller.operands[..base]
  }

  // Operands below a frame never drop under those of a lower one.
  lemma {:induction false} BelowMonotone(heights: Heights, frames: seq<Frame>, m: nat, n: nat)
    requires m <= n < |frames|
    requires forall i :: 1 <= i < |frames| ==> frames[i].ret in heights && heights[frames[i].ret] >= 1
    ensures Below(heights, frames, m) <= Below(heights, frames, n)
    decreases n
  {
    if m < n { BelowMonotone(heights, frames, m, n - 1); }
  }

  // The operands under the called frame are those the caller kept.
  lemma ActiveBase(p: Program, heights: Heights, caller: State, ret: Loc, pops: nat, t: State)
    requires Inv(p, heights, caller) && Inv(p, heights, t) && Active(caller, ret, pops, t)
    requires ret in heights && heights[ret] == heights[caller.ip] - pops + 1
    ensures Below(heights, t.frames, |caller.frames|) == |caller.operands| - pops
    ensures |caller.operands| - pops + heights[t.ip] <= |t.operands|
    ensures |t.frames| == |caller.frames| + 1 ==> |t.operands| == |caller.operands| - pops + heights[t.ip]
  {
    var d := |caller.frames|;
    forall i | 0 <= i < d ensures t.frames[i] == caller.frames[i] {
      assert t.frames[..d][i] == caller.frames[i];
    }
    BelowSame(heights, caller.frames, t.frames, d - 1);
    BelowMonotone(heights, t.frames, d, |t.frames| - 1);
  }

  // One step of an active call keeps it active, or ends it with one result.
  lemma ActiveStep(p: Program, heights: Heights, caller: State, ret: Loc, pops: nat, t: State)
    requires Checked(p, heights) && Inv(p, heights, caller) && Inv(p, heights, t)
    requires Active(caller, ret, pops, t) && !Silent(p, t) && Step(p, t).Next?
    requires ret in heights && heights[ret] == heights[caller.ip] - pops + 1
    ensures var u := Step(p, t).state; if |u.frames| > |caller.frames| then Active(caller, ret, pops, u)
            else Returned(caller, ret, pops, u)
  {
    hide Step, Fetch, Checked, Inv, Silent;
    ActiveBase(p, heights, caller, ret, pops, t);
    var n := StepShape(p, heights, t);
    InTable(p, heights, t);
    var u := Step(p, t).state;
    var d, base, top := |caller.frames|, |caller.operands| - pops, |t.frames| - 1;
    if Fetch(p, t.ip).instr.Return? {
      assert u.frames[..d] == t.frames[..d];
    } else if |u.frames| > |t.frames| {
      assert u.frames[..d] == u.frames[..|t.frames|][..d] == caller.frames;
      assert u.frames[d] == u.frames[..|t.frames|][d];
      assert u.operands[..base] == t.operands[..|t.operands| - n][..base] == t.operands[..base];
    } else {
      assert u.frames[..d] == u.frames[..top][..d] == t.frames[..top][..d] == caller.frames;
      assert d < top ==> u.frames[d] == u.frames[..top][d] == t.frames[..top][d];
      assert u.operands[..base] == u.operands[..|t.operands| - n][..base] == t.operands[..base];
    }
  }

  // The state a call comes back to.
  ghost predicate Returned(caller: State, ret: Loc, pops: nat, t: State) {
    && t.frames == caller.frames && t.ip == ret && pops <= |caller.operands|
    && |t.operands| == |caller.operands| - pops + 1
    && t.operands[..|t.operands| - 1] == caller.operands[..|caller.operands| - pops]
  }

  lemma ActiveDeeper(caller: State, ret: Loc, pops: nat, t: State)
    requires Active(caller, ret, pops, t)
    ensures |t.frames| > |caller.frames|
  {
  }

  lemma {:induction false} ActiveRun(p: Program, heights: Heights, caller: State, ret: Loc, pops: nat, ss: seq<State>)
    requires Checked(p, heights) && Inv(p, heights, caller) && IsRun(p, ss) && Plain(p, ss)
    requires ret in heights && heights[ret] == heights[caller.ip] - pops + 1
    requires Inv(p, heights, ss[0]) && Active(caller, ret, pops, ss[0])
    requires forall i :: 0 <= i < |ss| - 1 ==> |ss[i].frames| > |caller.frames|
    ensures var t := ss[|ss| - 1];
            if |t.frames| > |caller.frames| then Active(caller, ret, pops, t) else Returned(caller, ret, pops, t)
    decreases |ss|
  {
    hide Step, Silent, Inv, Active, Returned, Checked;
    if |ss| > 1 {
      var front := FrontPlain(p, ss);
      ActiveRun(p, heights, caller, ret, pops, front);
      RunSafe(p, heights, front);
      ActiveStep(p, heights, caller, ret, pops, ss[|ss| - 2]);
    } else {
      ActiveDeeper(caller, ret, pops, ss[0]);
    }
  }

  // From a call of a user function to the state where its frame is gone, through any
  // nesting of calls: the frames are those of the caller, untouched, the next
  // instruction is the one after the call, and receiver or callee and arguments have
  // been replaced by exactly one result.
  lemma CallsReturn(p: Program, heights: Heights, ss: seq<State>)
    requires Checked(p, heights) && IsRun(p, ss) && Plain(p, ss) && Inv(p, heights, ss[0])
    requires |ss| > 2 && |ss[1].frames| == |ss[0].frames| + 1
    requires forall i :: 1 <= i < |ss| - 1 ==> |ss[i].frames| > |ss[0].frames|
    requires |ss[|ss| - 1].frames| == |ss[0].frames|
    ensures var call := Fetch(p, ss[0].ip);
            && call.Decoded? && IsCall(call.instr)
            && Returned(ss[0], Moved(ss[0], call.length).ip, Pops(p, call.instr), ss[|ss| - 1])
  {
    hide Step, Silent, Inv, Active, Returned, Checked;
    var s := ss[0];
    var pops := StepShape(p, heights, s);
    InTable(p, heights, s);
    var d := Fetch(p, s.ip);
    var ret := Moved(s, d.length).ip;
    CallInstruction(p, heights, s);
    var tail := ss[1..];
    StepSafe(p, heights, s);
    EnteredActive(p, s, ss[1], ret, pops);
    ActiveRun(p, heights, s, ret, pops, tail);
  }

  // Only calls add a frame, and the table expects one result after them.
  lemma CallInstruction(p: Program, heights: Heights, s: State)
    requires Checked(p, heights) && Inv(p, heights, s) && !Silent(p, s) && Step(p, s).Next?
    requires |Step(p, s).state.frames| > |s.frames|
    ensures var d := Fetch(p, s.ip);
            && d.Decoded? && IsCall(d.instr)
            && At(heights, Moved(s, d.length).ip, heights[s.ip] - Pops(p, d.instr) + 1)
  {
    hide Step, Silent, Inv, Checked, InstrOk;
    var pops := StepShape(p, heights, s);
    InTable(p, heights, s);
    var Decoded(instr, length) := Fetch(p, s.ip);
    if !IsCall(instr) && !instr.Return? {
      Readied(p, heights, s);
      FlatInstruction(p, Moved(s, length), instr);
      StepIsExec(p, s);
      assert false;
    } else if instr.Return? {
      InvRuns(p, heights, s);
      assert false;
    }
  }

  lemma StepIsExec(p: Program, s: State)
    requires |s.frames| > 0 && Fetch(p, s.ip).Decoded?
    ensures Step(p, s) == Exec(p, Moved(s, Fetch(p, s.ip).length), Fetch(p, s.ip).instr)
  {
    hide Exec;
  }

  lemma EnteredActive(p: Program, s: State, t: State, ret: Loc, pops: nat)
    requires Entered(p, s, t, ret, pops)
    ensures Active(s, ret, pops, t)
  {
  }
}
