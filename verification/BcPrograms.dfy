/** From a bytecode file to the end of its run: loader and machine together. */
module BcPrograms {
  import opened Bytecode
  import opened BcSpec
  import opened BcValues
  import opened BcSafety
  import opened BcRuns
  import M = BcInterpreter
  import opened LoaderSpec
  import L = Loader

  // No run of a program that was loaded follows a bad reference, none that leaves no slot
  // unset misses a value, and none of a checked program in which every built-in has a
  // result stops for anything its text could be blamed for.
  lemma LoadedRunsAreSafe(file: seq<Byte>, heights: Heights, steps: nat, status: M.Status, trace: seq<State>)
    requires ReadProgram(file).Ok? && M.Executed(ReadProgram(file).value, steps, status, trace)
    ensures var p := ReadProgram(file).value;
            && status != M.Stopped(DANGLING)
            && ((forall i :: 0 <= i < |trace| - 1 ==> !Unsets(p, trace[i])) ==> status != M.Stopped(UNSET))
            && (Checked(p, heights) && Plain(p, trace) && status.Stopped? ==> !Static(status.stop))
  {
    hide Step, Start, Unsets, Inv, ValuesOk, Silent, Checked, ReadProgram;
    var p := ReadProgram(file).value;
    if Start(p).Halted? {
      EntryStops(p);
    } else {
      ReachableHeaps(p, trace);
      UnsetExactly(p, trace);
      if Checked(p, heights) && Plain(p, trace) { RunsAreSafe(p, heights, trace); }
    }
  }

  // A loaded program has its entry point in the pool, though perhaps no function there.
  lemma EntryStops(p: Program)
    requires p.entry < |p.constants| && Start(p).Halted?
    ensures Start(p).stop == KIND
  {
  }

  datatype Run = LoadError(error: LoadError) | Ran(status: M.Status)

  // Load a file, read the program back from memory, and run it.
  method Interpret(file: seq<Byte>, steps: nat) returns (r: Run, ghost trace: seq<State>)
    ensures match ReadProgram(file)
            case Err(e) => r == LoadError(e)
            case Ok(p) => r.Ran? && M.Executed(p, steps, r.status, trace)
  {
    hide ReadProgram, M.Executed;
    trace := [];
    var loader := new L.Loader(file);
    var loaded := loader.Deserialize();
    match loaded
    case Err(e) => r := LoadError(e);
    case Ok(_) =>
      var program := loader.Loaded(ReadProgram(file).value);
      var status;
      status, trace := M.Interpret(program, steps);
      r := Ran(status);
  }
}
