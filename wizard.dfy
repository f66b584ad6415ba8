/** The configuration wizard's transitions: moving between steps, recording
    selections and accumulating file names. The component state that holds
    them is `App.AppState`; here they are values, so that runs of several
    presses can be reasoned about. */
module Wizard {

  import opened Catalog

  /** One step per category, then the file step, then one more position
      (also rendered as the file step) from which Next finishes. */
  const LastStep: nat := CategoryCount + 1

  /** The part of the state that Next and Back change. */
  datatype Nav = Nav(step: nat, complete: bool)

  const Start := Nav(0, false)

  /** The Next button: step forward while `step < CategoryCount + 1`,
      otherwise mark the configuration complete and stay. */
  function Advance(n: Nav): Nav {
    if n.step < CategoryCount + 1 then n.(step := n.step + 1) else n.(complete := true)
  }

  /** The Back button: step back unless already at the first step. */
  function Retreat(n: Nav): Nav {
    if n.step > 0 then n.(step := n.step - 1) else n
  }

  datatype Press = NextPress | BackPress

  function Apply(n: Nav, p: Press): Nav {
    match p
    case NextPress => Advance(n)
    case BackPress => Retreat(n)
  }

  /** The navigation state after pressing `presses` in order. */
  function Run(n: Nav, presses: seq<Press>): Nav
    decreases |presses|
  {
    if presses == [] then n else Run(Apply(n, presses[0]), presses[1..])
  }

  function CountNext(presses: seq<Press>): nat
    decreases |presses|
  {
    if presses == [] then 0 else (if presses[0] == NextPress then 1 else 0) + CountNext(presses[1..])
  }

  /** `k` presses of Next. */
  function Nexts(k: nat): (r: seq<Press>)
    ensures |r| == k && CountNext(r) == k
  {
    if k == 0 then [] else [NextPress] + Nexts(k - 1)
  }

  /** One press of either button keeps the step within `[0, LastStep]`. */
  lemma ApplyStaysInRange(n: Nav, p: Press)
    requires n.step <= LastStep
    ensures Apply(n, p).step <= LastStep
    ensures n.complete ==> Apply(n, p).complete
  {
  }

  /** Any run of presses keeps the step within `[0, LastStep]` and never
      clears the completion flag. */
  lemma {:induction false} RunStaysInRange(n: Nav, presses: seq<Press>)
    requires n.step <= LastStep
    ensures Run(n, presses).step <= LastStep
    ensures n.complete ==> Run(n, presses).complete
    decreases |presses|
  {
    if presses != [] {
      ApplyStaysInRange(n, presses[0]);
      RunStaysInRange(Apply(n, presses[0]), presses[1..]);
    }
  }

  /** From step `s`, completing needs at least `LastStep + 1 - s` presses of Next. */
  lemma {:induction false} CompletionNeedsNexts(n: Nav, presses: seq<Press>)
    requires !n.complete && n.step <= LastStep
    ensures Run(n, presses).complete ==> CountNext(presses) >= LastStep + 1 - n.step
    decreases |presses|
  {
    if presses != [] {
      var m := Apply(n, presses[0]);
      if !m.complete {
        CompletionNeedsNexts(m, presses[1..]);
      }
    }
  }

  /** From the first step, the configuration cannot be complete before
      `CategoryCount + 2` (that is, eight) presses of Next. */
  lemma CompletionFromStartNeedsEightNexts(presses: seq<Press>)
    ensures Run(Start, presses).complete ==> CountNext(presses) >= CategoryCount + 2
  {
    CompletionNeedsNexts(Start, presses);
  }

  /** Pressing Next `k` times walks forward one step per press until the
      last step, and the press after that completes the configuration. */
  lemma {:induction false} RunNexts(n: Nav, k: nat)
    requires !n.complete && n.step <= LastStep
    ensures Run(n, Nexts(k))
         == if n.step + k <= LastStep then Nav(n.step + k, false) else Nav(LastStep, true)
    decreases k
  {
    if k > 0 {
      assert Nexts(k)[0] == NextPress && Nexts(k)[1..] == Nexts(k - 1);
      if n.step < LastStep {
        RunNexts(Advance(n), k - 1);
      } else {
        RunNextsWhenComplete(Advance(n), k - 1);
      }
    }
  }

  lemma {:induction false} RunNextsWhenComplete(n: Nav, k: nat)
    requires n == Nav(LastStep, true)
    ensures Run(n, Nexts(k)) == n
    decreases k
  {
    if k > 0 {
      assert Nexts(k)[0] == NextPress && Nexts(k)[1..] == Nexts(k - 1);
      RunNextsWhenComplete(Advance(n), k - 1);
    }
  }

  /** Seven presses of Next from the start reach the last step; the eighth completes. */
  lemma EighthNextCompletes()
    ensures Run(Start, Nexts(7)) == Nav(7, false)
    ensures Run(Start, Nexts(8)) == Nav(7, true)
  {
    RunNexts(Start, 7);
    RunNexts(Start, 8);
  }

  /** Back undoes a Next that moved the step. */
  lemma RetreatUndoesAdvance(n: Nav)
    requires n.step < LastStep
    ensures Retreat(Advance(n)) == n
  {
  }

  /** Next undoes a Back that moved the step. */
  lemma AdvanceUndoesRetreat(n: Nav)
    requires 0 < n.step <= LastStep
    ensures Advance(Retreat(n)) == n
  {
  }

  // ---------------------------------------------------------------------
  // Selections and files
  // ---------------------------------------------------------------------

  /** Recording `value` for category `id`; `id` is not checked against the
      catalogue. */
  function Select(config: map<string, string>, id: string, value: string): (r: map<string, string>)
    ensures r.Keys == config.Keys + {id}
    ensures r[id] == value
    ensures forall k :: k in config && k != id ==> r[k] == config[k]
  {
    config[id := value]
  }

  /** Selecting the same value again changes nothing. */
  lemma SelectIdempotent(config: map<string, string>, id: string, value: string)
    ensures Select(Select(config, id, value), id, value) == Select(config, id, value)
  {
  }

  /** A later selection for the same category overwrites an earlier one. */
  lemma SelectLastWins(config: map<string, string>, id: string, v1: string, v2: string)
    ensures Select(Select(config, id, v1), id, v2) == Select(config, id, v2)
  {
  }

  /** Appending newly picked file names after the ones already listed, in
      their order, duplicates kept. */
  function AddFiles(files: seq<string>, names: seq<string>): (r: seq<string>)
    ensures |r| == |files| + |names|
    ensures r[..|files|] == files && r[|files|..] == names
  {
    files + names
  }

  /** Two additions in a row list the same names as one addition of both batches. */
  lemma AddFilesTwice(files: seq<string>, a: seq<string>, b: seq<string>)
    ensures AddFiles(AddFiles(files, a), b) == AddFiles(files, a + b)
  {
  }

  /** Picking no files leaves the list unchanged. */
  lemma AddNoFiles(files: seq<string>)
    ensures AddFiles(files, []) == files
  {
  }
}
