/**
 * The graphing panel that sits beside the early tutor: it cycles through sets
 * of equations proposed for the conversation so far, one set on screen at a
 * time, either on a button press or once a second while playing.
 */
module Graphing {
  import opened Wrappers
  import opened SharedContext

  /** Equations shown per set: the panel has exactly five expression slots. */
  const SlotCount: nat := 5

  /** Window entries the equation prompt is built from. */
  const PromptTurns: nat := 3

  /** One step round a list of `count` sets; an empty list keeps the index. */
  function NextIndex(current: nat, count: nat): (r: nat)
    ensures count == 0 ==> r == current
    ensures count > 0 ==> r < count
    ensures count > 0 && current + 1 < count ==> r == current + 1
    ensures count > 0 && current + 1 == count ==> r == 0
  {
    if count == 0 then current else (current + 1) % count
  }

  /** The index after `k` steps. */
  function Steps(current: nat, count: nat, k: nat): nat {
    if k == 0 then current else NextIndex(Steps(current, count, k - 1), count)
  }

  /** Below the end of the list each step moves exactly one place. */
  lemma {:induction false} StepsCount(current: nat, count: nat, k: nat)
    requires current + k < count
    ensures Steps(current, count, k) == current + k
  {
    if k > 0 {
      StepsCount(current, count, k - 1);
    }
  }

  /** Steps compose: `a` steps and then `b` more are `a + b` steps. */
  lemma {:induction false} StepsCompose(current: nat, count: nat, a: nat, b: nat)
    ensures Steps(Steps(current, count, a), count, b) == Steps(current, count, a + b)
  {
    if b > 0 {
      StepsCompose(current, count, a, b - 1);
    }
  }

  /** As many steps as there are sets bring the index back where it started. */
  lemma FullCycle(current: nat, count: nat)
    requires current < count
    ensures Steps(current, count, count) == current
  {
    // up to the last set, over the end to 0, then `current` more steps
    StepsCount(current, count, count - current - 1);
    assert Steps(current, count, count - current) == 0;
    StepsCount(0, count, current);
    StepsCompose(current, count, count - current, current);
  }

  /** A slot's text: the equation in that position, or a blank when it is missing or empty. */
  function Slot(equations: seq<string>, k: nat): string {
    if k < |equations| && equations[k] != "" then equations[k] else " "
  }

  /** What the calculator shows: five slots of the current set, or nothing when there is no such set. */
  function Display(sets: seq<seq<string>>, current: nat): (r: Option<seq<string>>)
    ensures r.Some? <==> current < |sets|
    ensures r.Some? ==> |r.value| == SlotCount
  {
    if current < |sets| then Some(seq(SlotCount, k requires 0 <= k => Slot(sets[current], k))) else None
  }

  /**
   * The display holds the first five non-empty equations of the current set
   * in their places, and nothing else but blanks.
   */
  lemma DisplayShowsFirstFive(sets: seq<seq<string>>, current: nat)
    requires current < |sets|
    ensures var shown := Display(sets, current).value;
      && (forall k :: 0 <= k < SlotCount && k < |sets[current]| && sets[current][k] != "" ==> shown[k] == sets[current][k])
      && (forall k :: 0 <= k < SlotCount && (k >= |sets[current]| || sets[current][k] == "") ==> shown[k] == " ")
      && (forall e :: e in shown && e != " " ==> e in sets[current][..if |sets[current]| < SlotCount then |sets[current]| else SlotCount])
  {
    var shown := Display(sets, current).value;
    var equations := sets[current];
    var n := if |equations| < SlotCount then |equations| else SlotCount;
    forall e | e in shown && e != " "
      ensures e in equations[..n]
    {
      var k :| 0 <= k < |shown| && shown[k] == e;
      assert shown[k] == Slot(equations, k);
      assert equations[..n][k] == equations[k];
    }
  }

  /** The guard before asking for equations: a window and a stage past setup. */
  predicate ShouldFetch(window: seq<Turn>, stage: string) {
    |window| != 0 && stage != "Setup"
  }

  /** The conversation text the equation prompt carries: the first three window entries. */
  function PromptWindow(window: seq<Turn>): string {
    FormatTranscript(window[..if |window| < PromptTurns then |window| else PromptTurns])
  }

  /** The prompt text is the start of the formatted window, and all of it when the window is short. */
  lemma PromptIsWindowStart(window: seq<Turn>)
    ensures |window| <= PromptTurns ==> PromptWindow(window) == FormatTranscript(window)
    ensures |window| > PromptTurns ==>
      FormatTranscript(window) == PromptWindow(window) + FormatTranscript(window[PromptTurns..])
  {
    if |window| <= PromptTurns {
      assert window[..|window|] == window;
    } else {
      assert window == window[..PromptTurns] + window[PromptTurns..];
      FormatConcat(window[..PromptTurns], window[PromptTurns..]);
    }
  }

  /** What a refresh of the equations did. */
  datatype Fetch =
    | Threw                                 // the context supplies no window: reading its length throws
    | NotFetched                            // the guard declined
    | Requested(topic: string, prompt: string)

  /** The panel's own state: the index on screen, the play switch and the equation sets. */
  class GraphPlayer {
    var current: nat
    var playing: bool
    var sets: seq<seq<string>>

    /** The index names a set, or is 0 while there are none. */
    predicate Valid()
      reads this
    {
      current < |sets| || (sets == [] && current == 0)
    }

    constructor ()
      ensures Valid()
      ensures current == 0 && !playing && sets == []
    {
      current := 0;
      playing := false;
      sets := [];
    }

    /** `nextEquation`: the button moves one set on, wrapping round. */
    method NextEquation()
      requires Valid()
      modifies this
      ensures Valid()
      ensures current == NextIndex(old(current), |old(sets)|)
      ensures sets == old(sets) && playing == old(playing)
    {
      if |sets| == 0 {
        return;
      }
      current := (current + 1) % |sets|;
    }

    /** The interval tick: moves one set on only while playing and there are sets. */
    method Tick()
      requires Valid()
      modifies this
      ensures Valid()
      ensures current == (if old(playing) && old(sets) != [] then NextIndex(old(current), |old(sets)|) else old(current))
      ensures sets == old(sets) && playing == old(playing)
    {
      if |sets| == 0 || !playing {
        return;
      }
      current := (current + 1) % |sets|;
    }

    /** The play button flips the switch. */
    method TogglePlay()
      modifies this
      ensures playing == !old(playing)
      ensures current == old(current) && sets == old(sets)
    {
      playing := !playing;
    }

    /**
     * `getGraphingEquations`: when the guard allows, ask for equations for the
     * first three window entries; a returned list replaces the sets and
     * restarts at the first. `graphs` is the parsed reply, or `None` when the
     * request or its parsing failed (the error is only logged).
     */
    method Refresh(window: Option<seq<Turn>>, stage: string, topic: string, graphs: Option<seq<seq<string>>>)
      returns (fetch: Fetch)
      requires Valid()
      modifies this
      ensures Valid()
      ensures playing == old(playing)
      ensures window.None? ==> fetch == Threw
      ensures window.Some? && !ShouldFetch(window.value, stage) ==> fetch == NotFetched
      ensures window.Some? && ShouldFetch(window.value, stage) ==>
        fetch == Requested(topic, PromptWindow(window.value))
      ensures if fetch.Requested? && graphs.Some? then sets == graphs.value && current == 0
              else sets == old(sets) && current == old(current)
    {
      if window.None? {
        return Threw;
      }
      if !ShouldFetch(window.value, stage) {
        return NotFetched;
      }
      fetch := Requested(topic, PromptWindow(window.value));
      if graphs.Some? {
        sets := graphs.value;
        current := 0;
      }
    }
  }

  /** Ticking through a whole list while playing comes back to the set it started on. */
  method PlayRound(player: GraphPlayer)
    requires player.Valid() && player.playing && player.sets != []
    modifies player
    ensures player.Valid()
    ensures player.current == old(player.current) && player.sets == old(player.sets)
  {
    var k := 0;
    while k < |player.sets|
      invariant player.Valid() && player.playing && player.sets == old(player.sets)
      invariant k <= |player.sets|
      invariant player.current == Steps(old(player.current), |player.sets|, k)
    {
      player.Tick();
      k := k + 1;
    }
    FullCycle(old(player.current), |player.sets|);
  }
}
