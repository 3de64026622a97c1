/**
 * The `ScrypEngines` component: its five state variables as fields, and its handlers
 * as methods that update them in place. Each method performs one transition of
 * module `Session`. The generation handler is split at its `await`: `HandleGenerate`
 * runs up to the request, `CompleteGenerate` runs when the reply or the error arrives.
 */
module App {
  import opened Wrappers
  import opened Templates
  import Registry
  import opened Session

  class ScrypEngines {
    var activeEngine: Option<string>
    var fields: Fields
    var output: string
    var loading: bool
    var copied: bool
    // What the browser holds for the component: requests in flight, copy timers not yet fired.
    ghost var pendingReplies: nat
    ghost var pendingTimers: nat

    /** The state as a value of module `Session`. */
    ghost function Snapshot(): State
      reads this
    {
      State(activeEngine, fields, output, loading, copied, pendingReplies, pendingTimers)
    }

    constructor ()
      ensures Snapshot() == Initial
    {
      activeEngine := None;
      fields := map[];
      output := "";
      loading := false;
      copied := false;
      pendingReplies := 0;
      pendingTimers := 0;
    }

    method HandleSelect(id: string)
      modifies this
      ensures Snapshot() == Step(old(Snapshot()), Select(id))
    {
      activeEngine := Some(id);
      fields := map[];
      output := "";
      copied := false;
    }

    method HandleFieldChange(key: string, value: string)
      modifies this
      ensures Snapshot() == Step(old(Snapshot()), FieldChange(key, value))
    {
      fields := fields[key := value];
    }

    /** Runs up to the request; returns the prompt sent, or nothing when no engine is active. */
    method HandleGenerate() returns (prompt: Option<string>)
      modifies this
      ensures prompt == Request(old(Snapshot()))
      ensures Snapshot() == Step(old(Snapshot()), Generate)
    {
      var engine := Registry.Find(Registry.Engines, activeEngine);
      if engine.None? {
        return None;
      }
      loading := true;
      output := "";
      copied := false;
      prompt := Some(Compile(engine.value.prompt, fields));
      pendingReplies := pendingReplies + 1;
    }

    /** Runs when a request's reply or error arrives. */
    method CompleteGenerate(outcome: Outcome)
      requires pendingReplies > 0
      modifies this
      ensures Snapshot() == Step(old(Snapshot()), Reply(outcome))
    {
      match outcome {
        case Replied(text) => output := text;
        case Failed => output := ErrorMessage;
      }
      loading := false;
      pendingReplies := pendingReplies - 1;
    }

    /**
     * Returns the text written to the clipboard and schedules the timer. Without a
     * clipboard API the write throws first: nothing is written and nothing changes.
     */
    method HandleCopy(clipboardAvailable: bool) returns (clipboard: Option<string>)
      modifies this
      ensures clipboard == (if clipboardAvailable then Some(old(output)) else None)
      ensures Snapshot() == Step(old(Snapshot()), Copy(clipboardAvailable))
    {
      if !clipboardAvailable {
        return None;
      }
      clipboard := Some(output);
      copied := true;
      pendingTimers := pendingTimers + 1;
    }

    /** The callback scheduled by a copy. */
    method CopyTimerFires()
      requires pendingTimers > 0
      modifies this
      ensures Snapshot() == Step(old(Snapshot()), TimerFires)
    {
      copied := false;
      pendingTimers := pendingTimers - 1;
    }
  }
}
