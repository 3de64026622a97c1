/**
 * The session of the page as a state machine over values: the five state variables
 * of the component, and the events that change them. The class in module `App`
 * performs these transitions in place; this module states them and proves what
 * they guarantee.
 */
module Session {
  import opened Wrappers
  import opened Templates
  import Registry

  /** What the page shows when the generation request fails. */
  const ErrorMessage := "Error generating output. Please try again."

  /** How a generation request ended: the reply's `text`, or a thrown error. */
  datatype Outcome = Replied(text: string) | Failed

  /**
   * The component's state variables, together with what the browser still holds for
   * it: requests whose reply has not arrived, and copy timers that have not fired.
   */
  datatype State = State(
    activeEngine: Option<string>,
    fields: Fields,
    output: string,
    loading: bool,
    copied: bool,
    pendingReplies: nat,
    pendingTimers: nat)

  /** The state on first render. */
  const Initial := State(None, map[], "", false, false, 0, 0)

  /**
   * The handlers (`Select`, `FieldChange`, `Generate`, `Copy`), the arrival of a
   * generation reply (`Reply`) and the copy timer firing (`TimerFires`).
   */
  datatype Event =
    | Select(id: string)
    | FieldChange(key: string, value: string)
    | Generate
    | Reply(outcome: Outcome)
    | Copy(clipboardAvailable: bool)
    | TimerFires

  /** The active engine: the registered engine whose id is `activeEngine`, if any. */
  function Engine(s: State): Option<Template> {
    Registry.Find(Registry.Engines, s.activeEngine)
  }

  /** The prompt a generate click sends, and the one the preview shows: none without an engine. */
  function Request(s: State): Option<string> {
    match Engine(s)
    case None => None
    case Some(e) => Some(Compile(e.prompt, s.fields))
  }

  /** A reply or a timer callback arrives only when one is pending. */
  predicate CanOccur(s: State, e: Event) {
    match e
    case Reply(_) => s.pendingReplies > 0
    case TimerFires => s.pendingTimers > 0
    case _ => true
  }

  /** The state after one event. */
  function Step(s: State, e: Event): State
    requires CanOccur(s, e)
  {
    match e
    case Select(id) =>
      s.(activeEngine := Some(id), fields := map[], output := "", copied := false)
    case FieldChange(k, v) =>
      s.(fields := s.fields[k := v])
    case Generate =>
      if Engine(s).None? then s
      else s.(loading := true, output := "", copied := false, pendingReplies := s.pendingReplies + 1)
    case Reply(o) =>
      s.(output := (match o case Replied(t) => t case Failed => ErrorMessage),
         loading := false,
         pendingReplies := s.pendingReplies - 1)
    case Copy(available) =>
      // Without a clipboard API the write throws before any state is set.
      if !available then s
      else s.(copied := true, pendingTimers := s.pendingTimers + 1)
    case TimerFires =>
      s.(copied := false, pendingTimers := s.pendingTimers - 1)
  }

  // ---------------------------------------------------------------------------
  // What the rendered page lets the user do

  /** A drop-down holds "" (its "Select" entry) or one of its options; a text input holds anything. */
  predicate KindAccepts(kind: FieldKind, v: string) {
    match kind
    case FreeText => true
    case Choice(options) => v == "" || v in options
  }

  /** `v` is a value the form rendered for `fields` can put under `key`. */
  ghost predicate Accepts(fields: seq<FieldDef>, key: string, v: string) {
    exists i :: 0 <= i < |fields| && fields[i].key == key && KindAccepts(fields[i].kind, v)
  }

  /**
   * The events the page can produce in state `s`: the sidebar offers the registered ids;
   * the form offers the active engine's fields; the generate button is disabled while
   * loading; the copy button is shown only with an output; replies and timers arrive
   * while pending.
   */
  ghost predicate Offered(s: State, e: Event) {
    match e
    case Select(id) => id in Registry.Ids()
    case FieldChange(k, v) => Engine(s).Some? && Accepts(Engine(s).value.fields, k, v)
    case Generate => Engine(s).Some? && !s.loading
    case Copy(_) => Engine(s).Some? && s.output != ""
    case Reply(_) => s.pendingReplies > 0
    case TimerFires => s.pendingTimers > 0
  }

  /** Every event of `es` is offered in the state it happens in. */
  ghost predicate UiTrace(s: State, es: seq<Event>)
    decreases |es|
  {
    es == [] || (Offered(s, es[0]) && UiTrace(Step(s, es[0]), es[1..]))
  }

  /** The state after a sequence of events. */
  ghost function Run(s: State, es: seq<Event>): State
    requires UiTrace(s, es)
    decreases |es|
  {
    if es == [] then s else Run(Step(s, es[0]), es[1..])
  }

  /**
   * The invariant of every state the page can reach: the active id is registered; the
   * form values hold only keys of the active engine, each with a value its field can
   * take; at most one request is in flight and `loading` says whether one is; and while
   * the copy acknowledgement shows, a timer that clears it is pending.
   */
  ghost predicate Inv(s: State) {
    && (s.activeEngine.Some? ==> Engine(s).Some?)
    && (forall k :: k in s.fields ==> Engine(s).Some? && Accepts(Engine(s).value.fields, k, s.fields[k]))
    && s.pendingReplies <= 1
    && (s.loading <==> s.pendingReplies == 1)
    && (s.copied ==> s.pendingTimers > 0)
  }

  // ---------------------------------------------------------------------------
  // Properties of the transitions

  /**
   * Selecting an engine makes it active and clears the form values, the output and the
   * copy acknowledgement, leaving `loading` and any request in flight as they were; the
   * prompt preview then shows the template's literals and defaults only.
   */
  lemma SelectResets(s: State, id: string)
    ensures var t := Step(s, Select(id));
      && t.activeEngine == Some(id) && t.fields == map[] && t.output == "" && !t.copied
      && t.loading == s.loading && t.pendingReplies == s.pendingReplies && t.pendingTimers == s.pendingTimers
    ensures id in Registry.Ids() ==>
      var t := Step(s, Select(id));
      && Engine(t).Some? && Engine(t).value.id == id
      && Request(t) == Some(Skeleton(Engine(t).value.prompt))
  {
    var t := Step(s, Select(id));
    Registry.FindRegistered(t.activeEngine);
    if id in Registry.Ids() {
      CompileEmptyIsSkeleton(Engine(t).value.prompt);
    }
  }

  /**
   * A field change stores `value` under `key` and changes no other entry and nothing
   * else. It does not check `key` against the active engine: a key the engine does not
   * declare is stored but leaves the prompt unchanged.
   */
  lemma FieldChangeSetsOneKey(s: State, key: string, value: string)
    ensures var t := Step(s, FieldChange(key, value));
      && key in t.fields && t.fields[key] == value
      && (forall k :: k != key ==> (k in t.fields <==> k in s.fields))
      && (forall k :: k != key && k in s.fields ==> t.fields[k] == s.fields[k])
      && t == s.(fields := t.fields)
    ensures Engine(s).Some? && key !in FieldKeys(Engine(s).value.fields) ==>
      Request(Step(s, FieldChange(key, value))) == Request(s)
  {
    if Engine(s).Some? && key !in FieldKeys(Engine(s).value.fields) {
      Registry.RegistryWellFormed();
      Registry.CompileIgnoresUndeclared(Engine(s).value, s.fields, key, value);
    }
  }

  /**
   * Generate with no active engine does nothing. Otherwise it marks the page loading,
   * clears the output and the acknowledgement, sends the prompt compiled from the current
   * values, and leaves the generate button disabled.
   */
  lemma GenerateStarts(s: State)
    ensures Engine(s).None? ==> Step(s, Generate) == s && Request(s).None?
    ensures Engine(s).Some? ==>
      var t := Step(s, Generate);
      && t.loading && t.output == "" && !t.copied
      && t.activeEngine == s.activeEngine && t.fields == s.fields
      && t.pendingReplies == s.pendingReplies + 1
      && Request(s) == Some(Compile(Engine(s).value.prompt, s.fields))
      && !Offered(t, Generate)
  {
  }

  /**
   * A generate click followed by its reply shows exactly the reply's text, or exactly the
   * error message on failure, clears `loading`, and offers generate again.
   */
  lemma GenerateCycle(s: State, o: Outcome)
    requires Inv(s) && Offered(s, Generate)
    ensures var t := Run(s, [Generate, Reply(o)]);
      && UiTrace(s, [Generate, Reply(o)])
      && t.output == (if o.Replied? then o.text else ErrorMessage)
      && !t.loading && t.pendingReplies == 0
      && t.activeEngine == s.activeEngine && t.fields == s.fields
      && Offered(t, Generate)
  {
    var s1 := Step(s, Generate);
    var s2 := Step(s1, Reply(o));
    assert [Generate, Reply(o)][1..] == [Reply(o)];
    assert [Reply(o)][1..] == [];
    assert UiTrace(s2, []);
    assert UiTrace(s1, [Reply(o)]);
    assert Run(s1, [Reply(o)]) == Run(s2, []);
  }

  /**
   * Selecting another engine does not stop a request in flight: its reply is still
   * written into `output`, now shown under the newly selected engine.
   */
  lemma StaleReplyAfterSwitch(s: State, id: string, text: string)
    requires Inv(s) && Offered(s, Generate) && id in Registry.Ids()
    ensures var es := [Generate, Select(id), Reply(Replied(text))];
      && UiTrace(s, es)
      && Run(s, es).activeEngine == Some(id)
      && Run(s, es).fields == map[]
      && Run(s, es).output == text
      && !Run(s, es).loading
    ensures Step(Step(s, Generate), Select(id)).loading
  {
    var s1 := Step(s, Generate);
    var s2 := Step(s1, Select(id));
    var s3 := Step(s2, Reply(Replied(text)));
    var es := [Generate, Select(id), Reply(Replied(text))];
    assert es[1..] == [Select(id), Reply(Replied(text))];
    assert es[1..][1..] == [Reply(Replied(text))];
    assert es[1..][1..][1..] == [];
    assert UiTrace(s3, []);
    assert UiTrace(s2, es[1..][1..]);
    assert UiTrace(s1, es[1..]);
    assert Run(s2, es[1..][1..]) == s3;
    assert Run(s1, es[1..]) == s3;
  }

  /**
   * Copy sets the acknowledgement and leaves a timer pending; the timer clears it. Without
   * a clipboard API the copy changes nothing. Timers
   * are not cancelled: after two copies the first timer already clears the
   * acknowledgement while the second is still pending.
   */
  lemma CopyTimers(s: State)
    ensures Step(s, Copy(true)).copied && Step(s, Copy(true)).pendingTimers == s.pendingTimers + 1
    ensures Step(s, Copy(false)) == s
    ensures s.pendingTimers > 0 ==> !Step(s, TimerFires).copied
    ensures var t := Step(Step(Step(s, Copy(true)), Copy(true)), TimerFires);
      !t.copied && t.pendingTimers == s.pendingTimers + 1
  {
  }

  // ---------------------------------------------------------------------------
  // The invariant

  lemma InitialInv()
    ensures Inv(Initial)
  {
  }

  /** Every event the page offers preserves the invariant. */
  lemma StepInv(s: State, e: Event)
    requires Inv(s) && Offered(s, e)
    ensures Inv(Step(s, e))
  {
    var t := Step(s, e);
    match e
    case Select(id) =>
      Registry.FindRegistered(t.activeEngine);
    case FieldChange(k, v) =>
      forall k' | k' in t.fields
        ensures Engine(t).Some? && Accepts(Engine(t).value.fields, k', t.fields[k'])
      {
        if k' != k {
          assert k' in s.fields;
        }
      }
    case _ =>
  }

  /** Every state reached through offered events from an invariant state keeps the invariant. */
  lemma {:induction false} RunInv(s: State, es: seq<Event>)
    requires Inv(s) && UiTrace(s, es)
    ensures Inv(Run(s, es))
    decreases |es|
  {
    if es != [] {
      StepInv(s, es[0]);
      RunInv(Step(s, es[0]), es[1..]);
    }
  }

  /**
   * Whatever the user does on the page: at most one generation request is in flight,
   * the form values hold only keys of the active engine, and a drop-down value is "" or
   * one of its options.
   */
  lemma Reachable(es: seq<Event>)
    requires UiTrace(Initial, es)
    ensures var t := Run(Initial, es);
      && t.pendingReplies <= 1
      && (t.fields != map[] ==> Engine(t).Some? && t.fields.Keys <= FieldKeys(Engine(t).value.fields))
      && forall k :: k in t.fields ==> Accepts(Engine(t).value.fields, k, t.fields[k])
  {
    InitialInv();
    RunInv(Initial, es);
  }
}
