# Scryp Engines: prompt templates and page session, modelled in Dafny

Scryp Engines is a single React page. The user picks one of six prompt engines
(lead follow-up, industry campaign, scheduled follow-up, cold outreach,
re-engagement, ops briefing), fills in a small form, and sends the compiled prompt
to a text-generation endpoint. The reply is shown and can be copied. This project
models the two parts of `src/App.jsx` that carry logic.

- **The engine registry and prompt compiler** (`templates.dfy`, `registry.dfy`).
  Each engine's `prompt(f)` is a template literal whose interpolations all read
  `f.key || "default"`. A template is a sequence of segments, `Lit(text)` or
  `Slot(key, default)`. `Compile` concatenates them, and a slot falls back to its
  default when the key is missing or holds `""`. The six engines are transcribed
  segment by segment: same keys, same defaults, same literal text (non-ASCII
  characters are written as `\U{…}` escapes). `Find` is `ENGINES.find` by id.
- **The page session** (`session.dfy`, `app.dfy`). Class `App.ScrypEngines` holds
  the component's state variables `activeEngine`, `fields`, `output`, `loading` and
  `copied`. Its handlers are methods that update them in place. `handleGenerate` is
  split at its `await`: `HandleGenerate` runs up to the request and returns the
  prompt sent; `CompleteGenerate` takes the outcome (reply text or failure). The
  copy timer is a separate `CopyTimerFires` event. Each method's postcondition
  says that the new state is `Session.Step` applied to the old state. `Step`, and
  what the rendered page offers in each state (`Session.Offered`), are stated over
  values. The lemmas about them say what the handlers guarantee, alone and over
  any sequence of user actions.

Compiling is a pure function, so two compilations of the same template and
values give the same text. No slot survives compilation: every slot is replaced
by a value or its default.

Behaviours of the code that the model keeps on purpose:
- Selecting an engine does not touch `loading`. A request still in flight keeps
  running, and its reply is written into `output` under the newly selected engine
  (`Session.StaleReplyAfterSwitch`).
- `handleFieldChange` stores any key, declared or not. An undeclared key cannot
  change the prompt (`Session.FieldChangeSetsOneKey`).
- Copy timers are not cancelled. The first timer clears the acknowledgement even
  when a second copy happened since (`Session.CopyTimers`).
- Drop-down slots default to concrete strings, and not always to one of the
  options: `companySize` defaults to "Mid-Market", which is not an option
  (`Registry.DefaultNotAnOption`). `industry` is read by two slots with different
  defaults (`Registry.IndustryFillsBothSlots`).

A reader might expect selection to end a generation in flight (clear `loading`
and discard its reply), a repeated copy
to restart the timer, stale replies to be discarded, undeclared keys to be
rejected, and every missing value to become a bracketed label. The code does none
of these things, and the model follows the code.

## Model

| member | source | states |
|---|---|---|
| `Templates.CompileSlot` | src/App.jsx:17-21 | a slot yields the field's value verbatim when it is a non-empty string, and the slot's own default when the key is missing or holds "" |
| `Templates.EmptyValueIsMissing` | src/App.jsx:457-465 | "" (the value of the "— Select —" entry) compiles exactly like a missing key |
| `Templates.DefaultShown` | src/App.jsx:17-21 | a slot whose key is missing or empty puts its default into the compiled text |
| `Templates.CompileAppend` | src/App.jsx:17-30 | compiling a concatenation of segment lists concatenates their texts |
| `Templates.CompileReadsOnlySlotKeys` | src/App.jsx:17-30 | two value maps that agree on the keys the slots read compile to the same text |
| `Templates.CompileIgnoresOtherKeys` | src/App.jsx:17-30 | setting a key no slot reads leaves the compiled text unchanged |
| `Templates.CompileBind` | src/App.jsx:46-57 | a non-empty value fills every slot of its key, whatever default each slot has |
| `Templates.CompileEmptyIsSkeleton` | src/App.jsx:17-169 | with no values, the compiled text is the template's literals and slot defaults only |
| `Registry.Find` | src/App.jsx:181 | the result is a registered engine with the requested id; nothing is returned exactly when no engine has that id, null included |
| `Registry.IdsDistinct` | src/App.jsx:5-144 | the six engine ids are pairwise distinct |
| `Registry.FindRegistered` | src/App.jsx:181 | looking up a registered id gives exactly that engine; null or an unknown id gives nothing |
| `Registry.FollowupLeadWellFormed` | src/App.jsx:10-30 | lead follow-up: unique field keys, non-empty option lists, every slot reads a declared key and has a non-empty default |
| `Registry.IndustryCampaignWellFormed` | src/App.jsx:38-57 | the same for the industry campaign |
| `Registry.ScheduledFollowupWellFormed` | src/App.jsx:65-86 | the same for the scheduled follow-up |
| `Registry.ColdOutreachWellFormed` | src/App.jsx:94-114 | the same for cold outreach |
| `Registry.ReEngagementWellFormed` | src/App.jsx:122-141 | the same for re-engagement |
| `Registry.InternalOpsWellFormed` | src/App.jsx:149-169 | the same for the ops briefing |
| `Registry.RegistryWellFormed` | src/App.jsx:3-171 | every registered engine is well formed |
| `Registry.CompileNeverEmpty` | src/App.jsx:17-169 | every registered prompt is non-empty for any values, none at all included |
| `Registry.CompileIgnoresUndeclared` | src/App.jsx:10-169 | a value under a key the engine's form does not declare leaves its prompt unchanged |
| `Registry.CompileDependsOnlyOnDeclared` | src/App.jsx:10-169 | value maps that agree on an engine's declared keys give the same prompt |
| `Registry.IndustryDefaults` | src/App.jsx:46-57 | the slots that read `industry` have the defaults "[industry]" and then "this industry", in template order |
| `Registry.IndustryFillsBothSlots` | src/App.jsx:46-57 | `industry` is read by exactly two slots; a non-empty value fills both, while "" or a missing key gives "[industry]" in one and "this industry" in the other |
| `Registry.DefaultNotAnOption` | src/App.jsx:41-46 | some drop-down slot's default is not among that field's options ("Mid-Market" for company size) |
| `Registry.ColdOutreachPlaceholders` | src/App.jsx:101 | with prospect or company left empty, the cold-outreach prompt contains "[Prospect]" or "[Company]" |
| `Registry.InternalOpsDealStatus` | src/App.jsx:156 | with brief type "Deal Status Update" and no audience, the first line is "…Write a Deal Status Update for Sales Leadership." and does not contain "Weekly Pipeline Summary" |
| `Session.SelectResets` | src/App.jsx:183-188 | selecting sets the active id and clears values, output and acknowledgement; `loading` and any request in flight are kept; for a registered id the preview is the template's literals and defaults |
| `Session.FieldChangeSetsOneKey` | src/App.jsx:190-192 | the key gets the value, no other entry and nothing else changes, and an undeclared key does not change the prompt |
| `Session.GenerateStarts` | src/App.jsx:194-200 | with no engine nothing changes and nothing is sent; otherwise loading is set, output and acknowledgement cleared, the prompt compiled from the current values is sent, and generate is no longer offered |
| `Session.GenerateCycle` | src/App.jsx:194-214 | generate then reply shows exactly the reply text, or exactly the error message on failure, clears `loading` and offers generate again |
| `Session.StaleReplyAfterSwitch` | src/App.jsx:183-214 | a reply arriving after a switch of engine is still shown, under the new engine, and the new engine's generate button stays disabled until it arrives |
| `Session.CopyTimers` | src/App.jsx:216-220 | with a clipboard API, copy sets the acknowledgement and schedules a timer; without one the write throws first and nothing changes; a timer clears the acknowledgement; after two copies the first timer already clears it |
| `Session.InitialInv` | src/App.jsx:174-178 | the initial state satisfies the session invariant |
| `Session.StepInv` | src/App.jsx:183-220 | every event the page offers preserves the invariant: registered active id, only declared keys with acceptable values, at most one request in flight exactly when loading, a pending timer while acknowledged |
| `Session.RunInv` | src/App.jsx:183-220 | any sequence of offered events preserves the invariant |
| `Session.Reachable` | src/App.jsx:445-512 | in every state the page can reach, at most one request is in flight and the values hold only the active engine's keys, drop-downs only "" or an option |
| `App.ScrypEngines.constructor` | src/App.jsx:174-178 | starts with no engine, no values, empty output, not loading, not acknowledged |
| `App.ScrypEngines.HandleSelect` | src/App.jsx:183-188 | performs the select transition in place |
| `App.ScrypEngines.HandleFieldChange` | src/App.jsx:190-192 | performs the single-key update in place |
| `App.ScrypEngines.HandleGenerate` | src/App.jsx:194-207 | returns the prompt sent (none without an engine) and performs the start of generation |
| `App.ScrypEngines.CompleteGenerate` | src/App.jsx:208-213 | writes the reply text or the error message and clears `loading` |
| `App.ScrypEngines.HandleCopy` | src/App.jsx:216-219 | with a clipboard API, returns the text written to the clipboard (the current output), sets the acknowledgement and schedules the timer; without one, writes nothing and changes nothing |
| `App.ScrypEngines.CopyTimerFires` | src/App.jsx:219 | the scheduled callback clears the acknowledgement |

## Left out

- The request itself (`fetch` to `/api/generate`, the JSON body, `response.json()`) is network I/O. Its result enters as the `Outcome` passed to `CompleteGenerate`. A network error or an unparsable body is `Failed`.
- A reply whose JSON has no `text` property sets `output` to `undefined`. The page treats that exactly like `""`, so a caller passes `Replied("")`. A non-string `text` is not modelled.
- `navigator.clipboard.writeText` is a platform call whose promise the page ignores. The model does not capture a rejected promise. It reduces the call to one flag: whether `navigator.clipboard` exists. When the flag is false, the synchronous throw is modelled as "nothing changes". `HandleCopy` returns the text it writes.
- The 2000 ms delay of the copy timer is not modelled. The timer is the explicit `CopyTimerFires` event, which may come at any time after the copy.
- Concurrency beyond two steps is not modelled. Generation is two events, start and reply, and any other events may come in between. React's batching and stale closures are not modelled either. Each handler is applied to the current state, which is what happens when a render separates two clicks.
- JSX rendering, styles, fonts, `useRef`, and the engines' `label`, `icon`, `color`, `description` and field labels and placeholders are display only. What the rendered page allows is kept in `Session.Offered`: the sidebar's ids, the active form's fields and options, the disabled generate button and the conditional copy button.
