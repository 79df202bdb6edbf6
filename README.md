# NeoBot script registry, modelled in Dafny

NeoBot is a chat bot. A user posts a message whose text is a fenced block
opened by "```neo" and closed by "```". The bot compiles and runs the block
with an embedded script interpreter, so the block's top-level code executes
then. It keeps the resulting interpreter state as a *script*, stored under the
channel and the id of that message. While a script is enabled, its
`on_message` hook hears every later message in its channel that a human
posts in a guild; bot messages and direct messages reach no script. Its
`on_message_update` hook hears every edit in its channel, bot edits
included, but only when the edited message can be re-fetched. A disabled
script hears nothing. The bot shows what happened with reactions:
- a green circle for "compiled and ran" or "enabled";
- a red circle for "failed to compile or run its top level" or "disabled";
- a halo for "hook ran";
- a skull for "hook failed".

The author of a script turns it off by clicking its green circle and on again
by clicking its red circle. Editing the defining message compiles and runs the
new block again; editing it into something else removes the script.

This project models that core and proves what it promises:
- the block extractor `parse_neo_block`;
- the registry of scripts;
- the three event handlers `message`, `message_update` and `reaction_add`;
- the script object with `new`, `notify` and `set_status`;
- the glyph helpers.

Modules (one per file):

| file | module | models |
|---|---|---|
| `utils.dfy` | `Utils` | glyph constants, the `react_*` values, `some_or_return!` (src/utils.rs) |
| `extractor.dfy` | `Extractor` | `str::trim` and `parse_neo_block` (src/main.rs) |
| `discord.dfy` | `Discord` | identifiers, messages, the inbound events, and the transport as an append-only feedback log |
| `callsynth.dfy` | `CallSynthesis` | the placeholder scope and call text `notify` builds (src/script.rs) |
| `script.dfy` | `Scripting` | the `Script` class with `New`, `Notify`, `SetStatus`, and the functions specifying them |
| `handler.dfy` | `Handler` | the registry class, the handlers as methods, and the pure step functions they are proved to realise |
| `properties.dfy` | `HandlerProperties` | the handlers' promises, proved about the step functions |

Each handler exists twice:
- as a pure step function over the registry's value (`MessageStep`, `MessageUpdateStep`, `ReactionAddStep`);
- as a method of the `Registry` class that mutates the nested map of `Script` objects in place.

Each method's postcondition says that the registry's new value and the feedback it sent are exactly those of its step function. That holds even though the script objects are updated through shared references. The properties are lemmas about the step functions, so they hold of the registry object as well. The methods also state how the set of script objects the registry may hold changes: a reaction keeps it, and a message or an edit adds only fresh objects. So a caller can send one registry any sequence of events.

The hash map iterates in an unspecified order. The step functions take that order as a parameter. The methods return the order they used as a ghost result, and prove that it lists every key exactly once. The properties then show that no message can observe the order in the bot's own feedback.

The interpreter is foreign code, so two oracles are passed in as function values:
- `Compiler` stands for compiling and running a block's top level: it maps a source and its message to `Compiled(engine)`, or to `CompileError(message)` for any error that compilation or the top-level code raises, function-not-found included;
- `Evaluator` maps an engine, a scope and call text to `Ok`, `FunctionNotFound` or `Err(message)`.

Two other results are inputs rather than calls: re-fetching the edited message, and looking up the reacting user.

## Model

| member | source | states |
|---|---|---|
| `Utils.ReactionGlyphs` | src/utils.rs:5-29 | each `react_*` value is the single-glyph Unicode reaction with the code point the source names (U+1F7E2, U+1F534, U+1F480, U+1F607, U+1F504) |
| `Utils.ReactionsDistinct` | src/utils.rs:5-9 | the five reactions are pairwise distinct, so success, failure, executed and fault feedback can be told apart |
| `Extractor.IsWhitespace` | src/main.rs:153 | the characters `str::trim` strips: those with the Unicode White_Space property |
| `Extractor.StartsWith` | src/main.rs:154 | `str::starts_with`: the text is at least as long as the fence and begins with it |
| `Extractor.EndsWith` | src/main.rs:154 | `str::ends_with`: the text is at least as long as the fence and ends with it |
| `Extractor.TrimStart` | src/main.rs:153 | the result is a suffix of the input; everything dropped is whitespace; the result does not start with whitespace |
| `Extractor.TrimEnd` | src/main.rs:153 | the result is a prefix of the input; everything dropped is whitespace; the result does not end with whitespace |
| `Extractor.Trim` | src/main.rs:153 | a non-empty trim has no whitespace at either end; the trim is empty exactly when the input is all whitespace |
| `Extractor.ParseNeoBlock` | src/main.rs:149-161 | accepted exactly when the trimmed text starts with "```neo" and ends with "```"; then the trimmed text is prefix + result + suffix, and the result is 9 characters shorter |
| `Extractor.FencesDoNotOverlap` | src/main.rs:154-157 | a text carrying both fences has at least 9 characters, so the slice between them is well formed |
| `Extractor.TrimUnchanged` | src/main.rs:153 | a text with no whitespace at either end is its own trim |
| `Extractor.TrimIdempotent` | src/main.rs:153 | trimming twice is trimming once |
| `Extractor.ParseRoundTrip` | src/main.rs:149-161 | a fenced block with nothing around it yields exactly its interior, for every interior |
| `Extractor.ParseIgnoresSurroundingWhitespace` | src/main.rs:153-157 | whitespace around a fenced block does not change the extracted interior |
| `Extractor.TrimAround` | src/main.rs:153 | trimming strips exactly the whitespace padding around a core that has no whitespace at its ends |
| `Extractor.TrimStartSkips` | src/main.rs:153 | leading-trim drops a whitespace run and stops at the first other character |
| `Extractor.TrimEndSkips` | src/main.rs:153 | trailing-trim drops a whitespace run and stops at the last other character |
| `Extractor.RejectsUnfenced` | src/main.rs:154-160 | text whose first non-whitespace character is not a backtick is not a script block |
| `Extractor.RejectsUnclosed` | src/main.rs:154-160 | text whose last non-whitespace character is not a backtick (an unclosed block) is not a script block |
| `Discord.Context.React` | src/script.rs:23 | a reaction call appends exactly that reaction, on that message, to the feedback log |
| `Discord.Context.Reply` | src/script.rs:31 | a reply call appends exactly that reply, on that message, to the feedback log |
| `Discord.Context.DeleteReactions` | src/script.rs:75 | a delete-reactions call appends exactly that action, on that message, to the feedback log |
| `CallSynthesis.DecimalString` | src/script.rs:46 | the decimal rendering of a counter is a non-empty run of digits |
| `CallSynthesis.DecimalRoundTrip` | src/script.rs:46 | reading the rendering back gives the counter: the rendering is injective |
| `CallSynthesis.ArgName` | src/script.rs:46 | the placeholder of position i is "__argument" followed by the decimal rendering of i |
| `CallSynthesis.ArgNameInjective` | src/script.rs:44-49 | distinct argument positions get distinct placeholder names, so no argument shadows another in the scope |
| `CallSynthesis.ArgNameHasNoComma` | src/script.rs:46 | a placeholder name holds no comma |
| `CallSynthesis.PlaceholdersWellFormed` | src/script.rs:44-55 | the first n placeholder names are pairwise distinct and free of the comma they are joined with |
| `CallSynthesis.ArgNames` | src/script.rs:51-55 | the names of an n-argument call: n of them, the i-th for position i, no two alike, none holding a comma |
| `CallSynthesis.Join` | src/script.rs:55 | `join(",")`: the parts with one separator between neighbours; `Split` is its inverse per `SplitJoin` |
| `CallSynthesis.Split` | src/script.rs:55 | splitting on a separator yields at least one part (inverse partner of the join) |
| `CallSynthesis.SplitPlain` | src/script.rs:55 | a text without the separator splits into itself alone |
| `CallSynthesis.SplitAtSeparator` | src/script.rs:55 | splitting stops at the first separator |
| `CallSynthesis.SplitJoin` | src/script.rs:51-55 | splitting the join of separator-free parts gives back the parts |
| `CallSynthesis.ScopeOf` | src/script.rs:43-49 | the scope binds position i to the i-th argument under the i-th placeholder name, in argument order, and no two bindings share a name, so none shadows another |
| `CallSynthesis.CallText` | src/script.rs:56 | the call text: hook name, "(", the joined placeholder names, ");" |
| `CallSynthesis.CallArgumentsRecoverable` | src/script.rs:51-56 | the argument list of the synthesized call splits back into the placeholder names, in order |
| `CallSynthesis.SynthesizeCall` | src/script.rs:43-56 | the counter loop builds exactly that scope, and the call is hook + "(" + comma-joined placeholders + ");" |
| `Scripting.Script.constructor` | src/script.rs:24-28 | a new script holds its message and engine and starts enabled |
| `Scripting.Script.New` | src/script.rs:17-36 | a fresh enabled script for the given message exactly when compilation succeeds, otherwise none; the log gains one success reaction, or the reply "Fehler: " + diagnostic and then a failure reaction |
| `Scripting.Script.Notify` | src/script.rs:38-68 | the script is unchanged; the log gains nothing when it is disabled, otherwise the feedback for the outcome of the synthesized call on its origin message |
| `Scripting.Script.SetStatus` | src/script.rs:70-82 | only the flag changes, to the desired value; the log gains the status feedback of the old state |
| `Scripting.CreateContract` | src/script.rs:21-34 | a script is created exactly when compilation succeeds, enabled and anchored to the message; success sends one success reaction, failure sends the diagnostic reply and then a failure reaction |
| `Scripting.CreateFeedbackIdentifiesOutcome` | src/script.rs:21-34 | equal compile feedback means equal success, and for failures equal diagnostics |
| `Scripting.OutcomeFeedbackIdentifiesOutcome` | src/script.rs:58-67 | the feedback of a hook call determines whether it succeeded, raised function-not-found, or raised another error |
| `Scripting.ExecutionFeedbackUnlikeCompileFeedback` | src/script.rs:58-67 | no hook-call feedback ever equals any compile feedback |
| `Scripting.DisabledNotifySilent` | src/script.rs:39-41 | a disabled script sends nothing, whatever the evaluator would answer |
| `Scripting.StatusContract` | src/script.rs:70-82 | the flag ends at the desired value with message and engine kept; it is a no-op with no feedback exactly when the flag already had that value; otherwise the delete-reactions comes first and the glyph of the new state last; a second identical call does nothing |
| `Handler.PartitionOf` | src/main.rs:36-38 | the partition a handler works on: the channel's own, or an empty one if the channel has none yet |
| `Handler.CountsAsBot` | src/main.rs:95-102 | a reactor counts as a bot when it is one, and also when the lookup failed |
| `Handler.Create` | src/main.rs:50-54 | compiling a block for a message: the key gains a script exactly when it compiled, and every other key keeps its script |
| `Handler.Replace` | src/main.rs:82-91 | the edit path: a key holding no script leaves the partition as it is and sends nothing; no key is ever added, and every other key keeps its script |
| `Handler.MessageStep` | src/main.rs:29-55 | `message` on the registry's value: early return for a direct or bot message, else dispatch "on_message" to the channel's scripts, then compile a block into a new script under the message id |
| `Handler.MessageUpdateStep` | src/main.rs:58-92 | `message_update` on the registry's value: dispatch "on_message_update" when the refetch succeeded, then the edit path when the event carries new text |
| `Handler.Toggle` | src/main.rs:109-117 | the toggle on a partition: no key is added or removed, only the key reacted to can change, and message and engine are kept everywhere |
| `Handler.ReactionAddStep` | src/main.rs:94-118 | `reaction_add` on the registry's value: early return for a bot or unknown reactor, else the toggle on the channel's partition |
| `Handler.MessageCreates` | src/main.rs:35-54 | entering the partition, dispatching, then compiling-and-inserting a block message composes to `MessageStep` |
| `Handler.MessageIgnores` | src/main.rs:35-50 | entering the partition and dispatching, for a message that is not a block, composes to `MessageStep` |
| `Handler.MessageUpdateRealised` | src/main.rs:65-91 | entering, the optional refetch dispatch and the optional edit path compose to `MessageUpdateStep` |
| `Handler.ReplaceRealised` | src/main.rs:82-91 | removing, clearing reactions only when a script was there, and recompiling for the old source message compose to `Replace` |
| `Handler.ReactionAddRealised` | src/main.rs:104-117 | entering the partition and toggling compose to `ReactionAddStep` for a human reactor |
| `Handler.Registry.ValidAnchored` | src/main.rs:130 | in a consistent registry every script is stored under the channel and id of its own origin message |
| `Handler.Registry.constructor` | src/main.rs:139 | the registry starts consistent and empty |
| `Handler.Registry.Entry` | src/main.rs:35-38 | the channel's partition is returned, created empty if absent; no script changes |
| `Handler.Registry.Insert` | src/main.rs:52 | the partition gains the script's state under the key; the rest of the registry's value is unchanged and it stays consistent |
| `Handler.Registry.Remove` | src/main.rs:83 | returns the script stored under the key, if any, with its state and origin; the key is gone and nothing else changed |
| `Handler.Registry.DispatchChannel` | src/main.rs:40-48 | every script of the channel is notified exactly once, in an order that lists each key once; the registry is unchanged |
| `Handler.Registry.Retire` | src/main.rs:83-84 | removes the script under the key and clears reactions on its message exactly when there was one |
| `Handler.Registry.CreateScript` | src/main.rs:50-54 | the partition and log change exactly as `Create` says: the new script is present exactly when it compiled |
| `Handler.Registry.ReplaceScript` | src/main.rs:82-91 | the partition and log change exactly as `Replace` says |
| `Handler.Registry.SetScriptStatus` | src/main.rs:109-115 | only the addressed script's flag changes, through a shared reference, and no other script state in any channel |
| `Handler.Registry.ToggleScript` | src/main.rs:109-117 | the partition and log change exactly as `Toggle` says |
| `Handler.Registry.HandleMessage` | src/main.rs:29-55 | the registry's new value and feedback are those of `MessageStep`, for a dispatch order that enumerates the partition |
| `Handler.Registry.HandleMessageUpdate` | src/main.rs:58-92 | the registry's new value and feedback are those of `MessageUpdateStep`, for a dispatch order that enumerates the partition |
| `Handler.Registry.HandleReactionAdd` | src/main.rs:94-118 | the registry's new value and feedback are those of `ReactionAddStep` |
| `Handler.HeldOnlyInOwnChannel` | src/main.rs:130 | a script anchored in another channel is not stored in this partition (no aliasing across channels) |
| `Handler.HeldOnlyUnderOwnKey` | src/main.rs:130 | no script object is stored under two keys (no aliasing within a channel) |
| `Handler.HoldsAfterUpdate` | src/main.rs:109 | changing one stored script through `get_mut` keeps every other entry's state |
| `Handler.Dispatch` | src/main.rs:40-48 | the loop visits every key exactly once, and the log gains the dispatch feedback for the visiting order; an error the interpreter returns from one script does not stop it |
| `Handler.DispatchExtend` | src/main.rs:40-48 | notifying one more script extends the dispatch feedback by that script's feedback |
| `Handler.DispatchAppend` | src/main.rs:40-48 | dispatching over two runs of keys is dispatching over each in turn |
| `HandlerProperties.Targeting` | src/main.rs:40-54 | the bot's feedback concerning one message: every item aimed at that message is kept and no other item, so it is never longer than the whole |
| `HandlerProperties.NotifyTargetsOrigin` | src/script.rs:58-67 | what a notification sends concerns only the script's own origin message |
| `HandlerProperties.CreateTargetsOrigin` | src/script.rs:21-34 | what a compile attempt sends concerns only the defining message |
| `HandlerProperties.DispatchTargeting` | src/main.rs:40-48 | during a dispatch pass over distinct keys, of the bot's own feedback a message receives exactly what the script anchored on it sends, if that key was visited, and nothing else |
| `HandlerProperties.DispatchPerScript` | src/main.rs:40-48 | with any enumeration of the partition, each script's origin message receives, of the bot's own feedback, exactly that script's notification feedback, when every hook ends in an outcome the interpreter returns |
| `HandlerProperties.DispatchOrderIrrelevant` | src/main.rs:71-79 | for an evaluator that answers each call the same way, two enumerations of the partition give every message the same bot feedback: the hash-map order is unobservable per message |
| `HandlerProperties.DispatchFeedbackShape` | src/main.rs:40-48 | a dispatch pass sends only halo or skull reactions, and only on origins of enabled scripts |
| `HandlerProperties.DispatchSilentWhenNoneEnabled` | src/main.rs:40-48 | a channel whose scripts are all disabled stays silent on dispatch |
| `HandlerProperties.AnchoredUpdate` | src/main.rs:130 | replacing one channel's partition by one anchored in that channel keeps every script of the registry under its own origin |
| `HandlerProperties.CreateKeepsAnchored` | src/main.rs:50-53 | compiling a script for a message and storing it under that message's id keeps the partition anchored |
| `HandlerProperties.MessageKeepsAnchored` | src/main.rs:50-54 | `message` keeps every script stored under its own origin |
| `HandlerProperties.MessageUpdateKeepsAnchored` | src/main.rs:82-91 | `message_update` keeps every script stored under its own origin: the recompiled script keeps the old source message |
| `HandlerProperties.ReactionAddKeepsAnchored` | src/main.rs:109-117 | `reaction_add` keeps every script stored under its own origin |
| `HandlerProperties.MessageTouchesOnlyOwnChannel` | src/main.rs:35-38 | `message` leaves every other channel's partition, and its presence, as it was; a message past the guild and bot checks leaves its channel with a partition |
| `HandlerProperties.MessageUpdateTouchesOnlyOwnChannel` | src/main.rs:66-68 | `message_update` leaves every other channel's partition, and its presence, as it was, and always leaves its channel with a partition |
| `HandlerProperties.ReactionAddTouchesOnlyOwnChannel` | src/main.rs:105-107 | `reaction_add` leaves every other channel's partition, and its presence, as it was; a human reaction leaves its channel with a partition |
| `HandlerProperties.MessageIgnoredUnlessHumanInGuild` | src/main.rs:30-33 | a direct message (where `some_or_return!`, src/utils.rs:32-41, returns from the handler) or a bot's message changes nothing and sends nothing |
| `HandlerProperties.PlainMessageOnlyNotifies` | src/main.rs:40-50 | a non-block message keeps every partition's value; its only feedback is the dispatch pass |
| `HandlerProperties.BlockMessageCreatesScript` | src/main.rs:40-54 | a compiling block adds an enabled script anchored on the message under its id, after the existing scripts were notified, then the success reaction |
| `HandlerProperties.BlockMessageCompileError` | src/main.rs:50-54 | a failing block adds nothing; after the dispatch feedback the message gets the diagnostic reply and then the failure reaction |
| `HandlerProperties.DefiningMessageNotDelivered` | src/main.rs:40-54 | a new script never receives its own creation message: of the bot's own feedback, all the defining message receives is its compile feedback |
| `HandlerProperties.EditOfPlainMessage` | src/main.rs:82-83 | editing a message with no script, or an edit without new text, creates nothing even when the text is a block; only the optional dispatch is sent |
| `HandlerProperties.EditTakesReplacePath` | src/main.rs:70-91 | an edit carrying new text is the optional dispatch pass followed by the edit path on the channel's partition, in that order |
| `HandlerProperties.ReplaceRemoves` | src/main.rs:83-85 | on a key holding a script, new text that is not a block removes the script and clears the reactions of its message, nothing more |
| `HandlerProperties.ReplaceRecompiles` | src/main.rs:83-88 | on a key holding a script, a new block removes the script, clears its reactions, then compiles the block for the old origin message and stores the result under the same key if it compiled |
| `HandlerProperties.EditRemovesScript` | src/main.rs:83-85 | editing a script's message into a non-block removes the script; the last feedback clears reactions on its message |
| `HandlerProperties.EditRecompiles` | src/main.rs:83-88 | editing into another block recompiles under the same key for the old source message, after dispatch and delete-reactions, in that order; a compiled result starts enabled whatever the old flag was |
| `HandlerProperties.ReactionSetsStatus` | src/main.rs:109-115 | the author's success glyph disables and failure glyph enables the script; the flag is all that changes; the feedback is that of `set_status` |
| `HandlerProperties.ReactionOtherwiseInert` | src/main.rs:95-117 | a reaction by a bot or unknown user, by a non-author, on a message defining no script, or with another glyph changes nothing and sends nothing |
| `HandlerProperties.NonAuthorNeverToggles` | src/main.rs:110 | only the author of a script's message can switch it |
| `HandlerProperties.ReactionChangesIff` | src/main.rs:109-117 | a reaction changes the channel's partition exactly when it toggles a script whose flag differs from the one asked for, and sends feedback exactly then |
| `HandlerProperties.ReactionIdempotent` | src/main.rs:109-117 | reacting twice with the same glyph acts once: the second leaves the registry as is and sends nothing |
| `HandlerProperties.DisplayedGlyphFlips` | src/main.rs:109-115 | the author reacting with the glyph a script displays (green when enabled, red when disabled) flips it: the flag inverts, reactions are cleared and the other glyph is shown; a freshly compiled script displays green |
| `HandlerProperties.DisableThenSilent` | src/main.rs:109-112 | once the author disables a script with the success glyph, a later message in the channel sends nothing on the script's message |

## Left out

- src/neoapi.rs is not part of this model. It binds script-facing functions (among them reply, react, delete, broadcast, direct messages, the message and user accessors, the string helpers `str`, `starts_with`, `substring` and `contains`, random numbers and member lookup) into the interpreter. The model treats the interpreter, and what a script does through it, as the opaque `Compiler` and `Evaluator` oracles.
- Changes a hook evaluation makes to the engine's own state are not modelled. `Engine` is an opaque value that evaluation does not change.
- The `println!` of an execution error (src/script.rs:64) is console output and is omitted. The skull reaction that follows it is modelled.
- Transport results are discarded with `let _` in the source. Every react, reply and delete-reactions is therefore an entry that always lands in the log.
- Two network calls are inputs, not calls: re-fetching the edited message (src/main.rs:70) is the `refetched` option, and the reactor lookup (src/main.rs:96-97) is the `reactor` option. A failed lookup counts as a bot.
- `NeoMessage` carries only the message. The handler context it also holds in the source is part of the omitted neoapi.rs.
- The `ctx.data.write()` lock, and the `unsafe impl Send/Sync` (src/script.rs:13-14), concern concurrency. Each handler is modelled as one sequential, atomic method.
- `main()` (environment, token, client start) and the `ready` handler are process and I/O plumbing. Only the empty initial map (src/main.rs:139) is modelled, as the registry's constructor.
- `get_data!` and `get_data_mut!` (src/utils.rs:43-55) are not modelled. Neither core file uses them, and their only behaviour is an `unwrap` of an entry the registry access already assumes present.
- Panics inside the interpreter are not modelled. Functions bound by neoapi.rs can panic: `find_user` through `expect`, `reply` through `unwrap`, `substring` through a byte slice, and `gen_range` with an empty range. A panic during a hook unwinds out of `notify` and out of the dispatch loop, and the scripts not yet visited miss the event. A panic during compilation leaves no script and no feedback. The model assumes every compilation and every hook call ends in an outcome the interpreter returns, and the isolation properties of the dispatch loop hold only under that assumption.
- Scripts are modelled as deterministic. `Compiler` and `Evaluator` are functions, so a hook that draws random numbers gives the same outcome on every call. `HandlerProperties.DispatchOrderIrrelevant` compares two passes under that assumption.
- `FunctionNotFound` stands for every function-not-found error of a hook call (src/script.rs:62). That includes a missing function called from inside a hook that exists, which is silenced the same way.
- Actions a script takes itself through the bound functions are not logged: broadcasting to the script's channel (src/neoapi.rs:35-42), replying, reacting and deleting (src/neoapi.rs:83-106), and direct messages (src/neoapi.rs:147-151). The log holds only the bot's own reactions, replies and reaction clears. Every claim that a message "receives" or "hears" something is about that feedback only. A script's `on_message` hook can react to a new defining message, and the model does not capture that.
- `react_loop` is modelled as `ReactLoop` with its glyph, but the handlers never send it.
- Hash-map iteration order is not modelled. It appears as a ghost order, of which the model proves only that it lists each key once.
- The source slices in UTF-8 bytes and the model in characters. Both fences are ASCII, so the two agree on every input.
- `CallSynthesis.SynthesizeCall`: the source's `i32` counter could overflow after 2^31 arguments. Every handler passes exactly one argument, so the counter is modelled as an unbounded integer.
- `message_update` recompiles an edited script against the old script's `source_msg` (src/main.rs:86), captured when the script was first created, not against the edited text. The model follows the code in this.
