/** What the handlers promise, proved about the step functions of module
    `Handler`: which script hears what during a dispatch pass, that every
    script stays stored under its own origin, that a handler touches only
    the channel of its event, and what each handler does to the script it
    concerns. Because the methods of `Registry` are proved to realise the
    step functions, everything here holds of the registry object too. */
module HandlerProperties {
  import opened Utils
  import opened Discord
  import opened CallSynthesis
  import opened Scripting
  import opened Extractor
  import opened Handler

  /** The feedback among `fs` that concerns the message `t`, in order:
      every item of `fs` aimed at `t` is kept, and nothing else. */
  function Targeting(fs: seq<Feedback>, t: OriginId): (r: seq<Feedback>)
    ensures |r| <= |fs|
    ensures forall f :: f in r <==> f in fs && f.target == t
  {
    if fs == [] then []
    else
      assert fs == [fs[0]] + fs[1..];
      (if fs[0].target == t then [fs[0]] else []) + Targeting(fs[1..], t)
  }

  lemma {:induction false} TargetingAppend(a: seq<Feedback>, b: seq<Feedback>, t: OriginId)
    ensures Targeting(a + b, t) == Targeting(a, t) + Targeting(b, t)
  {
    if a == [] {
      assert a + b == b;
    } else {
      var head := if a[0].target == t then [a[0]] else [];
      assert (a + b)[0] == a[0];
      assert (a + b)[1..] == a[1..] + b;
      TargetingAppend(a[1..], b, t);
      calc {
        Targeting(a + b, t);
        head + (Targeting(a[1..], t) + Targeting(b, t));
        (head + Targeting(a[1..], t)) + Targeting(b, t);
      }
    }
  }

  /** Feedback all of which concerns `t` is kept whole; feedback none of
      which does is dropped. */
  lemma {:induction false} TargetingUniform(fs: seq<Feedback>, t: OriginId)
    ensures (forall i :: 0 <= i < |fs| ==> fs[i].target == t) ==> Targeting(fs, t) == fs
    ensures (forall i :: 0 <= i < |fs| ==> fs[i].target != t) ==> Targeting(fs, t) == []
  {
    if fs != [] {
      TargetingUniform(fs[1..], t);
      assert [fs[0]] + fs[1..] == fs;
    }
  }

  /** What one script sends during a notification concerns its own origin
      message only. */
  lemma NotifyTargetsOrigin(s: ScriptState, hook: string, args: seq<Arg>, eval: Evaluator, t: OriginId)
    ensures Targeting(NotifyFeedback(s, hook, args, eval), t) ==
            if t == s.sourceMsg.Origin() then NotifyFeedback(s, hook, args, eval) else []
  {
    TargetingUniform(NotifyFeedback(s, hook, args, eval), t);
  }

  /** What a compile attempt sends concerns the defining message only. */
  lemma CreateTargetsOrigin(outcome: CompileOutcome, m: Message, t: OriginId)
    ensures Targeting(CreateFeedback(outcome, m), t) == if t == m.Origin() then CreateFeedback(outcome, m) else []
  {
    var fs := CreateFeedback(outcome, m);
    assert forall i :: 0 <= i < |fs| ==> fs[i].target == m.Origin();
    TargetingUniform(fs, t);
  }

  /** During a dispatch pass over distinct keys, a message receives, of the
      bot's own feedback, exactly what the script anchored on it sends, if
      that script was visited, and nothing else. */
  lemma {:induction false} DispatchTargeting(p: Partition, c: ChannelId, order: seq<MessageId>,
                                             hook: string, args: seq<Arg>, eval: Evaluator, t: OriginId)
    requires PartitionAnchored(p, c) && Distinct(order)
    ensures Targeting(DispatchFeedback(p, order, hook, args, eval), t) ==
            if t.channel == c && t.id in order then KeyFeedback(p, t.id, hook, args, eval) else []
  {
    if order != [] {
      var k, rest := order[0], order[1..];
      assert Distinct(rest) by {
        forall i, j | 0 <= i < j < |rest| ensures rest[i] != rest[j] {
          assert rest[i] == order[i + 1] && rest[j] == order[j + 1];
        }
      }
      assert k !in rest by {
        forall i | 0 <= i < |rest| ensures rest[i] != k {
          assert rest[i] == order[i + 1];
        }
      }
      DispatchTargeting(p, c, rest, hook, args, eval, t);
      TargetingAppend(KeyFeedback(p, k, hook, args, eval), DispatchFeedback(p, rest, hook, args, eval), t);
      if k in p {
        NotifyTargetsOrigin(p[k], hook, args, eval, t);
      }
      assert t.id in order <==> t.id == k || t.id in rest;
    }
  }

  /** One dispatch pass notifies every script exactly once: whatever order
      the hash map yields, the bot's own feedback about a script's origin
      message is that script's own notification feedback, as long as every
      hook ends in an outcome the interpreter returns. */
  lemma DispatchPerScript(p: Partition, c: ChannelId, order: seq<MessageId>,
                          hook: string, args: seq<Arg>, eval: Evaluator, k: MessageId)
    requires PartitionAnchored(p, c) && Enumerates(order, p.Keys) && k in p
    ensures Targeting(DispatchFeedback(p, order, hook, args, eval), OriginId(c, k)) ==
            NotifyFeedback(p[k], hook, args, eval)
  {
    DispatchTargeting(p, c, order, hook, args, eval, OriginId(c, k));
  }

  /** The order of a dispatch pass is unobservable per message: two
      enumerations of the partition give every message the same feedback. */
  lemma DispatchOrderIrrelevant(p: Partition, c: ChannelId, o1: seq<MessageId>, o2: seq<MessageId>,
                                hook: string, args: seq<Arg>, eval: Evaluator, t: OriginId)
    requires PartitionAnchored(p, c) && Enumerates(o1, p.Keys) && Enumerates(o2, p.Keys)
    ensures Targeting(DispatchFeedback(p, o1, hook, args, eval), t) ==
            Targeting(DispatchFeedback(p, o2, hook, args, eval), t)
  {
    DispatchTargeting(p, c, o1, hook, args, eval, t);
    DispatchTargeting(p, c, o2, hook, args, eval, t);
  }

  /** A dispatch pass only ever adds a halo or a skull reaction, and only
      on the origin of an enabled script. */
  lemma {:induction false} DispatchFeedbackShape(p: Partition, order: seq<MessageId>,
                                                 hook: string, args: seq<Arg>, eval: Evaluator)
    ensures forall f :: f in DispatchFeedback(p, order, hook, args, eval) ==>
      f.React? && (f.reaction == ReactHalo() || f.reaction == ReactSkull()) &&
      f.target in EnabledOrigins(p)
  {
    if order != [] {
      DispatchFeedbackShape(p, order[1..], hook, args, eval);
      var k := order[0];
      if k in p && p[k].enabled {
        assert p[k].sourceMsg.Origin() in EnabledOrigins(p);
      }
    }
  }

  /** A channel whose scripts are all disabled stays silent on dispatch. */
  lemma {:induction false} DispatchSilentWhenNoneEnabled(p: Partition, order: seq<MessageId>,
                                                         hook: string, args: seq<Arg>, eval: Evaluator)
    requires forall k :: k in p ==> !p[k].enabled
    ensures DispatchFeedback(p, order, hook, args, eval) == []
  {
    if order != [] {
      DispatchSilentWhenNoneEnabled(p, order[1..], hook, args, eval);
    }
  }

  lemma AnchoredPartition(reg: RegistryView, c: ChannelId)
    requires Anchored(reg)
    ensures PartitionAnchored(PartitionOf(reg, c), c)
  {
  }

  /** Replacing one channel's partition by an anchored one keeps the whole
      registry anchored. */
  lemma AnchoredUpdate(reg: RegistryView, c: ChannelId, p: Partition)
    requires Anchored(reg) && PartitionAnchored(p, c)
    ensures Anchored(reg[c := p])
  {
    var r: RegistryView := reg[c := p];
    forall c': ChannelId, k: MessageId | c' in r && k in r[c'] ensures r[c'][k].sourceMsg.Origin() == OriginId(c', k) {
      if c' == c {
        assert r[c'][k] == p[k];
      } else {
        assert r[c'] == reg[c'];
      }
    }
  }

  /** Compiling a script for a message and storing it under that message's
      id keeps a partition anchored. */
  lemma CreateKeepsAnchored(p: Partition, c: ChannelId, k: MessageId, code: string, src: Message, compile: Compiler)
    requires PartitionAnchored(p, c) && src.Origin() == OriginId(c, k)
    ensures PartitionAnchored(Create(p, k, code, src, compile).partition, c)
  {
  }

  /** `Handler::message` keeps every script stored under its own origin:
      the new script is stored under the id of the message defining it. */
  lemma MessageKeepsAnchored(reg: RegistryView, msg: Message, order: seq<MessageId>,
                             compile: Compiler, eval: Evaluator)
    requires Anchored(reg)
    ensures Anchored(MessageStep(reg, msg, order, compile, eval).registry)
  {
    var c := msg.channel;
    if msg.guild.Some? && !msg.author.bot {
      var p := PartitionOf(reg, c);
      AnchoredPartition(reg, c);
      match ParseNeoBlock(msg.content)
      case None =>
        AnchoredUpdate(reg, c, p);
      case Some(code) =>
        CreateKeepsAnchored(p, c, msg.id, code, msg, compile);
        AnchoredUpdate(reg, c, Create(p, msg.id, code, msg, compile).partition);
    }
  }

  /** `Handler::message_update` keeps every script stored under its own
      origin: a recompiled script keeps the source message of the script it
      replaces, which was stored under the same key. */
  lemma MessageUpdateKeepsAnchored(reg: RegistryView, event: MessageUpdateEvent, refetched: Option<Message>,
                                   order: seq<MessageId>, compile: Compiler, eval: Evaluator)
    requires Anchored(reg)
    ensures Anchored(MessageUpdateStep(reg, event, refetched, order, compile, eval).registry)
  {
    var c, k := event.channel, event.id;
    var p := PartitionOf(reg, c);
    AnchoredPartition(reg, c);
    if event.content.Some? {
      var removed := p - {k};
      assert PartitionAnchored(removed, c);
      if k in p {
        match ParseNeoBlock(event.content.value)
        case None =>
        case Some(code) =>
          CreateKeepsAnchored(removed, c, k, code, p[k].sourceMsg, compile);
      }
      AnchoredUpdate(reg, c, Replace(p, k, event.content.value, compile).partition);
    } else {
      AnchoredUpdate(reg, c, p);
    }
  }

  /** `Handler::reaction_add` keeps every script stored under its own
      origin: toggling changes only the flag. */
  lemma ReactionAddKeepsAnchored(reg: RegistryView, reaction: Reaction, reactor: Option<User>)
    requires Anchored(reg)
    ensures Anchored(ReactionAddStep(reg, reaction, reactor).registry)
  {
    var c := reaction.channel;
    if !CountsAsBot(reactor) {
      AnchoredPartition(reg, c);
      AnchoredUpdate(reg, c, Toggle(PartitionOf(reg, c), reaction.messageId, reaction.userId, reaction.emoji).partition);
    }
  }

  /** The registry agrees with `reg` on every channel other than `c`. */
  ghost predicate OnlyChannelChanged(reg: RegistryView, r: RegistryView, c: ChannelId) {
    forall c' :: c' != c ==> (c' in r <==> c' in reg) && (c' in r ==> r[c'] == reg[c'])
  }

  /** Replacing one channel's partition leaves the others as they were. */
  lemma UpdateOnlyChanges(reg: RegistryView, c: ChannelId, p: Partition)
    ensures OnlyChannelChanged(reg, reg[c := p], c)
  {
  }

  /** Each handler touches only the channel of its event, and a handler
      that gets past its early returns leaves that channel with a partition,
      created empty if it had none. */
  lemma MessageTouchesOnlyOwnChannel(reg: RegistryView, msg: Message, order: seq<MessageId>,
                                     compile: Compiler, eval: Evaluator)
    ensures OnlyChannelChanged(reg, MessageStep(reg, msg, order, compile, eval).registry, msg.channel)
    ensures msg.guild.Some? && !msg.author.bot ==> msg.channel in MessageStep(reg, msg, order, compile, eval).registry
  {
    var r := MessageStep(reg, msg, order, compile, eval).registry;
    if msg.guild.Some? && !msg.author.bot {
      var p := PartitionOf(reg, msg.channel);
      match ParseNeoBlock(msg.content)
      case None =>
        UpdateOnlyChanges(reg, msg.channel, p);
      case Some(code) =>
        UpdateOnlyChanges(reg, msg.channel, Create(p, msg.id, code, msg, compile).partition);
    }
  }

  lemma MessageUpdateTouchesOnlyOwnChannel(reg: RegistryView, event: MessageUpdateEvent, refetched: Option<Message>,
                                           order: seq<MessageId>, compile: Compiler, eval: Evaluator)
    ensures OnlyChannelChanged(reg, MessageUpdateStep(reg, event, refetched, order, compile, eval).registry,
                               event.channel)
    ensures event.channel in MessageUpdateStep(reg, event, refetched, order, compile, eval).registry
  {
    var p := PartitionOf(reg, event.channel);
    if event.content.Some? {
      UpdateOnlyChanges(reg, event.channel, Replace(p, event.id, event.content.value, compile).partition);
    } else {
      UpdateOnlyChanges(reg, event.channel, p);
    }
  }

  lemma ReactionAddTouchesOnlyOwnChannel(reg: RegistryView, reaction: Reaction, reactor: Option<User>)
    ensures OnlyChannelChanged(reg, ReactionAddStep(reg, reaction, reactor).registry, reaction.channel)
    ensures !CountsAsBot(reactor) ==> reaction.channel in ReactionAddStep(reg, reaction, reactor).registry
  {
    if !CountsAsBot(reactor) {
      var c := reaction.channel;
      UpdateOnlyChanges(reg, c, Toggle(PartitionOf(reg, c), reaction.messageId, reaction.userId, reaction.emoji).partition);
    }
  }

  /** Direct messages and messages by bots are ignored altogether. */
  lemma MessageIgnoredUnlessHumanInGuild(reg: RegistryView, msg: Message, order: seq<MessageId>,
                                         compile: Compiler, eval: Evaluator)
    requires msg.guild.None? || msg.author.bot
    ensures MessageStep(reg, msg, order, compile, eval) == Step(reg, [])
  {
  }

  /** A message that is not a script block changes no script: the registry
      keeps its value and the only feedback is that of the dispatch pass. */
  lemma PlainMessageOnlyNotifies(reg: RegistryView, msg: Message, order: seq<MessageId>,
                                 compile: Compiler, eval: Evaluator)
    requires msg.guild.Some? && !msg.author.bot && ParseNeoBlock(msg.content).None?
    ensures var step := MessageStep(reg, msg, order, compile, eval);
      PartitionOf(step.registry, msg.channel) == PartitionOf(reg, msg.channel) &&
      OnlyChannelChanged(reg, step.registry, msg.channel) &&
      step.feedback == DispatchFeedback(PartitionOf(reg, msg.channel), order, MessageHook, [NeoMessage(msg)], eval)
  {
    MessageTouchesOnlyOwnChannel(reg, msg, order, compile, eval);
  }

  /** A script block that compiles adds an enabled script anchored on the
      message, after the existing scripts were notified, and marks the
      message with the success reaction. */
  lemma BlockMessageCreatesScript(reg: RegistryView, msg: Message, order: seq<MessageId>,
                                  compile: Compiler, eval: Evaluator, code: string, engine: Engine)
    requires msg.guild.Some? && !msg.author.bot && ParseNeoBlock(msg.content) == Some(code)
    requires compile(code, msg) == Compiled(engine)
    ensures var step := MessageStep(reg, msg, order, compile, eval);
      var p := PartitionOf(reg, msg.channel);
      step.registry[msg.channel] == p[msg.id := ScriptState(msg, engine, true)] &&
      step.feedback == DispatchFeedback(p, order, MessageHook, [NeoMessage(msg)], eval) +
                       [React(msg.Origin(), ReactSuccess())]
  {
  }

  /** A script block that does not compile adds nothing; the message gets
      the diagnostic as a reply, then the failure reaction. */
  lemma BlockMessageCompileError(reg: RegistryView, msg: Message, order: seq<MessageId>,
                                 compile: Compiler, eval: Evaluator, code: string, error: string)
    requires msg.guild.Some? && !msg.author.bot && ParseNeoBlock(msg.content) == Some(code)
    requires compile(code, msg) == CompileError(error)
    ensures var step := MessageStep(reg, msg, order, compile, eval);
      var p := PartitionOf(reg, msg.channel);
      step.registry[msg.channel] == p &&
      step.feedback == DispatchFeedback(p, order, MessageHook, [NeoMessage(msg)], eval) +
                       [Reply(msg.Origin(), "Fehler: " + error), React(msg.Origin(), ReactFailure())]
  {
  }

  /** A new message is not delivered to the script it defines: the scripts
      are notified before it is compiled, so of the bot's own feedback the
      message receives only its compile feedback. */
  lemma DefiningMessageNotDelivered(reg: RegistryView, msg: Message, order: seq<MessageId>,
                                    compile: Compiler, eval: Evaluator, code: string)
    requires Anchored(reg) && msg.id !in PartitionOf(reg, msg.channel)
    requires Distinct(order)
    requires msg.guild.Some? && !msg.author.bot && ParseNeoBlock(msg.content) == Some(code)
    ensures Targeting(MessageStep(reg, msg, order, compile, eval).feedback, msg.Origin()) ==
            CreateFeedback(compile(code, msg), msg)
  {
    var p := PartitionOf(reg, msg.channel);
    var notified := DispatchFeedback(p, order, MessageHook, [NeoMessage(msg)], eval);
    var created := Create(p, msg.id, code, msg, compile).feedback;
    assert MessageStep(reg, msg, order, compile, eval).feedback == notified + created;
    AnchoredPartition(reg, msg.channel);
    DispatchTargeting(p, msg.channel, order, MessageHook, [NeoMessage(msg)], eval, msg.Origin());
    assert Targeting(notified, msg.Origin()) == [];
    TargetingAppend(notified, created, msg.Origin());
    CreateTargetsOrigin(compile(code, msg), msg, msg.Origin());
    assert [] + created == created;
  }

  /** Editing a message that defines no script changes no script. */
  lemma EditOfPlainMessage(reg: RegistryView, event: MessageUpdateEvent, refetched: Option<Message>,
                           order: seq<MessageId>, compile: Compiler, eval: Evaluator)
    requires event.id !in PartitionOf(reg, event.channel) || event.content.None?
    ensures var step := MessageUpdateStep(reg, event, refetched, order, compile, eval);
      var p := PartitionOf(reg, event.channel);
      step.registry[event.channel] == p &&
      step.feedback ==
        if refetched.Some? then DispatchFeedback(p, order, MessageUpdateHook, [NeoMessage(refetched.value)], eval)
        else []
  {
  }

  /** The script stored under `k` in an anchored registry is anchored on
      the message (`c`, `k`). */
  lemma AnchoredAt(reg: RegistryView, c: ChannelId, k: MessageId)
    requires Anchored(reg) && k in PartitionOf(reg, c)
    ensures PartitionOf(reg, c)[k].sourceMsg.Origin() == OriginId(c, k)
  {
  }

  /** An edit with new text is the optional dispatch followed by the edit
      path on the channel's partition. */
  lemma EditTakesReplacePath(reg: RegistryView, event: MessageUpdateEvent, refetched: Option<Message>,
                             order: seq<MessageId>, compile: Compiler, eval: Evaluator, content: string)
    requires event.content == Some(content)
    ensures var step := MessageUpdateStep(reg, event, refetched, order, compile, eval);
      var p := PartitionOf(reg, event.channel);
      var replaced := Replace(p, event.id, content, compile);
      step.registry[event.channel] == replaced.partition &&
      step.feedback ==
        (if refetched.Some? then DispatchFeedback(p, order, MessageUpdateHook, [NeoMessage(refetched.value)], eval)
         else []) + replaced.feedback
  {
  }

  /** The edit path on a key holding a script, when the new text is not a
      script block: the script goes and its reactions are cleared. */
  lemma ReplaceRemoves(p: Partition, k: MessageId, content: string, compile: Compiler)
    requires k in p && ParseNeoBlock(content).None?
    ensures Replace(p, k, content, compile) == Change(p - {k}, [DeleteReactions(p[k].sourceMsg.Origin())])
  {
  }

  /** The edit path on a key holding a script, when the new text is a script
      block: the script goes, its reactions are cleared, and the block is
      compiled for the old script's origin message. */
  lemma ReplaceRecompiles(p: Partition, k: MessageId, content: string, code: string, compile: Compiler)
    requires k in p && ParseNeoBlock(content) == Some(code)
    ensures var src := p[k].sourceMsg;
      var outcome := compile(code, src);
      Replace(p, k, content, compile) ==
        Change(Install(p - {k}, k, Created(outcome, src)), [DeleteReactions(src.Origin())] + CreateFeedback(outcome, src))
  {
  }

  /** Editing a script's message into something that is not a script block
      removes the script and clears the reactions on its message. */
  lemma EditRemovesScript(reg: RegistryView, event: MessageUpdateEvent, refetched: Option<Message>,
                          order: seq<MessageId>, compile: Compiler, eval: Evaluator, content: string)
    requires Anchored(reg)
    requires event.id in PartitionOf(reg, event.channel)
    requires event.content == Some(content) && ParseNeoBlock(content).None?
    ensures var step := MessageUpdateStep(reg, event, refetched, order, compile, eval);
      var p := PartitionOf(reg, event.channel);
      step.registry[event.channel] == p - {event.id} &&
      step.feedback[|step.feedback| - 1] == DeleteReactions(OriginId(event.channel, event.id))
  {
    var p := PartitionOf(reg, event.channel);
    AnchoredAt(reg, event.channel, event.id);
    EditTakesReplacePath(reg, event, refetched, order, compile, eval, content);
    ReplaceRemoves(p, event.id, content, compile);
  }

  /** Editing a script's message into another script block recompiles it
      under the same key, for the source message of the script it replaces;
      when that compiles, the new script starts enabled whatever the state
      of the old one, and keeps the original message. */
  lemma EditRecompiles(reg: RegistryView, event: MessageUpdateEvent, refetched: Option<Message>,
                       order: seq<MessageId>, compile: Compiler, eval: Evaluator, content: string, code: string)
    requires Anchored(reg)
    requires event.id in PartitionOf(reg, event.channel)
    requires event.content == Some(content) && ParseNeoBlock(content) == Some(code)
    ensures var step := MessageUpdateStep(reg, event, refetched, order, compile, eval);
      var p := PartitionOf(reg, event.channel);
      var prior := p[event.id];
      var outcome := compile(code, prior.sourceMsg);
      var origin := OriginId(event.channel, event.id);
      var notified :=
        if refetched.Some? then DispatchFeedback(p, order, MessageUpdateHook, [NeoMessage(refetched.value)], eval)
        else [];
      step.registry[event.channel] == Install(p - {event.id}, event.id, Created(outcome, prior.sourceMsg)) &&
      step.feedback == notified + [DeleteReactions(origin)] + CreateFeedback(outcome, prior.sourceMsg) &&
      (outcome.Compiled? ==>
        step.registry[event.channel][event.id] == ScriptState(prior.sourceMsg, outcome.engine, true))
  {
    var p := PartitionOf(reg, event.channel);
    var src := p[event.id].sourceMsg;
    AnchoredAt(reg, event.channel, event.id);
    EditTakesReplacePath(reg, event, refetched, order, compile, eval, content);
    ReplaceRecompiles(p, event.id, content, code, compile);
    var notified :=
      if refetched.Some? then DispatchFeedback(p, order, MessageUpdateHook, [NeoMessage(refetched.value)], eval)
      else [];
    AppendAssoc(notified, [DeleteReactions(src.Origin())], CreateFeedback(compile(code, src), src));
  }

  /** Whether `reaction_add` toggles a script: the reactor is a human, the
      reacted-to message defines a script, the reactor wrote it, and the
      reaction is the success or the failure glyph. */
  ghost predicate Toggles(reg: RegistryView, reaction: Reaction, reactor: Option<User>) {
    var p := PartitionOf(reg, reaction.channel);
    !CountsAsBot(reactor) && reaction.messageId in p &&
    reaction.userId == p[reaction.messageId].sourceMsg.author.id &&
    (reaction.emoji == ReactSuccess() || reaction.emoji == ReactFailure())
  }

  /** A toggling reaction sets the flag: the success glyph disables the
      script, the failure glyph enables it, and the flag is all that
      changes. */
  lemma ReactionSetsStatus(reg: RegistryView, reaction: Reaction, reactor: Option<User>)
    requires Toggles(reg, reaction, reactor)
    ensures var step := ReactionAddStep(reg, reaction, reactor);
      var p := PartitionOf(reg, reaction.channel);
      var k := reaction.messageId;
      var desired := reaction.emoji == ReactFailure();
      step.registry[reaction.channel] == p[k := WithStatus(p[k], desired)] &&
      step.feedback == StatusFeedback(p[k], desired)
  {
    ReactionsDistinct();
  }

  /** Any other reaction (by a bot, by someone other than the author, on a
      message defining no script, or with another glyph) changes nothing
      and sends nothing. */
  lemma ReactionOtherwiseInert(reg: RegistryView, reaction: Reaction, reactor: Option<User>)
    requires !Toggles(reg, reaction, reactor)
    ensures var step := ReactionAddStep(reg, reaction, reactor);
      PartitionOf(step.registry, reaction.channel) == PartitionOf(reg, reaction.channel) &&
      OnlyChannelChanged(reg, step.registry, reaction.channel) &&
      step.feedback == []
  {
    ReactionAddTouchesOnlyOwnChannel(reg, reaction, reactor);
  }

  /** Only the author of a script's message can switch it. */
  lemma NonAuthorNeverToggles(reg: RegistryView, reaction: Reaction, reactor: Option<User>)
    requires var p := PartitionOf(reg, reaction.channel);
      reaction.messageId in p ==> reaction.userId != p[reaction.messageId].sourceMsg.author.id
    ensures PartitionOf(ReactionAddStep(reg, reaction, reactor).registry, reaction.channel) ==
            PartitionOf(reg, reaction.channel)
    ensures ReactionAddStep(reg, reaction, reactor).feedback == []
  {
    ReactionOtherwiseInert(reg, reaction, reactor);
  }

  /** A reaction changes the registry's value exactly when it toggles a
      script whose flag differs from the one the glyph asks for, and it
      sends feedback exactly then too. */
  lemma ReactionChangesIff(reg: RegistryView, reaction: Reaction, reactor: Option<User>)
    ensures var step := ReactionAddStep(reg, reaction, reactor);
      var p := PartitionOf(reg, reaction.channel);
      var flips := Toggles(reg, reaction, reactor) &&
        p[reaction.messageId].enabled != (reaction.emoji == ReactFailure());
      (PartitionOf(step.registry, reaction.channel) != p <==> flips) &&
      (step.feedback != [] <==> flips)
  {
    var step := ReactionAddStep(reg, reaction, reactor);
    var p := PartitionOf(reg, reaction.channel);
    var k := reaction.messageId;
    if Toggles(reg, reaction, reactor) {
      ReactionSetsStatus(reg, reaction, reactor);
      var desired := reaction.emoji == ReactFailure();
      if p[k].enabled != desired {
        assert PartitionOf(step.registry, reaction.channel)[k] != p[k];
      } else {
        assert WithStatus(p[k], desired) == p[k];
        assert p[k := p[k]] == p;
      }
    } else {
      ReactionOtherwiseInert(reg, reaction, reactor);
    }
  }

  /** Reacting twice with the same glyph acts once: the second reaction
      leaves the registry as the first left it and sends nothing. */
  lemma ReactionIdempotent(reg: RegistryView, reaction: Reaction, reactor: Option<User>)
    ensures var once := ReactionAddStep(reg, reaction, reactor);
      var twice := ReactionAddStep(once.registry, reaction, reactor);
      twice.registry == once.registry && twice.feedback == []
  {
    var once := ReactionAddStep(reg, reaction, reactor);
    var c, k := reaction.channel, reaction.messageId;
    if Toggles(reg, reaction, reactor) {
      ReactionSetsStatus(reg, reaction, reactor);
      assert Toggles(once.registry, reaction, reactor);
      ReactionSetsStatus(once.registry, reaction, reactor);
      var p := PartitionOf(once.registry, c);
      assert p[k := WithStatus(p[k], reaction.emoji == ReactFailure())] == p;
    } else {
      ReactionOtherwiseInert(reg, reaction, reactor);
      assert !Toggles(once.registry, reaction, reactor);
      ReactionOtherwiseInert(once.registry, reaction, reactor);
    }
  }

  /** The glyph a script shows: the success glyph while it is enabled, the
      failure glyph while it is disabled. */
  function Shown(s: ScriptState): ReactionType {
    if s.enabled then ReactSuccess() else ReactFailure()
  }

  /** The glyph that disables a script is the one shown on an enabled
      script, and the glyph that enables it is the one shown on a disabled
      script: the author clicking the reaction on display flips the state,
      and the script then shows the other glyph. */
  lemma DisplayedGlyphFlips(reg: RegistryView, reaction: Reaction, reactor: Option<User>)
    requires !CountsAsBot(reactor)
    requires var p := PartitionOf(reg, reaction.channel);
      reaction.messageId in p && reaction.userId == p[reaction.messageId].sourceMsg.author.id &&
      reaction.emoji == Shown(p[reaction.messageId])
    ensures var s := PartitionOf(reg, reaction.channel)[reaction.messageId];
      var step := ReactionAddStep(reg, reaction, reactor);
      var s' := step.registry[reaction.channel][reaction.messageId];
      s' == s.(enabled := !s.enabled) &&
      step.feedback == [DeleteReactions(s.sourceMsg.Origin()), React(s.sourceMsg.Origin(), Shown(s'))]
    ensures forall engine, m :: CreateFeedback(Compiled(engine), m) == [React(m.Origin(), Shown(ScriptState(m, engine, true)))]
  {
    ReactionsDistinct();
    ReactionSetsStatus(reg, reaction, reactor);
  }

  /** Scenario: once the author reacts with the success glyph, the script is
      disabled and later messages in the channel get nothing from it. */
  lemma DisableThenSilent(reg: RegistryView, reaction: Reaction, reactor: Option<User>,
                          msg: Message, order: seq<MessageId>, compile: Compiler, eval: Evaluator)
    requires Anchored(reg)
    requires Toggles(reg, reaction, reactor) && reaction.emoji == ReactSuccess()
    requires msg.channel == reaction.channel && msg.id != reaction.messageId
    requires Distinct(order)
    ensures var disabled := ReactionAddStep(reg, reaction, reactor).registry;
      Targeting(MessageStep(disabled, msg, order, compile, eval).feedback,
                OriginId(reaction.channel, reaction.messageId)) == []
  {
    var c, k := reaction.channel, reaction.messageId;
    ReactionsDistinct();
    ReactionSetsStatus(reg, reaction, reactor);
    ReactionAddKeepsAnchored(reg, reaction, reactor);
    var disabled := ReactionAddStep(reg, reaction, reactor).registry;
    var p := PartitionOf(disabled, c);
    assert !p[k].enabled;
    var t := OriginId(c, k);
    if msg.guild.Some? && !msg.author.bot {
      var notified := DispatchFeedback(p, order, MessageHook, [NeoMessage(msg)], eval);
      AnchoredPartition(disabled, c);
      DispatchTargeting(p, c, order, MessageHook, [NeoMessage(msg)], eval, t);
      assert Targeting(notified, t) == [];
      match ParseNeoBlock(msg.content)
      case None =>
      case Some(code) =>
        var created := CreateFeedback(compile(code, msg), msg);
        assert MessageStep(disabled, msg, order, compile, eval).feedback == notified + created;
        TargetingAppend(notified, created, t);
        CreateTargetsOrigin(compile(code, msg), msg, t);
    }
  }
}
