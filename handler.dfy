/** The script registry and the three event handlers (src/main.rs:29-118,
    127-131): a map from channel to a map from message id to script, the
    `message`, `message_update` and `reaction_add` handlers that create,
    replace and toggle scripts, and the dispatch loop that notifies every
    script of a channel.

    Each handler is specified twice: as a pure step function over the
    registry's value (`MessageStep`, `MessageUpdateStep`, `ReactionAddStep`),
    about which the properties are proved as lemmas, and as a method of the
    `Registry` class that mutates the registry in place and is proved to
    realise its step. The source walks a hash map, whose iteration order is
    unspecified; the step functions take that order as a parameter and the
    methods return, as a ghost result, the order they used. */
module Handler {
  import opened Utils
  import opened Discord
  import opened CallSynthesis
  import opened Scripting
  import opened Extractor

  const MessageHook: string := "on_message"
  const MessageUpdateHook: string := "on_message_update"

  /** The scripts of one channel, by the id of the message defining them. */
  type Partition = map<MessageId, ScriptState>

  /** The value of the registry. */
  type RegistryView = map<ChannelId, Partition>

  /** The partition a handler works on; an absent one reads as empty, as
      `entry(..).or_insert_with(HashMap::new)` makes it. */
  function PartitionOf(reg: RegistryView, c: ChannelId): Partition {
    if c in reg then reg[c] else map[]
  }

  /** Every script of partition `p` is stored under its own origin in
      channel `c`. */
  ghost predicate PartitionAnchored(p: Partition, c: ChannelId) {
    forall k :: k in p ==> p[k].sourceMsg.Origin() == OriginId(c, k)
  }

  /** Every script is stored under the identity of its own origin
      message. */
  ghost predicate Anchored(reg: RegistryView) {
    forall c :: c in reg ==> PartitionAnchored(reg[c], c)
  }

  /** No key occurs twice in `order`. */
  ghost predicate Distinct(order: seq<MessageId>) {
    forall i, j :: 0 <= i < j < |order| ==> order[i] != order[j]
  }

  /** `order` lists every key of `keys` exactly once. */
  ghost predicate Enumerates(order: seq<MessageId>, keys: set<MessageId>) {
    Distinct(order) && (forall k :: k in order <==> k in keys)
  }

  /** The feedback of notifying the script stored under `k`, if any. */
  function KeyFeedback(p: Partition, k: MessageId, hook: string, args: seq<Arg>, eval: Evaluator): seq<Feedback> {
    if k in p then NotifyFeedback(p[k], hook, args, eval) else []
  }

  /** The feedback of one dispatch pass that visits the keys in `order`. */
  function DispatchFeedback(p: Partition, order: seq<MessageId>, hook: string, args: seq<Arg>, eval: Evaluator): seq<Feedback> {
    if order == [] then []
    else KeyFeedback(p, order[0], hook, args, eval) + DispatchFeedback(p, order[1..], hook, args, eval)
  }

  /** The origins of the enabled scripts of a partition. */
  ghost function EnabledOrigins(p: Partition): set<OriginId> {
    set k | k in p && p[k].enabled :: p[k].sourceMsg.Origin()
  }

  /** Puts a freshly created script, if there is one, under `k`. */
  function Install(p: Partition, k: MessageId, s: Option<ScriptState>): Partition {
    if s.Some? then p[k := s.value] else p
  }

  /** `.map(|user| user.bot).unwrap_or(true)`: a reactor that cannot be
      looked up counts as a bot. */
  function CountsAsBot(reactor: Option<User>): bool {
    match reactor
    case Some(u) => u.bot
    case None => true
  }

  /** The registry after a handler, and the feedback it sent, in order. */
  datatype Step = Step(registry: RegistryView, feedback: seq<Feedback>)

  /** A partition after part of a handler, and the feedback sent meanwhile. */
  datatype Change = Change(partition: Partition, feedback: seq<Feedback>)

  /** Compiling `code` for `sourceMsg` and storing the script under `k` if
      it compiled. */
  function Create(p: Partition, k: MessageId, code: string, sourceMsg: Message, compile: Compiler): (r: Change)
    ensures r.partition.Keys == if compile(code, sourceMsg).Compiled? then p.Keys + {k} else p.Keys
    ensures forall j :: j in p && j != k ==> r.partition[j] == p[j]
  {
    var outcome := compile(code, sourceMsg);
    Change(Install(p, k, Created(outcome, sourceMsg)), CreateFeedback(outcome, sourceMsg))
  }

  /** The edit path of `message_update` once the new text is known: the
      script under `k` is removed; if there was one, its reactions are
      cleared and the new text, if it is a script block, is compiled for the
      old script's origin message. */
  function Replace(p: Partition, k: MessageId, content: string, compile: Compiler): (r: Change)
    ensures k !in p ==> r == Change(p, [])
    ensures r.partition.Keys <= p.Keys
    ensures forall j :: j in p && j != k ==> j in r.partition && r.partition[j] == p[j]
  {
    var removed := p - {k};
    if k !in p then
      assert removed == p;
      Change(removed, [])
    else
      var prior := p[k];
      var cleared := [DeleteReactions(prior.sourceMsg.Origin())];
      match ParseNeoBlock(content)
      case None => Change(removed, cleared)
      case Some(code) =>
        var created := Create(removed, k, code, prior.sourceMsg, compile);
        Change(created.partition, cleared + created.feedback)
  }

  /** `Handler::message`. */
  function MessageStep(reg: RegistryView, msg: Message, order: seq<MessageId>,
                       compile: Compiler, eval: Evaluator): Step
  {
    match SomeOrReturn(msg.guild)
    case Return => Step(reg, [])
    case Continue(_) =>
      if msg.author.bot then Step(reg, [])
      else
        var p := PartitionOf(reg, msg.channel);
        var notified := DispatchFeedback(p, order, MessageHook, [NeoMessage(msg)], eval);
        match ParseNeoBlock(msg.content)
        case None => Step(reg[msg.channel := p], notified)
        case Some(code) =>
          var created := Create(p, msg.id, code, msg, compile);
          Step(reg[msg.channel := created.partition], notified + created.feedback)
  }

  /** `Handler::message_update`; `refetched` is the result of fetching the
      edited message again. */
  function MessageUpdateStep(reg: RegistryView, event: MessageUpdateEvent, refetched: Option<Message>,
                             order: seq<MessageId>, compile: Compiler, eval: Evaluator): Step
  {
    var p := PartitionOf(reg, event.channel);
    var notified :=
      if refetched.Some? then DispatchFeedback(p, order, MessageUpdateHook, [NeoMessage(refetched.value)], eval)
      else [];
    if event.content.Some? then
      var replaced := Replace(p, event.id, event.content.value, compile);
      Step(reg[event.channel := replaced.partition], notified + replaced.feedback)
    else
      Step(reg[event.channel := p], notified)
  }

  /** How the stages of `message` make up `MessageStep`, when the message is
      a script block. */
  lemma MessageCreates(v0: RegistryView, v1: RegistryView, v2: RegistryView,
                       log0: seq<Feedback>, log1: seq<Feedback>, log2: seq<Feedback>,
                       msg: Message, order: seq<MessageId>, compile: Compiler, eval: Evaluator, code: string)
    requires msg.guild.Some? && !msg.author.bot && ParseNeoBlock(msg.content) == Some(code)
    requires v1 == v0[msg.channel := PartitionOf(v0, msg.channel)]
    requires log1 == log0 + DispatchFeedback(v1[msg.channel], order, MessageHook, [NeoMessage(msg)], eval)
    requires v2 == v1[msg.channel := Create(v1[msg.channel], msg.id, code, msg, compile).partition]
    requires log2 == log1 + Create(v1[msg.channel], msg.id, code, msg, compile).feedback
    ensures v2 == MessageStep(v0, msg, order, compile, eval).registry
    ensures log2 == log0 + MessageStep(v0, msg, order, compile, eval).feedback
  {
    var created := Create(v1[msg.channel], msg.id, code, msg, compile);
    UpdateTwice(v0, msg.channel, PartitionOf(v0, msg.channel), created.partition);
    AppendAssoc(log0, log1[|log0|..], created.feedback);
  }

  /** How the stages of `message` make up `MessageStep`, when the message is
      not a script block. */
  lemma MessageIgnores(v0: RegistryView, v1: RegistryView, log0: seq<Feedback>, log1: seq<Feedback>,
                       msg: Message, order: seq<MessageId>, compile: Compiler, eval: Evaluator)
    requires msg.guild.Some? && !msg.author.bot && ParseNeoBlock(msg.content).None?
    requires v1 == v0[msg.channel := PartitionOf(v0, msg.channel)]
    requires log1 == log0 + DispatchFeedback(v1[msg.channel], order, MessageHook, [NeoMessage(msg)], eval)
    ensures v1 == MessageStep(v0, msg, order, compile, eval).registry
    ensures log1 == log0 + MessageStep(v0, msg, order, compile, eval).feedback
  {
  }

  /** How the stages of `message_update` make up `MessageUpdateStep`. */
  lemma MessageUpdateRealised(v0: RegistryView, v1: RegistryView, v2: RegistryView,
                              log0: seq<Feedback>, log1: seq<Feedback>, log2: seq<Feedback>,
                              event: MessageUpdateEvent, refetched: Option<Message>, order: seq<MessageId>,
                              compile: Compiler, eval: Evaluator)
    requires v1 == v0[event.channel := PartitionOf(v0, event.channel)]
    requires log1 == log0 +
      if refetched.Some? then DispatchFeedback(v1[event.channel], order, MessageUpdateHook, [NeoMessage(refetched.value)], eval)
      else []
    requires event.content.Some? ==>
      var replaced := Replace(v1[event.channel], event.id, event.content.value, compile);
      v2 == v1[event.channel := replaced.partition] && log2 == log1 + replaced.feedback
    requires event.content.None? ==> v2 == v1 && log2 == log1
    ensures v2 == MessageUpdateStep(v0, event, refetched, order, compile, eval).registry
    ensures log2 == log0 + MessageUpdateStep(v0, event, refetched, order, compile, eval).feedback
  {
    if event.content.Some? {
      var notified := log1[|log0|..];
      var replaced := Replace(v1[event.channel], event.id, event.content.value, compile);
      UpdateTwice(v0, event.channel, PartitionOf(v0, event.channel), replaced.partition);
      AppendAssoc(log0, notified, replaced.feedback);
    }
  }

  lemma UpdateTwice(reg: RegistryView, c: ChannelId, a: Partition, b: Partition)
    ensures reg[c := a][c := b] == reg[c := b]
  {
  }

  lemma AppendAssoc(a: seq<Feedback>, b: seq<Feedback>, c: seq<Feedback>)
    ensures (a + b) + c == a + (b + c)
  {
  }

  /** How removing, clearing and recreating make up `Replace`. */
  lemma ReplaceRealised(v0: RegistryView, v1: RegistryView, v2: RegistryView,
                        log0: seq<Feedback>, log1: seq<Feedback>, log2: seq<Feedback>,
                        c: ChannelId, k: MessageId, content: string, compile: Compiler,
                        present: bool, src: Message)
    requires c in v0
    requires present <==> k in v0[c]
    requires present ==> src == v0[c][k].sourceMsg && src.Origin() == OriginId(c, k)
    requires v1 == v0[c := v0[c] - {k}]
    requires log1 == log0 + if present then [DeleteReactions(OriginId(c, k))] else []
    requires present && ParseNeoBlock(content).Some? ==>
      var created := Create(v1[c], k, ParseNeoBlock(content).value, src, compile);
      v2 == v1[c := created.partition] && log2 == log1 + created.feedback
    requires !(present && ParseNeoBlock(content).Some?) ==> v2 == v1 && log2 == log1
    ensures v2 == v0[c := Replace(v0[c], k, content, compile).partition]
    ensures log2 == log0 + Replace(v0[c], k, content, compile).feedback
  {
    if present && ParseNeoBlock(content).Some? {
      var created := Create(v1[c], k, ParseNeoBlock(content).value, src, compile);
      UpdateTwice(v0, c, v0[c] - {k}, created.partition);
      AppendAssoc(log0, log1[|log0|..], created.feedback);
    }
  }

  /** `reaction_add` on the partition of the reacted-to message, once the
      reactor is known to be human: only the author of the script's origin
      message toggles it; the success glyph disables the script and the
      failure glyph enables it; any other reaction changes nothing. */
  function Toggle(p: Partition, k: MessageId, userId: UserId, emoji: ReactionType): (r: Change)
    ensures r.partition.Keys == p.Keys
    ensures forall j :: j in p && j != k ==> r.partition[j] == p[j]
    ensures forall j :: j in p ==>
      r.partition[j].sourceMsg == p[j].sourceMsg && r.partition[j].engine == p[j].engine
  {
    if k in p && userId == p[k].sourceMsg.author.id then
      if emoji == ReactSuccess() then
        Change(p[k := WithStatus(p[k], false)], StatusFeedback(p[k], false))
      else if emoji == ReactFailure() then
        Change(p[k := WithStatus(p[k], true)], StatusFeedback(p[k], true))
      else
        Change(p, [])
    else
      Change(p, [])
  }

  /** `Handler::reaction_add`; `reactor` is the result of looking up the
      reacting user. */
  function ReactionAddStep(reg: RegistryView, reaction: Reaction, reactor: Option<User>): Step {
    if CountsAsBot(reactor) then Step(reg, [])
    else
      var c := reaction.channel;
      var toggled := Toggle(PartitionOf(reg, c), reaction.messageId, reaction.userId, reaction.emoji);
      Step(reg[c := toggled.partition], toggled.feedback)
  }

  /** How the stages of `reaction_add` make up `ReactionAddStep`. */
  lemma ReactionAddRealised(v0: RegistryView, v1: RegistryView, v2: RegistryView,
                            log0: seq<Feedback>, log2: seq<Feedback>,
                            reaction: Reaction, reactor: Option<User>)
    requires !CountsAsBot(reactor)
    requires v1 == v0[reaction.channel := PartitionOf(v0, reaction.channel)]
    requires var toggled := Toggle(v1[reaction.channel], reaction.messageId, reaction.userId, reaction.emoji);
      v2 == v1[reaction.channel := toggled.partition] && log2 == log0 + toggled.feedback
    ensures v2 == ReactionAddStep(v0, reaction, reactor).registry
    ensures log2 == log0 + ReactionAddStep(v0, reaction, reactor).feedback
  {
  }

  /** The registry object the handlers share. `view` is its value: the
      state of every stored script, by channel and message id. */
  class Registry {
    var scripts: map<ChannelId, map<MessageId, Script>>
    ghost var view: RegistryView
    /** The script objects the registry may hold. */
    ghost var repr: set<Script>

    /** `view` is the value of `scripts`, and every script object is stored
        under its own origin; in particular no object is stored under two
        keys. */
    ghost predicate Valid()
      reads this, repr
    {
      view.Keys == scripts.Keys &&
      forall c :: c in scripts ==> scripts[c].Values <= repr && Holds(scripts[c], view[c], c)
    }

    /** A valid registry stores every script under its own origin. */
    lemma ValidAnchored()
      requires Valid()
      ensures Anchored(view)
    {
      forall c, k | c in view && k in view[c] ensures view[c][k].sourceMsg.Origin() == OriginId(c, k) {
        assert HoldsAt(scripts[c][k], view[c][k], c, k);
      }
    }

    constructor ()
      ensures Valid() && view == map[] && repr == {}
    {
      scripts := map[];
      view := map[];
      repr := {};
    }

    /** `entry(c).or_insert_with(HashMap::new)`: the partition of `c`,
        created empty if absent. */
    method Entry(c: ChannelId) returns (p: map<MessageId, Script>)
      requires Valid()
      modifies this
      ensures Valid()
      ensures p == (if c in old(scripts) then old(scripts)[c] else map[])
      ensures scripts == old(scripts)[c := p] && repr == old(repr)
      ensures view == old(view)[c := PartitionOf(old(view), c)]
    {
      p := if c in scripts then scripts[c] else map[];
      scripts := scripts[c := p];
      view := view[c := PartitionOf(view, c)];
    }

    /** `insert(k, script)` into the partition of `c`. */
    method Insert(c: ChannelId, k: MessageId, script: Script)
      requires Valid() && c in scripts
      requires script.sourceMsg.Origin() == OriginId(c, k)
      modifies this
      ensures Valid() && repr == old(repr) + {script}
      ensures var p: Partition := old(view)[c];
        view == old(view)[c := p[k := script.State()]]
    {
      var p := scripts[c];
      var q: Partition := view[c];
      HoldsInsert(p, q, c, k, script);
      scripts, repr, view := scripts[c := p[k := script]], repr + {script}, view[c := q[k := script.State()]];
      forall c' | c' in scripts && c' != c ensures Holds(scripts[c'], view[c'], c') {
        HoldsUnchanged(scripts[c'], view[c'], c');
      }
    }

    /** `remove(k)` from the partition of `c`, returning what was there. */
    method Remove(c: ChannelId, k: MessageId) returns (prior: Script?)
      requires Valid() && c in scripts
      modifies this
      ensures Valid() && repr == old(repr)
      ensures prior == null <==> k !in old(view)[c]
      ensures prior != null ==> prior.State() == old(view)[c][k]
      ensures prior != null ==> prior.sourceMsg.Origin() == OriginId(c, k)
      ensures view == old(view)[c := old(view)[c] - {k}]
    {
      var p := scripts[c];
      prior := if k in p then p[k] else null;
      var rest: map<MessageId, Script> := p - {k};
      HoldsRemove(p, view[c], c, k);
      scripts, view := scripts[c := rest], view[c := view[c] - {k}];
      forall c' | c' in scripts && c' != c ensures Holds(scripts[c'], view[c'], c') {
        HoldsUnchanged(scripts[c'], view[c'], c');
      }
    }

    /** The dispatch loop over the partition of `c`; the registry itself
        is not changed. */
    method DispatchChannel(ctx: Context, c: ChannelId, hook: string, args: seq<Arg>, eval: Evaluator)
      returns (ghost order: seq<MessageId>)
      requires Valid() && c in scripts
      modifies ctx
      ensures Valid()
      ensures Enumerates(order, view[c].Keys)
      ensures ctx.log == old(ctx.log) + DispatchFeedback(view[c], order, hook, args, eval)
    {
      order := Dispatch(ctx, scripts[c], view[c], hook, args, eval);
    }

    /** `if let Some(script) = remove(k) { script.source_msg.delete_reactions() }`
        on the partition of `c`; the removed script, if any, is returned. */
    method Retire(ctx: Context, c: ChannelId, k: MessageId) returns (prior: Script?)
      requires Valid() && c in scripts
      modifies this, ctx
      ensures Valid() && repr == old(repr)
      ensures prior == null <==> k !in old(view)[c]
      ensures prior != null ==> prior.State() == old(view)[c][k]
      ensures prior != null ==> prior.sourceMsg.Origin() == OriginId(c, k)
      ensures view == old(view)[c := old(view)[c] - {k}]
      ensures ctx.log == old(ctx.log) + (if prior == null then [] else [DeleteReactions(OriginId(c, k))])
    {
      prior := Remove(c, k);
      if prior != null {
        ctx.DeleteReactions(prior.sourceMsg.Origin());
      }
    }

    /** `if let Some(script) = Script::new(code, .., sourceMsg) {
        insert(k, script) }` on the partition of `c`. */
    method CreateScript(ctx: Context, c: ChannelId, k: MessageId, code: string, sourceMsg: Message,
                        compile: Compiler)
      requires Valid() && c in scripts && sourceMsg.Origin() == OriginId(c, k)
      modifies this, ctx
      ensures Valid() && fresh(repr - old(repr))
      ensures view == old(view)[c := Create(old(view)[c], k, code, sourceMsg, compile).partition]
      ensures ctx.log == old(ctx.log) + Create(old(view)[c], k, code, sourceMsg, compile).feedback
    {
      var script := Script.New(code, ctx, sourceMsg, compile);
      if script != null {
        Insert(c, k, script);
      }
    }

    /** The edit path of `message_update` on the partition of `c`. */
    method ReplaceScript(ctx: Context, c: ChannelId, k: MessageId, content: string, compile: Compiler)
      requires Valid() && c in scripts
      modifies this, ctx
      ensures Valid() && fresh(repr - old(repr))
      ensures view == old(view)[c := Replace(old(view)[c], k, content, compile).partition]
      ensures ctx.log == old(ctx.log) + Replace(old(view)[c], k, content, compile).feedback
    {
      var prior := Retire(ctx, c, k);
      ghost var retired, cleared, held := view, ctx.log, repr;
      ghost var src := if prior != null then prior.sourceMsg else Message(0, 0, None, User(0, false), "");
      if prior != null {
        var parsed := ParseNeoBlock(content);
        if parsed.Some? {
          CreateScript(ctx, c, k, parsed.value, prior.sourceMsg, compile);
        }
      }
      assert fresh(repr - old(repr)) by {
        assert held == old(repr) && fresh(repr - held);
      }
      ReplaceRealised(old(view), retired, view, old(ctx.log), cleared, ctx.log, c, k, content, compile,
                      prior != null, src);
    }

    /** `set_status` on the script stored under (`c`, `k`), reached through
        `get_mut`: that script's flag changes and nothing else does. */
    method SetScriptStatus(ctx: Context, c: ChannelId, k: MessageId, desired: bool)
      requires Valid() && c in scripts && k in scripts[c]
      modifies this, scripts[c][k], ctx
      ensures Valid() && repr == old(repr)
      ensures var p: Partition := old(view)[c];
        view == old(view)[c := p[k := WithStatus(p[k], desired)]]
      ensures ctx.log == old(ctx.log) + StatusFeedback(old(view)[c][k], desired)
    {
      var script := scripts[c][k];
      ghost var p, q := scripts[c], view[c];
      HeldOnlyUnderOwnKey(p, q, c, k);
      forall c' | c' in scripts && c' != c ensures script !in scripts[c'].Values {
        HeldOnlyInOwnChannel(scripts[c'], view[c'], c', script);
      }
      ghost var q': Partition := q[k := WithStatus(q[k], desired)];
      view := view[c := q'];
      script.SetStatus(desired, ctx);
      HoldsAfterUpdate(p, q, c, k);
      forall c' | c' in scripts && c' != c ensures Holds(scripts[c'], view[c'], c') {
        HoldsUnchanged(scripts[c'], view[c'], c');
      }
    }

    /** The body of `reaction_add` on the partition of `c`, reached through
        `get_mut`. */
    method ToggleScript(ctx: Context, c: ChannelId, k: MessageId, userId: UserId, emoji: ReactionType)
      requires Valid() && c in scripts
      modifies this, ctx, repr
      ensures Valid() && repr == old(repr)
      ensures view == old(view)[c := Toggle(old(view)[c], k, userId, emoji).partition]
      ensures ctx.log == old(ctx.log) + Toggle(old(view)[c], k, userId, emoji).feedback
    {
      var p := scripts[c];
      if k in p && userId == p[k].sourceMsg.author.id {
        if emoji == ReactSuccess() {
          SetScriptStatus(ctx, c, k, false);
        } else if emoji == ReactFailure() {
          SetScriptStatus(ctx, c, k, true);
        }
      }
    }

    /** `Handler::message`. */
    method HandleMessage(ctx: Context, msg: Message, compile: Compiler, eval: Evaluator)
      returns (ghost order: seq<MessageId>)
      requires Valid()
      modifies this, ctx
      ensures Valid() && fresh(repr - old(repr))
      ensures msg.guild.Some? && !msg.author.bot ==>
        Enumerates(order, PartitionOf(old(view), msg.channel).Keys)
      ensures view == MessageStep(old(view), msg, order, compile, eval).registry
      ensures ctx.log == old(ctx.log) + MessageStep(old(view), msg, order, compile, eval).feedback
    {
      order := [];
      var guildId := SomeOrReturn(msg.guild);
      if guildId.Return? {
        return;
      }
      if msg.author.bot {
        return;
      }
      var c := msg.channel;
      var _ := Entry(c);
      ghost var entered := view;
      order := DispatchChannel(ctx, c, MessageHook, [NeoMessage(msg)], eval);
      ghost var notified := ctx.log;
      var parsed := ParseNeoBlock(msg.content);
      if parsed.Some? {
        CreateScript(ctx, c, msg.id, parsed.value, msg, compile);
        MessageCreates(old(view), entered, view, old(ctx.log), notified, ctx.log, msg, order, compile, eval, parsed.value);
      } else {
        MessageIgnores(old(view), entered, old(ctx.log), notified, msg, order, compile, eval);
      }
    }

    /** `Handler::message_update`. */
    method HandleMessageUpdate(ctx: Context, event: MessageUpdateEvent, refetched: Option<Message>,
                               compile: Compiler, eval: Evaluator)
      returns (ghost order: seq<MessageId>)
      requires Valid()
      modifies this, ctx
      ensures Valid() && fresh(repr - old(repr))
      ensures refetched.Some? ==> Enumerates(order, PartitionOf(old(view), event.channel).Keys)
      ensures view == MessageUpdateStep(old(view), event, refetched, order, compile, eval).registry
      ensures ctx.log == old(ctx.log) + MessageUpdateStep(old(view), event, refetched, order, compile, eval).feedback
    {
      order := [];
      var c := event.channel;
      var _ := Entry(c);
      ghost var entered := view;
      if refetched.Some? {
        order := DispatchChannel(ctx, c, MessageUpdateHook, [NeoMessage(refetched.value)], eval);
      }
      ghost var notified := ctx.log;
      if event.content.Some? {
        ReplaceScript(ctx, c, event.id, event.content.value, compile);
      }
      MessageUpdateRealised(old(view), entered, view, old(ctx.log), notified, ctx.log,
                            event, refetched, order, compile, eval);
    }

    /** `Handler::reaction_add`. */
    method HandleReactionAdd(ctx: Context, reaction: Reaction, reactor: Option<User>)
      requires Valid()
      modifies this, ctx, repr
      ensures Valid() && repr == old(repr)
      ensures view == ReactionAddStep(old(view), reaction, reactor).registry
      ensures ctx.log == old(ctx.log) + ReactionAddStep(old(view), reaction, reactor).feedback
    {
      if CountsAsBot(reactor) {
        return;
      }
      var c := reaction.channel;
      var _ := Entry(c);
      ghost var entered := view;
      ToggleScript(ctx, c, reaction.messageId, reaction.userId, reaction.emoji);
      ReactionAddRealised(old(view), entered, view, old(ctx.log), ctx.log, reaction, reactor);
    }
  }

  /** The script objects of `p` are each stored under their own origin in
      channel `c` and hold the states of `part`, key by key. */
  ghost predicate Holds(p: map<MessageId, Script>, part: Partition, c: ChannelId)
    reads p.Values
  {
    Represents(p, part) && forall k :: k in p ==> p[k].sourceMsg.Origin() == OriginId(c, k)
  }

  ghost predicate HoldsAt(s: Script, st: ScriptState, c: ChannelId, k: MessageId)
    reads s
  {
    s.sourceMsg.Origin() == OriginId(c, k) && s.State() == st
  }

  lemma HoldsInsert(p: map<MessageId, Script>, part: Partition, c: ChannelId, k: MessageId, s: Script)
    requires Holds(p, part, c) && s.sourceMsg.Origin() == OriginId(c, k)
    ensures Holds(p[k := s], part[k := s.State()], c)
  {
  }

  /** A script anchored in another channel is not one of `p`'s. */
  lemma HeldOnlyInOwnChannel(p: map<MessageId, Script>, part: Partition, c: ChannelId, s: Script)
    requires Holds(p, part, c) && s.sourceMsg.Origin().channel != c
    ensures s !in p.Values
  {
    forall k | k in p ensures p[k] != s {
      assert HoldsAt(p[k], part[k], c, k);
    }
  }

  /** No script of `p` is stored under two keys. */
  lemma HeldOnlyUnderOwnKey(p: map<MessageId, Script>, part: Partition, c: ChannelId, k: MessageId)
    requires Holds(p, part, c) && k in p
    ensures forall j :: j in p && j != k ==> p[j] != p[k]
  {
    forall j | j in p && j != k ensures p[j] != p[k] {
      assert HoldsAt(p[j], part[j], c, j) && HoldsAt(p[k], part[k], c, k);
    }
  }

  /** Changing the script under `k`, and only it, keeps `p` holding the
      partition with that script's new state. */
  twostate lemma HoldsAfterUpdate(new p: map<MessageId, Script>, new part: Partition, new c: ChannelId, new k: MessageId)
    requires old(allocated(p)) && old(Holds(p, part, c)) && k in p
    requires forall j :: j in p && j != k ==> unchanged(p[j])
    ensures Holds(p, part[k := p[k].State()], c)
  {
    forall j | j in p ensures HoldsAt(p[j], part[k := p[k].State()][j], c, j) {
      assert old(HoldsAt(p[j], part[j], c, j));
    }
  }

  /** A partition none of whose scripts changed still holds. */
  twostate lemma HoldsUnchanged(new p: map<MessageId, Script>, new part: Partition, new c: ChannelId)
    requires old(allocated(p)) && old(Holds(p, part, c))
    requires forall j :: j in p ==> unchanged(p[j])
    ensures Holds(p, part, c)
  {
    forall j | j in p ensures HoldsAt(p[j], part[j], c, j) {
      assert old(HoldsAt(p[j], part[j], c, j));
    }
  }

  lemma HoldsRemove(p: map<MessageId, Script>, part: Partition, c: ChannelId, k: MessageId)
    requires Holds(p, part, c)
    ensures Holds(p - {k}, part - {k}, c) && (p - {k}).Values <= p.Values
    ensures k in p ==> HoldsAt(p[k], part[k], c, k)
  {
  }

  /** The script objects of `p` hold the states of `part`, key by key. */
  ghost predicate Represents(p: map<MessageId, Script>, part: Partition)
    reads p.Values
  {
    p.Keys == part.Keys && forall k :: k in p ==> p[k].State() == part[k]
  }

  /** The dispatch loop, `values_mut().for_each(|script| script.notify(..))`:
      every script of the partition is notified exactly once, in an order
      the hash map chooses. An error the interpreter returns from one
      script's hook does not stop the loop. */
  method Dispatch(ctx: Context, p: map<MessageId, Script>, ghost part: Partition,
                  hook: string, args: seq<Arg>, eval: Evaluator)
    returns (ghost order: seq<MessageId>)
    requires Represents(p, part)
    modifies ctx
    ensures Enumerates(order, p.Keys)
    ensures ctx.log == old(ctx.log) + DispatchFeedback(part, order, hook, args, eval)
  {
    var keys := p.Keys;
    order := [];
    while keys != {}
      invariant Splits(order, keys, p.Keys)
      invariant ctx.log == old(ctx.log) + DispatchFeedback(part, order, hook, args, eval)
      decreases keys
    {
      var k :| k in keys;
      p[k].Notify(ctx, hook, args, eval);
      DispatchExtend(old(ctx.log), part, order, k, hook, args, eval);
      SplitsStep(order, keys, p.Keys, k);
      order := order + [k];
      keys := keys - {k};
    }
    SplitsDone(order, p.Keys);
  }

  /** `order` and `keys` split `all`: `order` lists the keys already
      visited, each once, and `keys` holds the rest. */
  ghost predicate Splits(order: seq<MessageId>, keys: set<MessageId>, all: set<MessageId>) {
    keys <= all && Distinct(order) &&
    (forall k :: k in order ==> k in all && k !in keys) &&
    (forall k :: k in all ==> k in keys || k in order)
  }

  lemma SplitsStep(order: seq<MessageId>, keys: set<MessageId>, all: set<MessageId>, k: MessageId)
    requires Splits(order, keys, all) && k in keys
    ensures Splits(order + [k], keys - {k}, all)
  {
  }

  lemma SplitsDone(order: seq<MessageId>, all: set<MessageId>)
    requires Splits(order, {}, all)
    ensures Enumerates(order, all)
  {
  }

  /** Notifying one more script extends the dispatch feedback by that
      script's feedback. */
  lemma DispatchExtend(log: seq<Feedback>, part: Partition, order: seq<MessageId>, k: MessageId,
                       hook: string, args: seq<Arg>, eval: Evaluator)
    requires k in part
    ensures log + DispatchFeedback(part, order, hook, args, eval) + NotifyFeedback(part[k], hook, args, eval) ==
            log + DispatchFeedback(part, order + [k], hook, args, eval)
  {
    DispatchAppend(part, order, [k], hook, args, eval);
    assert [k][1..] == [];
    AppendAssoc(log, DispatchFeedback(part, order, hook, args, eval), NotifyFeedback(part[k], hook, args, eval));
  }

  /** Dispatching over two runs of keys is dispatching over each in turn. */
  lemma {:induction false} DispatchAppend(p: Partition, a: seq<MessageId>, b: seq<MessageId>,
                                          hook: string, args: seq<Arg>, eval: Evaluator)
    ensures DispatchFeedback(p, a + b, hook, args, eval) ==
            DispatchFeedback(p, a, hook, args, eval) + DispatchFeedback(p, b, hook, args, eval)
  {
    if a == [] {
      assert a + b == b;
    } else {
      assert (a + b)[0] == a[0];
      assert (a + b)[1..] == a[1..] + b;
      DispatchAppend(p, a[1..], b, hook, args, eval);
      var head := KeyFeedback(p, a[0], hook, args, eval);
      calc {
        DispatchFeedback(p, a + b, hook, args, eval);
        head + DispatchFeedback(p, a[1..] + b, hook, args, eval);
        head + (DispatchFeedback(p, a[1..], hook, args, eval) + DispatchFeedback(p, b, hook, args, eval));
        (head + DispatchFeedback(p, a[1..], hook, args, eval)) + DispatchFeedback(p, b, hook, args, eval);
      }
    }
  }
}
