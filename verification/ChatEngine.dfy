/**
  One chat turn as a transaction over the cache, the sampler, the position and the
  history, and the invariant that every turn and reset keeps.
  */
module ChatEngine {
  import opened Wrappers
  import opened Transformer
  import opened Schedules
  import opened KvCache
  import opened CachedForward
  import opened Utf8
  import opened ChatStream
  import opened ChatText

  const LLAMA3_EOT_ID: nat := 128009
  const PREFILL_CHUNK_SIZE: nat := 32

  // ---------------------------------------------------------------------------
  // Sampler
  // ---------------------------------------------------------------------------

  /** Logits of a hidden state, and the choice a sampler makes from logits, history and generator state. */
  datatype Policy<!F> = Policy(logits: seq<F> -> Option<seq<F>>,
                               choose: (seq<F>, seq<nat>, nat) -> (Option<nat>, nat))

  class Sampler<F(!new)> {
    const policy: Policy<F>
    var rng: nat
    var history: seq<nat>

    constructor (policy: Policy<F>, seed: nat)
      ensures this.policy == policy && rng == seed && history == []
    {
      this.policy := policy;
      rng := seed;
      history := [];
    }

    method Observe(id: nat)
      modifies `history
      ensures history == old(history) + [id]
    {
      history := history + [id];
    }

    /** A choice may advance the generator even when it fails. */
    method Sample(logits: seq<F>) returns (next: Option<nat>)
      modifies `rng
      ensures (next, rng) == policy.choose(logits, history, old(rng))
    {
      var r := policy.choose(logits, history, rng);
      next, rng := r.0, r.1;
    }

    /** Back to a checkpoint: the generator's state and the history's length. */
    method Rollback(rngState: nat, historyLen: nat)
      modifies this
      ensures rng == rngState && history == Truncate(old(history), historyLen)
    {
      rng := rngState;
      history := Truncate(history, historyLen);
    }
  }

  // ---------------------------------------------------------------------------
  // Prompts and transcripts
  // ---------------------------------------------------------------------------

  datatype Role = System | User | Assistant
  datatype ChatMessage = ChatMessage(role: Role, content: string)

  datatype ChatTemplate = BitNetText | ChatMl(stopId: nat)

  /** The tokenizer as the engine uses it. */
  datatype Tokenizer = Tokenizer(
    eosId: Option<nat>,
    encode: (string, bool) -> Option<seq<nat>>,
    encodeChatmlTurn: (Option<string>, string) -> Option<seq<nat>>,
    encodeChatmlFollowUp: string -> Option<seq<nat>>,
    decodeToBytes: nat -> Option<seq<byte>>,
    chatmlMarkers: Option<(nat, nat)>)

  predicate UsesChatml(architecture: string) {
    architecture == "llama" || architecture == "qwen2"
  }

  /** The template of an architecture; the stop token is the second marker. */
  function TemplateOf(tok: Tokenizer, architecture: string): ChatTemplate {
    if UsesChatml(architecture) && tok.chatmlMarkers.Some? then ChatMl(tok.chatmlMarkers.value.1) else BitNetText
  }

  /** The text of a turn and whether it opens with the beginning-of-text token. */
  function BuildChatFragment(first: bool, system: Option<string>, user: string): (string, bool) {
    if first then
      ((if system.Some? then system.value + "\n\nHuman: " else "Human: ") + user + "\n\nBITNETAssistant: ", true)
    else
      ("\n\nHuman: " + user + "\n\nBITNETAssistant: ", false)
  }

  function BuildPromptTokens(tok: Tokenizer, template: ChatTemplate, first: bool, system: Option<string>, user: string): Option<seq<nat>> {
    if template.BitNetText? then
      var (fragment, bos) := BuildChatFragment(first, system, user);
      tok.encode(fragment, bos)
    else if first then tok.encodeChatmlTurn(system, user)
    else tok.encodeChatmlFollowUp(user)
  }

  /** A committed turn: what was asked, the prompt it became, the tokens generated, the reply recorded. */
  datatype Turn = Turn(user: string, system: Option<string>, prompt: seq<nat>, generated: seq<nat>, reply: string)

  /** The tokens of the committed turns, prompt then generated, in order. */
  function Tokens(turns: seq<Turn>): seq<nat> {
    if turns == [] then [] else
    var t := turns[|turns| - 1];
    Tokens(turns[..|turns| - 1]) + t.prompt + t.generated
  }

  function Messages(turns: seq<Turn>): (h: seq<ChatMessage>)
    ensures |h| == 2 * |turns|
  {
    if turns == [] then [] else
    var t := turns[|turns| - 1];
    Messages(turns[..|turns| - 1]) + [ChatMessage(User, t.user), ChatMessage(Assistant, t.reply)]
  }

  /** Every prompt was built for its place: the opening template for the first turn, the follow-up for the rest. */
  ghost predicate PromptsInPlace(tok: Tokenizer, template: ChatTemplate, turns: seq<Turn>) {
    forall i :: 0 <= i < |turns| ==>
      && turns[i].prompt != []
      && BuildPromptTokens(tok, template, i == 0, turns[i].system, turns[i].user) == Some(turns[i].prompt)
  }

  /** The stores a fresh cache has after a token stream; none when the stream does not run. */
  ghost function StoresAfter<F>(m: Model<F>, cap: nat, tokens: seq<nat>): Option<Cache<F>> {
    match RunTokens(m, cap, EmptyCache(m.dims.nLayers), tokens, 0)
    case None => None
    case Some((_, cs)) => Some(cs)
  }

  /** The hidden state after a token stream that runs. */
  ghost function HiddenAfter<F>(m: Model<F>, cap: nat, tokens: seq<nat>): seq<F>
    requires StoresAfter(m, cap, tokens).Some?
  {
    RunTokens(m, cap, EmptyCache(m.dims.nLayers), tokens, 0).value.0
  }

  lemma StoresAfterMore<F>(m: Model<F>, cap: nat, before: seq<nat>, more: seq<nat>)
    requires StoresAfter(m, cap, before).Some?
    ensures var cs := StoresAfter(m, cap, before).value;
            var run := RunTokens(m, cap, cs, more, |before|);
            && StoresAfter(m, cap, before + more) == (if run.Some? then Some(run.value.1) else None)
            && (run.Some? && more != [] ==> HiddenAfter(m, cap, before + more) == run.value.0)
  {
    hide TokenForward;
    RunSplit(m, cap, EmptyCache(m.dims.nLayers), before, more, 0);
    if more == [] {
      assert before + more == before;
    }
  }

  lemma StoresAfterShape<F>(m: Model<F>, cap: nat, tokens: seq<nat>)
    requires StoresAfter(m, cap, tokens).Some?
    ensures var cs := StoresAfter(m, cap, tokens).value;
            && |cs| == m.dims.nLayers && Fits(cap, cs)
            && forall l :: 0 <= l < |cs| ==> |cs[l]| == |tokens|
  {
    hide TokenForward;
    RunExtends(m, cap, EmptyCache(m.dims.nLayers), tokens, 0);
  }

  // ---------------------------------------------------------------------------
  // A turn as a function of what it starts from
  // ---------------------------------------------------------------------------

  /** Everything a turn consults besides its state; the cancel flag is what it reads at the n-th poll. */
  datatype Env<!F> = Env(m: Model<F>, cap: nat, policy: Policy<F>, tok: Tokenizer, template: ChatTemplate,
                         cancelAt: nat -> bool)

  predicate IsStop(tok: Tokenizer, template: ChatTemplate, next: nat) {
    Some(next) == tok.eosId || next == LLAMA3_EOT_ID || template == ChatMl(next)
  }

  /** What a decode round meets: the step, the token sampled, the generator's state kept. */
  datatype Met = Met(step: Step, next: nat, rng: nat)

  /** The round after `tokens`: the sampler chooses from the logits of the hidden state those tokens lead to. */
  ghost function Meet<F>(e: Env<F>, tokens: seq<nat>, observed: seq<nat>, rng: nat, polls: nat): Met
    requires StoresAfter(e.m, e.cap, tokens).Some?
  {
    if e.cancelAt(polls) then Met(Cancel, 0, rng) else
    match e.policy.logits(HiddenAfter(e.m, e.cap, tokens))
    case None => Met(LogitsError, 0, rng)
    case Some(logits) =>
      var (next, after) := e.policy.choose(logits, observed, rng);
      if next.None? then Met(SampleError, 0, rng)
      else if IsStop(e.tok, e.template, next.value) then Met(StopToken, next.value, after)
      else
        var runs := StoresAfter(e.m, e.cap, tokens + [next.value]).Some?;
        Met(Token(e.tok.decodeToBytes(next.value), runs), next.value, if runs then after else rng)
  }

  /** A decode loop: the steps it met, the tokens it kept, the generator and the poll count it left. */
  datatype Decoding = Decoding(script: seq<Step>, generated: seq<nat>, rng: nat, polls: nat)

  ghost function Decode<F>(e: Env<F>, tokens: seq<nat>, observed: seq<nat>, rng: nat, polls: nat, s: Stream, steps: nat): Decoding
    requires StoresAfter(e.m, e.cap, tokens).Some? && s.flushed <= |s.response|
    decreases steps
  {
    if steps == 0 then Decoding([], [], rng, polls) else
    var x := Meet(e, tokens, observed, rng, polls);
    var kept := if x.step.Token? && x.step.forwarded then [x.next] else [];
    match Round(e.template.BitNetText?, s, x.step)
    case None => Decoding([x.step], kept, x.rng, polls + 1)
    case Some(s1) =>
      var rest := Decode(e, tokens + kept, observed + kept, x.rng, polls + 1, s1, steps - 1);
      Decoding([x.step] + rest.script, kept + rest.generated, rest.rng, rest.polls)
  }

  /** Steps and tokens already met, put before those still to come. */
  function After(script: seq<Step>, generated: seq<nat>, rest: Decoding): Decoding {
    Decoding(script + rest.script, generated + rest.generated, rest.rng, rest.polls)
  }

  lemma AfterMore(script: seq<Step>, generated: seq<nat>, x: Step, kept: seq<nat>, rest: Decoding)
    ensures After(script, generated, After([x], kept, rest)) == After(script + [x], generated + kept, rest)
    ensures After([], [], rest) == rest
  {
    assert script + ([x] + rest.script) == script + [x] + rest.script;
    assert generated + (kept + rest.generated) == generated + kept + rest.generated;
    assert [] + rest.script == rest.script && [] + rest.generated == rest.generated;
  }

  /** The first round of a loop, and the loop that is left. */
  lemma DecodeUnfolds<F>(e: Env<F>, tokens: seq<nat>, observed: seq<nat>, rng: nat, polls: nat, s: Stream, steps: nat)
    returns (rest: Decoding)
    requires StoresAfter(e.m, e.cap, tokens).Some? && s.flushed <= |s.response| && steps > 0
    ensures var x := Meet(e, tokens, observed, rng, polls);
      var kept := if x.step.Token? && x.step.forwarded then [x.next] else [];
      && Decode(e, tokens, observed, rng, polls, s, steps) == After([x.step], kept, rest)
      && match Round(e.template.BitNetText?, s, x.step)
         case None => rest == Decoding([], [], x.rng, polls + 1)
         case Some(s1) =>
           && StoresAfter(e.m, e.cap, tokens + kept).Some?
           && rest == Decode(e, tokens + kept, observed + kept, x.rng, polls + 1, s1, steps - 1)
  {
    hide StoresAfter, HiddenAfter, AppendTokenBytes, FlushSafeWindow, TruncatedAtStop;
    var x := Meet(e, tokens, observed, rng, polls);
    var kept := if x.step.Token? && x.step.forwarded then [x.next] else [];
    match Round(e.template.BitNetText?, s, x.step) {
      case None =>
        rest := Decoding([], [], x.rng, polls + 1);
        assert [x.step] + [] == [x.step] && kept + [] == kept;
      case Some(s1) =>
        rest := Decode(e, tokens + kept, observed + kept, x.rng, polls + 1, s1, steps - 1);
    }
  }

  /** A loop some way in, one round later. */
  lemma LoopOneRoundOn<F>(e: Env<F>, script: seq<Step>, generated: seq<nat>, tokens: seq<nat>, observed: seq<nat>, rng: nat, polls: nat, s: Stream, steps: nat)
    requires StoresAfter(e.m, e.cap, tokens).Some? && s.flushed <= |s.response| && steps > 0
    ensures var x := Meet(e, tokens, observed, rng, polls);
      var kept := if x.step.Token? && x.step.forwarded then [x.next] else [];
      var all := After(script, generated, Decode(e, tokens, observed, rng, polls, s, steps));
      match Round(e.template.BitNetText?, s, x.step)
      case None => all == Decoding(script + [x.step], generated + kept, x.rng, polls + 1)
      case Some(s1) =>
        && StoresAfter(e.m, e.cap, tokens + kept).Some?
        && all == After(script + [x.step], generated + kept, Decode(e, tokens + kept, observed + kept, x.rng, polls + 1, s1, steps - 1))
  {
    hide StoresAfter, Decode, Meet, Round;
    var rest := DecodeUnfolds(e, tokens, observed, rng, polls, s, steps);
    var x := Meet(e, tokens, observed, rng, polls);
    var kept := if x.step.Token? && x.step.forwarded then [x.next] else [];
    AfterMore(script, generated, x.step, kept, rest);
    AfterAll(script + [x.step], generated + kept, x.rng, polls + 1);
  }

  lemma AfterAll(script: seq<Step>, generated: seq<nat>, rng: nat, polls: nat)
    ensures After(script, generated, Decoding([], [], rng, polls)) == Decoding(script, generated, rng, polls)
  {
    assert script + [] == script && generated + [] == generated;
  }

  lemma RoundsMore(bitnet: bool, script: seq<Step>, x: Step)
    requires Rounds(bitnet, EMPTY, script).Some?
    ensures Rounds(bitnet, EMPTY, script + [x]) == Round(bitnet, Rounds(bitnet, EMPTY, script).value, x)
  {
    hide Round;
    assert (script + [x])[..|script|] == script;
  }

  lemma NoRounds(bitnet: bool)
    ensures Rounds(bitnet, EMPTY, []) == Some(EMPTY)
  {
  }

  lemma NothingDecoded<F>(e: Env<F>, tokens: seq<nat>, observed: seq<nat>, rng: nat, polls: nat, s: Stream)
    requires StoresAfter(e.m, e.cap, tokens).Some? && s.flushed <= |s.response|
    ensures Decode(e, tokens, observed, rng, polls, s, 0) == Decoding([], [], rng, polls)
  {
  }

  datatype PrefillResult<F> = Ready(hidden: seq<F>) | PrefillCancelled | PrefillFailed

  /** Where prefilling a prompt stopped, how many of its tokens are in, and the polls made. */
  datatype Prefilled = AllIn(polls: nat) | CancelledAt(done: nat, polls: nat) | FailedAt(done: nat, polls: nat)

  /** The end of the chunk that starts at `offset`. */
  function ChunkEnd(length: nat, offset: nat): nat {
    if offset + PREFILL_CHUNK_SIZE <= length then offset + PREFILL_CHUNK_SIZE else length
  }

  /** A poll, then a chunk, until one poll is answered or one chunk does not run to a finite hidden state. */
  ghost function PrefillFrom<F>(e: Env<F>, before: seq<nat>, prompt: seq<nat>, offset: nat, polls: nat): (r: Prefilled)
    ensures r.AllIn? && offset < |prompt| ==> StoresAfter(e.m, e.cap, before + prompt).Some?
    decreases |prompt| - offset
  {
    if offset >= |prompt| then AllIn(polls)
    else if e.cancelAt(polls) then CancelledAt(offset, polls + 1)
    else
      var end := ChunkEnd(|prompt|, offset);
      assert prompt[..|prompt|] == prompt;
      var tokens := before + prompt[..end];
      if StoresAfter(e.m, e.cap, tokens).Some? && e.m.finite(HiddenAfter(e.m, e.cap, tokens))
      then PrefillFrom(e, before, prompt, end, polls + 1) else FailedAt(offset, polls + 1)
  }

  /** One poll and one chunk, and the prefill that is left. */
  lemma PrefillUnfolds<F>(e: Env<F>, before: seq<nat>, prompt: seq<nat>, offset: nat, polls: nat)
    ensures PrefillFrom(e, before, prompt, offset, polls) ==
            if offset >= |prompt| then AllIn(polls)
            else if e.cancelAt(polls) then CancelledAt(offset, polls + 1)
            else
              var tokens := before + prompt[..ChunkEnd(|prompt|, offset)];
              if StoresAfter(e.m, e.cap, tokens).Some? && e.m.finite(HiddenAfter(e.m, e.cap, tokens))
              then PrefillFrom(e, before, prompt, ChunkEnd(|prompt|, offset), polls + 1) else FailedAt(offset, polls + 1)
  {
  }

  /** How a decode round ended: go on with this stream and hidden state, or stop with this outcome. */
  datatype RoundResult<F> = Continue(stream: Stream, hidden: seq<F>) | Stop(out: Outcome, cancelled: bool)

  /** What the caller of a turn gets back. */
  datatype Reply = Reply(text: string, cancelled: bool, generated: nat) | TurnFailed

  /** What a turn comes to: the reply, the text shown, what is recorded when it is, and the generator and polls after it. */
  datatype Answer = Answer(reply: Reply, delivered: string, committed: bool, generated: seq<nat>, recorded: string,
                           rng: nat, polls: nat)

  /** The answer of a decode loop that follows a prefilled prompt. */
  ghost function DecodeAnswer<F>(e: Env<F>, tokens: seq<nat>, observed: seq<nat>, rng: nat, polls: nat, maxNew: nat): Answer
    requires StoresAfter(e.m, e.cap, tokens).Some?
  {
    var d := Decode(e, tokens, observed, rng, polls, EMPTY, maxNew);
    Settle(Drive(e.template.BitNetText?, EMPTY, d.script), d, rng)
  }

  /** A turn that failed with nothing on screen, or was cancelled before any token, is not recorded. */
  function Settle(out: Outcome, d: Decoding, rng: nat): Answer {
    var cancelled := d.script != [] && d.script[|d.script| - 1].Cancel?;
    var committed := if out.Failed? then out.visible != "" else !(cancelled && d.generated == []);
    Answer(if out.Failed? then TurnFailed else Reply(out.stream.response, cancelled, |d.generated|),
           out.stream.delivered, committed, d.generated, if out.Failed? then out.visible else out.stream.response,
           if committed then d.rng else rng, d.polls)
  }

  /** The answer to a prompt put after `tokens`. */
  ghost function TurnAnswer<F>(e: Env<F>, tokens: seq<nat>, observed: seq<nat>, rng: nat, polls: nat,
                               prompt: Option<seq<nat>>, maxNew: nat): Answer
  {
    if prompt.None? || prompt.value == [] || |tokens| + |prompt.value| + maxNew > e.cap
    then Answer(TurnFailed, "", false, [], "", rng, polls)
    else
      match PrefillFrom(e, tokens, prompt.value, 0, polls)
      case CancelledAt(_, after) => Answer(Reply("", true, 0), "", false, [], "", rng, after)
      case FailedAt(_, after) => Answer(TurnFailed, "", false, [], "", rng, after)
      case AllIn(after) => DecodeAnswer(e, tokens + prompt.value, observed + prompt.value, rng, after, maxNew)
  }

  /** A loop of `steps` rounds keeps at most that many tokens, and a cancelled one that kept none has shown nothing. */
  lemma {:induction false} DecodeBounded<F>(e: Env<F>, tokens: seq<nat>, observed: seq<nat>, rng: nat, polls: nat, s: Stream, steps: nat)
    requires StoresAfter(e.m, e.cap, tokens).Some? && s.flushed <= |s.response|
    ensures var d := Decode(e, tokens, observed, rng, polls, s, steps);
      && |d.generated| <= steps
      && (d.script != [] && d.script[|d.script| - 1].Cancel? ==> Drive(e.template.BitNetText?, s, d.script).Finished?)
      && (d.script != [] && d.script[|d.script| - 1].Cancel? && d.generated == [] ==>
            Drive(e.template.BitNetText?, s, d.script) == Finished(Finalize(s)))
    decreases steps
  {
    hide StoresAfter, HiddenAfter, Decode, Meet, Round, Finalize, Drive;
    if steps == 0 {
      NothingDecoded(e, tokens, observed, rng, polls, s);
    } else {
      var rest := DecodeUnfolds(e, tokens, observed, rng, polls, s, steps);
      var x := Meet(e, tokens, observed, rng, polls);
      var kept := if x.step.Token? && x.step.forwarded then [x.next] else [];
      assert [x.step] + [] == [x.step];
      match Round(e.template.BitNetText?, s, x.step) {
        case None =>
          CancelEnds(e.template.BitNetText?, s);
        case Some(s1) =>
          DecodeBounded(e, tokens + kept, observed + kept, x.rng, polls + 1, s1, steps - 1);
          DriveRound(e.template.BitNetText?, s, x.step, rest.script);
          RoundIsToken(e.template.BitNetText?, s, x.step);
      }
    }
  }

  lemma CancelEnds(bitnet: bool, s: Stream)
    requires s.flushed <= |s.response|
    ensures Drive(bitnet, s, [Cancel]) == Finished(Finalize(s))
  {
  }

  lemma RoundIsToken(bitnet: bool, s: Stream, x: Step)
    requires s.flushed <= |s.response| && Round(bitnet, s, x).Some?
    ensures x.Token? && x.forwarded
  {
  }

  /**
    Whatever the model, the sampler and the user do: a turn is recorded unless it was
    refused, failed with nothing on screen, or was cancelled before any token; no BitNet
    turn delivers a marker; a failed turn records exactly what was delivered and a finished
    one what was delivered up to trimmed whitespace and the mark of a cut-off character.
    */
  lemma AnswerIsHonest<F>(e: Env<F>, tokens: seq<nat>, observed: seq<nat>, rng: nat, polls: nat,
                          prompt: Option<seq<nat>>, maxNew: nat) returns (parts: Parts)
    ensures var a := TurnAnswer(e, tokens, observed, rng, polls, prompt, maxNew);
      && (a.committed <==> a.delivered != "" || (a.reply.Reply? && !(a.reply.cancelled && a.reply.generated == 0)))
      && (e.template.BitNetText? ==> !HasMarker(a.delivered))
      && (a.reply.Reply? ==> a.reply.generated == |a.generated| && AgreeBut(parts, a.reply.text, a.delivered))
      && (a.reply.Reply? ==> a.reply.text == a.recorded)
      && (a.reply.TurnFailed? && a.committed ==> a.recorded == a.delivered)
      && (!a.committed ==> a.rng == rng) && |a.generated| <= maxNew
  {
    hide StoresAfter, HiddenAfter, PrefillFrom, Decode, Drive, Finalize, AgreeBut, HasMarker;
    parts := Parts("", "", "");
    EmptyHasNoMarker();
    EmptyAgree();
    if prompt.Some? && prompt.value != [] && |tokens| + |prompt.value| + maxNew <= e.cap {
      match PrefillFrom(e, tokens, prompt.value, 0, polls) {
        case CancelledAt(_, _) =>
        case FailedAt(_, _) =>
        case AllIn(after) =>
          var all, seen := tokens + prompt.value, observed + prompt.value;
          var script := Decode(e, all, seen, rng, after, EMPTY, maxNew).script;
          DecodeBounded(e, all, seen, rng, after, EMPTY, maxNew);
          FinalizeEmpty();
          EmptyInv(e.template.BitNetText?);
          parts := DriveIsHonest(e.template.BitNetText?, EMPTY, script);
      }
    }
  }

  /** The turn gave that answer. */
  predicate Gave(a: Answer, r: Reply, delivered: string, committed: bool, turn: Turn, rng: nat, polls: nat) {
    && a.reply == r && a.delivered == delivered && a.committed == committed && a.rng == rng && a.polls == polls
    && (committed ==> turn.generated == a.generated && turn.reply == a.recorded)
  }

  // ---------------------------------------------------------------------------
  // The engine
  // ---------------------------------------------------------------------------

  class ChatEngine<F(!new)> {
    const m: Model<F>
    const tok: Tokenizer
    const template: ChatTemplate
    const maxSeqLen: nat
    /** Whether the cancel flag is set at the n-th poll. */
    const cancelAt: nat -> bool
    const cache: KVCache<F>
    const ws: ForwardWorkspace<F>
    const pws: PrefillWorkspace<F>
    var sampler: Sampler<F>
    var history: seq<ChatMessage>
    var nextPos: nat
    var systemPrompt: Option<string>
    var polls: nat
    ghost var turns: seq<Turn>

    /** What holds between the engine's calls, and at every step inside a turn, for a token stream. */
    ghost predicate Holds(tokens: seq<nat>)
      reads cache
    {
      && WellFormed(m) && cache.Valid() && Matches(cache, m)
      && cache.maxSeqLen == maxSeqLen <= m.dims.contextLength <= U32_MAX
      && maxSeqLen * cache.kvDim <= USIZE_MAX
      && StoresAfter(m, maxSeqLen, tokens) == Some(cache.Contents())
    }

    /**
      The cache is exactly the committed token stream; the position is its length; the
      history is the committed messages, so it is empty just when the position is 0.
      */
    ghost predicate Valid()
      reads this, cache
    {
      && Holds(Tokens(turns))
      && nextPos == |Tokens(turns)| <= maxSeqLen
      && history == Messages(turns)
      && PromptsInPlace(tok, template, turns)
    }

    /** What a turn consults. */
    function Here(): Env<F>
      reads `sampler
    {
      Env(m, maxSeqLen, sampler.policy, tok, template, cancelAt)
    }

    constructor Make(m: Model<F>, tok: Tokenizer, template: ChatTemplate, policy: Policy<F>, seed: nat, cache: KVCache<F>, cancelAt: nat -> bool)
      requires WellFormed(m) && cache.Valid() && Matches(cache, m) && cache.Contents() == EmptyCache(m.dims.nLayers)
      requires cache.maxSeqLen <= m.dims.contextLength <= U32_MAX && cache.maxSeqLen * cache.kvDim <= USIZE_MAX
      ensures this.cache == cache && Valid() && fresh(ws) && fresh(pws) && fresh(sampler)
      ensures turns == [] && nextPos == 0 && systemPrompt == None && sampler.rng == seed && sampler.history == []
      ensures Here() == Env(m, cache.maxSeqLen, policy, tok, template, cancelAt)
    {
      this.m, this.tok, this.template, this.maxSeqLen, this.cancelAt := m, tok, template, cache.maxSeqLen, cancelAt;
      this.cache := cache;
      ws := new ForwardWorkspace();
      pws := new PrefillWorkspace();
      sampler := new Sampler(policy, seed);
      history, nextPos, systemPrompt, polls, turns := [], 0, None, 0, [];
    }

    /**
      Construction, refused exactly when the cache would exceed the model's context or the
      address space, or a chat model's tokenizer has no turn markers.
      */
    static method TryNew(m: Model<F>, tok: Tokenizer, architecture: string, policy: Policy<F>, seed: nat, maxSeqLen: nat, cancelAt: nat -> bool)
        returns (r: Option<ChatEngine<F>>)
      requires WellFormed(m) && (forall x: seq<F> :: |m.codec.quantise(x).codes| == |x|) && m.dims.contextLength <= U32_MAX
      ensures r.Some? <==>
              && maxSeqLen <= m.dims.contextLength && maxSeqLen * m.dims.kvDim <= USIZE_MAX
              && (UsesChatml(architecture) ==> tok.chatmlMarkers.Some?)
      ensures r.Some? ==> fresh(r.value) && fresh(r.value.cache) && r.value.Valid() && r.value.turns == [] && r.value.systemPrompt == None
      ensures r.Some? ==> r.value.Here() == Env(m, maxSeqLen, policy, tok, TemplateOf(tok, architecture), cancelAt)
    {
      hide WellFormed, Rows, RunTokens, U32_MAX, USIZE_MAX;
      if maxSeqLen > m.dims.contextLength { return None; }
      var template := BitNetText;
      if UsesChatml(architecture) {
        if tok.chatmlMarkers.None? { return None; }
        template := ChatMl(tok.chatmlMarkers.value.1);
      }
      var cache := KVCache.TryNew(m.dims.nLayers, m.dims.kvDim, maxSeqLen, m.codec, m.zero);
      if cache.None? { return None; }
      assert cache.value.Contents() == EmptyCache(m.dims.nLayers);
      var e := new ChatEngine.Make(m, tok, template, policy, seed, cache.value, cancelAt);
      r := Some(e);
    }

    method CancelRequested() returns (c: bool)
      modifies `polls
      ensures c == cancelAt(old(polls)) && polls == old(polls) + 1
    {
      c := cancelAt(polls);
      polls := polls + 1;
    }

    lemma HoldsRuns(tokens: seq<nat>)
      requires Holds(tokens)
      ensures StoresAfter(m, maxSeqLen, tokens).Some?
    {
    }

    lemma HoldsSynced(tokens: seq<nat>)
      requires Holds(tokens)
      ensures Synced(cache.Contents(), |tokens|) && cache.Position() == |tokens| <= maxSeqLen
    {
      StoresAfterShape(m, maxSeqLen, tokens);
      assert |cache.Contents()[0]| == |tokens|;
    }

    /** One chunk of the prompt. */
    method PrefillChunk(ghost before: seq<nat>, chunk: seq<nat>, pos: nat) returns (h: Option<seq<F>>)
      requires Holds(before) && pos == |before| && chunk != [] && |before| + |chunk| <= maxSeqLen
      modifies cache, pws
      ensures var tokens := before + chunk;
        h.Some? <==> StoresAfter(m, maxSeqLen, tokens).Some? && m.finite(HiddenAfter(m, maxSeqLen, tokens))
      ensures h.Some? ==> Holds(before + chunk) && h.value == HiddenAfter(m, maxSeqLen, before + chunk)
      ensures h.None? ==> Holds(before) && cache.Contents() == old(cache.Contents())
    {
      hide RunTokens, Rows, LayerMajor;
      HoldsSynced(before);
      h := PrefillWithCache(m, cache, pws, chunk, pos);
      PrefillIsTokenRun(m, maxSeqLen, old(cache.Contents()), chunk, pos);
      StoresAfterMore(m, maxSeqLen, before, chunk);
    }

    /**
      Prefill the prompt in chunks, polling for cancellation before each, and advance the
      position only when all of it is in.
      */
    method PrefillPromptTokens(ghost before: seq<nat>, prompt: seq<nat>) returns (r: PrefillResult<F>, ghost done: nat)
      requires Holds(before) && nextPos == |before| && prompt != [] && |before| + |prompt| <= maxSeqLen
      modifies `polls, `nextPos, cache, pws, sampler`history
      ensures done <= |prompt| && Holds(before + prompt[..done])
      ensures sampler.history == old(sampler.history) + prompt[..done]
      ensures r.Ready? ==> done == |prompt| && nextPos == |before| + |prompt|
      ensures !r.Ready? ==> nextPos == old(nextPos)
      ensures match PrefillFrom(Here(), before, prompt, 0, old(polls))
        case AllIn(after) => polls == after && r == Ready(HiddenAfter(m, maxSeqLen, before + prompt))
        case CancelledAt(at, after) => polls == after && r.PrefillCancelled? && done == at
        case FailedAt(at, after) => polls == after && r.PrefillFailed? && done == at
    {
      hide RunTokens, Rows, StoresAfter, HiddenAfter, Holds, PrefillFrom;
      var h: seq<F> := [];
      var offset := 0;
      done := 0;
      HoldsRuns(before);
      assert before + prompt[..0] == before;
      assert sampler.history + prompt[..0] == sampler.history;
      while offset < |prompt|
        invariant 0 <= offset && done == (if offset <= |prompt| then offset else |prompt|)
        invariant Holds(before + prompt[..done]) && nextPos == old(nextPos)
        invariant sampler.history == old(sampler.history) + prompt[..done]
        invariant StoresAfter(m, maxSeqLen, before + prompt[..done]).Some?
        invariant offset > 0 ==> h == HiddenAfter(m, maxSeqLen, before + prompt[..done])
        invariant PrefillFrom(Here(), before, prompt, done, polls) == PrefillFrom(Here(), before, prompt, 0, old(polls))
        decreases |prompt| - offset
      {
        PrefillUnfolds(Here(), before, prompt, done, polls);
        var cancelled := CancelRequested();
        if cancelled { return PrefillCancelled, done; }
        var end := ChunkEnd(|prompt|, offset);
        var chunk := prompt[offset..end];
        assert before + prompt[..offset] + chunk == before + prompt[..end];
        var out := PrefillChunk(before + prompt[..done], chunk, nextPos + offset);
        if out.None? { return PrefillFailed, done; }
        h := out.value;
        ObserveAll(chunk);
        assert old(sampler.history) + prompt[..offset] + chunk == old(sampler.history) + prompt[..end];
        offset := offset + PREFILL_CHUNK_SIZE;
        done := end;
      }
      assert prompt[..done] == prompt;
      PrefillUnfolds(Here(), before, prompt, done, polls);
      nextPos := nextPos + |prompt|;
      r := Ready(h);
    }

    method ObserveAll(ids: seq<nat>)
      modifies sampler`history
      ensures sampler.history == old(sampler.history) + ids
    {
      var i := 0;
      while i < |ids|
        invariant 0 <= i <= |ids|
        invariant sampler.history == old(sampler.history) + ids[..i]
      {
        sampler.Observe(ids[i]);
        i := i + 1;
      }
      assert ids[..i] == ids;
    }

    /** Forward one generated token, or leave everything as it was. */
    method ForwardGenerated(ghost before: seq<nat>, next: nat) returns (h: Option<seq<F>>)
      requires Holds(before) && nextPos == |before|
      modifies cache, ws
      ensures h.Some? <==> StoresAfter(m, maxSeqLen, before + [next]).Some?
      ensures h.Some? ==> Holds(before + [next]) && |before| < maxSeqLen && h.value == HiddenAfter(m, maxSeqLen, before + [next])
      ensures h.None? ==> Holds(before) && cache.Contents() == old(cache.Contents())
    {
      hide RunTokens, Rows, Column;
      HoldsSynced(before);
      ghost var cs := cache.Contents();
      h := ForwardWithCache(m, cache, ws, next, nextPos);
      StoresAfterMore(m, maxSeqLen, before, [next]);
      RunOne(m, maxSeqLen, cs, next, nextPos);
      if h.Some? {
        HoldsSynced(before + [next]);
      }
    }

    /** Back to the stores of an earlier token stream that the present one extends. */
    method RollbackCache(ghost before: seq<nat>, ghost now: seq<nat>, position: nat)
      requires Holds(now) && before <= now && position == |before| && StoresAfter(m, maxSeqLen, before).Some?
      modifies cache
      ensures Holds(before)
    {
      hide RunTokens, Rows;
      StoresAfterShape(m, maxSeqLen, before);
      StoresAfterMore(m, maxSeqLen, before, now[|before|..]);
      assert before + now[|before|..] == now;
      ghost var cs, grown := StoresAfter(m, maxSeqLen, before).value, cache.Contents();
      RunExtends(m, maxSeqLen, cs, now[|before|..], |before|);
      cache.Rollback(position);
      RollbackRestores(cs, grown, cache.Contents(), position);
    }

    /**
      One round of the decode loop: poll, predict, sample, take in the token's bytes,
      forward it. A token whose forward fails leaves neither a cache entry nor an
      observation.
      */
    method DecodeRound(ghost before: seq<nat>, s: Stream, h: seq<F>)
        returns (r: RoundResult<F>, emitted: seq<nat>, ghost step: Step)
      requires Holds(before) && nextPos == |before| && s.flushed <= |s.response|
      requires h == HiddenAfter(m, maxSeqLen, before)
      modifies `polls, `nextPos, cache, ws, sampler
      ensures var x := Meet(Here(), before, old(sampler.history), old(sampler.rng), old(polls));
        && step == x.step && sampler.rng == x.rng && polls == old(polls) + 1
        && emitted == if x.step.Token? && x.step.forwarded then [x.next] else []
      ensures |emitted| <= 1 && Holds(before + emitted) && nextPos == |before| + |emitted|
      ensures r.Continue? ==> r.hidden == HiddenAfter(m, maxSeqLen, before + emitted)
      ensures sampler.history == old(sampler.history) + emitted
      ensures r.Continue? ==> |emitted| == 1 && Round(template.BitNetText?, s, step) == Some(r.stream)
      ensures r.Stop? ==> r.out == Drive(template.BitNetText?, s, [step])
      ensures r.Stop? ==> Round(template.BitNetText?, s, step).None? && r.cancelled == step.Cancel?
    {
      hide Holds, RunTokens, Rows, StoresAfter, AppendTokenBytes, FlushSafeWindow, Finalize, TruncatedAtStop, HiddenAfter;
      HoldsRuns(before);
      emitted := [];
      assert before + [] == before && sampler.history + [] == sampler.history;
      var cancelled := CancelRequested();
      if cancelled { return Stop(Finished(Finalize(s)), true), emitted, Cancel; }
      var rngBefore, historyBefore := sampler.rng, |sampler.history|;
      var logits := sampler.policy.logits(h);
      if logits.None? { return Stop(Failed(s.response[..s.flushed], s), false), emitted, LogitsError; }
      var next := sampler.Sample(logits.value);
      if next.None? {
        sampler.Rollback(rngBefore, historyBefore);
        return Stop(Failed(s.response[..s.flushed], s), false), emitted, SampleError;
      }
      if IsStop(tok, template, next.value) { return Stop(Finished(Finalize(s)), false), emitted, StopToken; }
      r, emitted, step := TakeToken(before, s, next.value, rngBefore, historyBefore);
    }

    /** The part of a round after a token was sampled: its bytes, its forward, the marker scan. */
    method TakeToken(ghost before: seq<nat>, s: Stream, next: nat, rngBefore: nat, historyBefore: nat)
        returns (r: RoundResult<F>, emitted: seq<nat>, ghost step: Step)
      requires Holds(before) && nextPos == |before| && s.flushed <= |s.response| && historyBefore == |sampler.history|
      modifies `nextPos, cache, ws, sampler
      ensures step == Token(tok.decodeToBytes(next), StoresAfter(m, maxSeqLen, before + [next]).Some?)
      ensures emitted == if step.forwarded then [next] else []
      ensures Holds(before + emitted) && nextPos == |before| + |emitted|
      ensures sampler.history == old(sampler.history) + emitted
      ensures sampler.rng == if step.forwarded then old(sampler.rng) else rngBefore
      ensures r.Continue? ==> Round(template.BitNetText?, s, step) == Some(r.stream)
      ensures r.Continue? ==> step.forwarded && r.hidden == HiddenAfter(m, maxSeqLen, before + emitted)
      ensures r.Stop? ==> r.out == Drive(template.BitNetText?, s, [step]) && Round(template.BitNetText?, s, step).None? && !r.cancelled
    {
      hide Holds, RunTokens, Rows, StoresAfter, AppendTokenBytes, FlushSafeWindow, Finalize, TruncatedAtStop, HiddenAfter;
      emitted := [];
      assert before + [] == before && sampler.history + [] == sampler.history;
      var bytes := tok.decodeToBytes(next);
      var s1 := AppendTokenBytes(s, bytes);
      AppendKeepsFlushed(s, bytes);
      sampler.Observe(next);
      HoldsRuns(before);
      var fwd := ForwardGenerated(before, next);
      step := Token(bytes, fwd.Some?);
      if fwd.None? {
        RollbackCache(before, before, nextPos);
        sampler.Rollback(rngBefore, historyBefore);
        return Stop(Failed(s1.response[..s1.flushed], s1), false), emitted, step;
      }
      emitted := [next];
      nextPos := nextPos + 1;
      if template.BitNetText? {
        var cut := TruncatedAtStop(s1.response);
        if cut.Some? {
          return Stop(Finished(Finalize(s1.(response := cut.value))), false), emitted, step;
        }
      }
      r := Continue(FlushSafeWindow(s1), fwd.value);
    }

    /**
      The decode loop. Whatever the model, the sampler and the user do, the stream is one
      run of `Drive`, and the cache and the sampler gain exactly the tokens generated.
      */
    method StreamAssistantResponse(ghost before: seq<nat>, hidden: seq<F>, maxNew: nat)
        returns (out: Outcome, cancelled: bool, generated: seq<nat>, ghost script: seq<Step>)
      requires Holds(before) && nextPos == |before| && hidden == HiddenAfter(m, maxSeqLen, before)
      modifies `polls, `nextPos, cache, ws, sampler
      ensures |generated| <= maxNew
      ensures Holds(before + generated) && nextPos == |before| + |generated|
      ensures sampler.history == old(sampler.history) + generated
      ensures Decode(Here(), before, old(sampler.history), old(sampler.rng), old(polls), EMPTY, maxNew)
           == Decoding(script, generated, sampler.rng, polls)
      ensures cancelled == (script != [] && script[|script| - 1].Cancel?)
      ensures out == Drive(template.BitNetText?, EMPTY, script)
    {
      hide Holds, Drive, Round, Rounds, Finalize, Decode, Meet, HiddenAfter, StoresAfter, After, WellFormed, Rows;
      HoldsRuns(before);
      NoRounds(template.BitNetText?);
      ghost var e := Here();
      ghost var all := Decode(e, before, sampler.history, sampler.rng, polls, EMPTY, maxNew);
      AfterMore([], [], Cancel, [], all);
      var bitnet := template.BitNetText?;
      var s := EMPTY;
      var h := hidden;
      cancelled, generated, script := false, [], [];
      assert before + generated == before;
      assert sampler.history + generated == sampler.history;
      var step := 0;
      while step < maxNew
        invariant 0 <= step <= maxNew && |generated| == step == |script|
        invariant !cancelled && s.flushed <= |s.response|
        invariant Rounds(bitnet, EMPTY, script) == Some(s)
        invariant Holds(before + generated) && nextPos == |before| + |generated|
        invariant sampler.history == old(sampler.history) + generated
        invariant StoresAfter(m, maxSeqLen, before + generated).Some? && h == HiddenAfter(m, maxSeqLen, before + generated)
        invariant step > 0 ==> !script[step - 1].Cancel?
        invariant Here() == e
        invariant all == After(script, generated, Decode(e, before + generated, sampler.history, sampler.rng, polls, s, maxNew - step))
      {
        var round, emitted;
        ghost var x: Step;
        LoopOneRoundOn(e, script, generated, before + generated, sampler.history, sampler.rng, polls, s, maxNew - step);
        round, emitted, x := DecodeRound(before + generated, s, h);
        HoldsRuns(before + generated + emitted);
        assert before + generated + emitted == before + (generated + emitted);
        assert old(sampler.history) + generated + emitted == old(sampler.history) + (generated + emitted);
        generated := generated + emitted;
        if round.Stop? {
          DriveAfterRounds(bitnet, EMPTY, script, [x]);
          script := script + [x];
          return round.out, round.cancelled, generated, script;
        }
        RoundsMore(bitnet, script, x);
        script := script + [x];
        s, h := round.stream, round.hidden;
        step := step + 1;
      }
      NothingDecoded(e, before + generated, sampler.history, sampler.rng, polls, s);
      AfterAll(script, generated, sampler.rng, polls);
      DriveAfterRounds(bitnet, EMPTY, script, []);
      assert script + [] == script;
      DriveEnd(bitnet, s);
      out := Finished(Finalize(s));
    }

    /** The whole turn is undone: cache, sampler, position, history. */
    method Undo(ghost now: seq<nat>, rngBefore: nat, observedBefore: nat, positionBefore: nat, messagesBefore: nat)
      requires Holds(now) && Tokens(turns) <= now && StoresAfter(m, maxSeqLen, Tokens(turns)).Some?
      requires positionBefore == |Tokens(turns)| <= maxSeqLen && PromptsInPlace(tok, template, turns)
      requires history == Messages(turns) && messagesBefore == |history|
      modifies `nextPos, `history, cache, sampler
      ensures Valid()
      ensures sampler.rng == rngBefore && sampler.history == Truncate(old(sampler.history), observedBefore)
    {
      RollbackCache(Tokens(turns), now, positionBefore);
      sampler.Rollback(rngBefore, observedBefore);
      nextPos := positionBefore;
      history := Truncate(history, messagesBefore);
    }

    /** Record the turn in the history. */
    method Commit(user: string, reply: string, ghost turn: Turn)
      requires Holds(Tokens(turns) + turn.prompt + turn.generated) && history == Messages(turns)
      requires nextPos == |Tokens(turns)| + |turn.prompt| + |turn.generated| <= maxSeqLen
      requires PromptsInPlace(tok, template, turns) && turn.prompt != []
      requires BuildPromptTokens(tok, template, turns == [], turn.system, turn.user) == Some(turn.prompt)
      requires turn.user == user && turn.reply == reply
      modifies `history, `turns
      ensures Valid() && turns == old(turns) + [turn]
    {
      hide Holds;
      history := history + [ChatMessage(User, user)];
      history := history + [ChatMessage(Assistant, reply)];
      assert (turns + [turn])[..|turns|] == turns;
      assert history == Messages(turns) + [ChatMessage(User, user), ChatMessage(Assistant, reply)];
      turns := turns + [turn];
    }

    /**
      Decode and settle the turn: undo it when it failed with nothing on screen or was
      cancelled before any token, and commit it otherwise.
      */
    method DecodeTurn(user: string, prompt: seq<nat>, hidden: seq<F>, maxNew: nat, rngBefore: nat, ghost observed: seq<nat>, observedBefore: nat, positionBefore: nat)
        returns (r: Reply, delivered: string, ghost committed: bool, ghost turn: Turn)
      requires Holds(Tokens(turns) + prompt) && nextPos == |Tokens(turns)| + |prompt| && prompt != []
      requires positionBefore == |Tokens(turns)| && positionBefore + |prompt| + maxNew <= maxSeqLen
      requires StoresAfter(m, maxSeqLen, Tokens(turns)).Some?
      requires history == Messages(turns) && PromptsInPlace(tok, template, turns)
      requires BuildPromptTokens(tok, template, turns == [], systemPrompt, user) == Some(prompt)
      requires sampler.history == observed + prompt && observedBefore == |observed| && sampler.rng == rngBefore
      requires hidden == HiddenAfter(m, maxSeqLen, Tokens(turns) + prompt)
      modifies `polls, `nextPos, `history, `turns, cache, ws, sampler
      ensures Valid()
      ensures committed ==> turns == old(turns) + [turn] && turn.user == user && turn.system == systemPrompt
      ensures committed ==> sampler.history == observed + turn.prompt + turn.generated
      ensures !committed ==> turns == old(turns) && sampler.history == observed && sampler.rng == rngBefore
      ensures Gave(DecodeAnswer(Here(), Tokens(old(turns)) + prompt, observed + prompt, rngBefore, old(polls), maxNew),
                   r, delivered, committed, turn, sampler.rng, polls)
    {
      hide Holds, Drive, StoresAfter, BuildPromptTokens, Decode, HiddenAfter;
      ghost var before := Tokens(turns);
      committed := false;
      var out, cancelled, generated;
      ghost var script: seq<Step>;
      out, cancelled, generated, script := StreamAssistantResponse(before + prompt, hidden, maxNew);
      delivered := out.stream.delivered;
      var reply := if out.Failed? then out.visible else out.stream.response;
      turn := Turn(user, systemPrompt, prompt, generated, reply);
      assert before + prompt + generated == before + (prompt + generated);
      assert observed + prompt + generated == observed + (prompt + generated);
      if (out.Failed? && reply == "") || (out.Finished? && cancelled && generated == []) {
        Undo(before + (prompt + generated), rngBefore, observedBefore, positionBefore, |history|);
        TruncateBack(observed, prompt + generated);
        r := if out.Failed? then TurnFailed else Reply(reply, true, 0);
      } else {
        Commit(user, reply, turn);
        committed := true;
        r := if out.Failed? then TurnFailed else Reply(reply, cancelled, |generated|);
      }
    }

    /** The part of a turn after its prompt has been built and found to fit. */
    method RunTurn(user: string, prompt: seq<nat>, maxNew: nat)
        returns (r: Reply, delivered: string, ghost committed: bool, ghost turn: Turn)
      requires Valid() && prompt != [] && nextPos + |prompt| + maxNew <= maxSeqLen
      requires BuildPromptTokens(tok, template, turns == [], systemPrompt, user) == Some(prompt)
      modifies `polls, `nextPos, `history, `turns, cache, ws, pws, sampler
      ensures Valid()
      ensures committed ==> turns == old(turns) + [turn] && turn.user == user && turn.system == systemPrompt
      ensures committed ==> sampler.history == old(sampler.history) + turn.prompt + turn.generated
      ensures !committed ==> turns == old(turns) && sampler.history == old(sampler.history) && sampler.rng == old(sampler.rng)
      ensures Gave(TurnAnswer(Here(), Tokens(old(turns)), old(sampler.history), old(sampler.rng), old(polls), Some(prompt), maxNew),
                   r, delivered, committed, turn, sampler.rng, polls)
    {
      HoldsRuns(Tokens(turns));
      assert nextPos == |Tokens(turns)| && history == Messages(turns) && PromptsInPlace(tok, template, turns);
      hide Valid, Holds, StoresAfter, Synced, Tokens, Messages, PromptsInPlace;
      hide RunTokens, Rows, BuildPromptTokens, PrefillFrom, DecodeAnswer, HiddenAfter;
      ghost var before := Tokens(turns);
      delivered, committed := "", false;
      turn := Turn(user, systemPrompt, prompt, [], "");
      var rngBefore, observedBefore := sampler.rng, |sampler.history|;
      var positionBefore, messagesBefore := nextPos, |history|;
      ghost var observed := sampler.history;
      var prefill;
      ghost var done: nat;
      prefill, done := PrefillPromptTokens(before, prompt);
      if prefill.Ready? {
        assert prompt[..done] == prompt;
        r, delivered, committed, turn :=
          DecodeTurn(user, prompt, prefill.hidden, maxNew, rngBefore, observed, observedBefore, positionBefore);
      } else {
        Undo(before + prompt[..done], rngBefore, observedBefore, positionBefore, messagesBefore);
        TruncateBack(observed, prompt[..done]);
        r := if prefill.PrefillFailed? then TurnFailed else Reply("", true, 0);
      }
    }

    /** What the invariant says of the stores, the position, the transcript and the prompts. */
    lemma StateIsTurns()
      requires Valid()
      ensures cache.Valid() && maxSeqLen <= USIZE_MAX
      ensures StoresAfter(m, maxSeqLen, Tokens(turns)) == Some(cache.Contents())
      ensures nextPos == |Tokens(turns)| == cache.Position() && history == Messages(turns) && (history == [] <==> turns == [])
      ensures PromptsInPlace(tok, template, turns)
    {
      hide RunTokens, Rows, StoresAfter;
      HoldsSynced(Tokens(turns));
    }

    /** A turn whose prompt is built: refused when it does not fit, run otherwise. */
    method Attempt(user: string, prompt: Option<seq<nat>>, maxNew: nat)
        returns (r: Reply, delivered: string, ghost committed: bool, ghost turn: Turn)
      requires Valid() && prompt == BuildPromptTokens(tok, template, turns == [], systemPrompt, user)
      modifies `polls, `nextPos, `history, `turns, cache, ws, pws, sampler
      ensures Valid()
      ensures committed ==> turns == old(turns) + [turn] && turn.user == user && turn.system == old(systemPrompt)
      ensures committed ==> sampler.history == old(sampler.history) + turn.prompt + turn.generated
      ensures committed ==> prompt == Some(turn.prompt) && old(nextPos) + |turn.prompt| + maxNew <= maxSeqLen
      ensures !committed ==> turns == old(turns) && sampler.history == old(sampler.history) && sampler.rng == old(sampler.rng)
      ensures Gave(TurnAnswer(Here(), Tokens(old(turns)), old(sampler.history), old(sampler.rng), old(polls), prompt, maxNew),
                   r, delivered, committed, turn, sampler.rng, polls)
    {
      hide Valid, TurnAnswer, BuildPromptTokens, Tokens, StoresAfter, Messages;
      delivered, committed := "", false;
      turn := Turn("", None, [], [], "");
      StateIsTurns();
      RefusedAnswer(Here(), Tokens(turns), sampler.history, sampler.rng, polls, prompt, maxNew);
      if prompt.None? || prompt.value == [] { return TurnFailed, delivered, committed, turn; }
      var need := cache.Position() + |prompt.value| + maxNew;
      if need > USIZE_MAX || need > maxSeqLen { return TurnFailed, delivered, committed, turn; }
      r, delivered, committed, turn := RunTurn(user, prompt.value, maxNew);
      StateIsTurns();
      if committed { assert turns[|turns| - 1] == turn; }
    }

    /**
      One turn. It either commits, adding its prompt, its tokens and its recorded reply, or
      leaves cache, position, history and sampler as they were; the second exactly when it
      was refused, failed with nothing on screen, or was cancelled before any token. No
      BitNet turn delivers a marker; a failed turn records exactly what was delivered and a
      finished one what was delivered up to trimmed whitespace.
      */
    method SendUserMessage(user: string, maxNew: nat)
        returns (r: Reply, delivered: string, ghost committed: bool, ghost turn: Turn, ghost parts: Parts)
      requires Valid()
      modifies `polls, `nextPos, `history, `turns, cache, ws, pws, sampler
      ensures Valid()
      ensures committed ==> turns == old(turns) + [turn] && turn.user == user && turn.system == old(systemPrompt)
      ensures committed ==> sampler.history == old(sampler.history) + turn.prompt + turn.generated
      ensures committed ==> |turn.generated| <= maxNew
      ensures !committed ==> turns == old(turns) && history == old(history) && nextPos == old(nextPos)
      ensures !committed ==> cache.Contents() == old(cache.Contents())
      ensures !committed ==> sampler.history == old(sampler.history) && sampler.rng == old(sampler.rng)
      ensures committed <==> delivered != "" || (r.Reply? && !(r.cancelled && r.generated == 0))
      ensures r.Reply? ==> r.generated == (if committed then |turn.generated| else 0)
      ensures r.Reply? && committed ==> r.text == turn.reply
      ensures template.BitNetText? ==> !HasMarker(delivered)
      ensures r.TurnFailed? && committed ==> turn.reply == delivered
      ensures r.Reply? ==> AgreeBut(parts, r.text, delivered)
      ensures committed ==> IsPromptOf(tok, template, |old(turns)|, old(systemPrompt), user, turn.prompt)
      ensures committed ==> history == old(history) + [ChatMessage(User, user), ChatMessage(Assistant, turn.reply)]
      ensures committed ==> Appended(m, maxSeqLen, old(cache.Contents()), old(nextPos), turn.prompt + turn.generated, cache.Contents())
      ensures committed ==> nextPos == old(nextPos) + |turn.prompt| + |turn.generated|
      ensures committed ==> old(nextPos) + |turn.prompt| + maxNew <= maxSeqLen
      ensures committed ==> forall i :: 0 <= i < |turn.generated| ==> !EndsReply(tok, template, turn.generated[i])
      ensures r.Reply? && committed ==> IsReplyText(template.BitNetText?, TokenBytes(tok, turn.generated), turn.reply)
      ensures Gave(TurnAnswer(Here(), Tokens(old(turns)), old(sampler.history), old(sampler.rng), old(polls),
                              BuildPromptTokens(tok, template, old(history) == [], old(systemPrompt), user), maxNew),
                   r, delivered, committed, turn, sampler.rng, polls)
    {
      hide Valid, StoresAfter, BuildPromptTokens, TurnAnswer, Tokens, Messages, PromptsInPlace;
      hide AgreeBut, HasMarker, IsPromptOf, Appended, EndsReply, IsReplyText, TokenBytes;
      StateIsTurns();
      ghost var before, cs, observed, rng, polled := turns, cache.Contents(), sampler.history, sampler.rng, polls;
      var prompt := BuildPromptTokens(tok, template, history == [], systemPrompt, user);
      parts := AnswerIsHonest(Here(), Tokens(turns), sampler.history, sampler.rng, polls, prompt, maxNew);
      AnswerHasNoStop(Here(), Tokens(turns), sampler.history, sampler.rng, polls, prompt, maxNew);
      AnswerIsText(Here(), Tokens(turns), sampler.history, sampler.rng, polls, prompt, maxNew);
      r, delivered, committed, turn := Attempt(user, prompt, maxNew);
      StateIsTurns();
      if committed {
        PromptIsText(tok, template, |before|, systemPrompt, user, turn.prompt);
        TurnAppends(m, maxSeqLen, before, turn);
      }
    }

    /** Each turn of the conversation was prompted as its place asks, whatever the system prompt has become since. */
    lemma TurnsArePrompted()
      requires Valid()
      ensures forall i: nat :: i < |turns| ==> IsPromptOf(tok, template, i, turns[i].system, turns[i].user, turns[i].prompt)
    {
      forall i: nat | i < |turns| ensures IsPromptOf(tok, template, i, turns[i].system, turns[i].user, turns[i].prompt) {
        PromptIsText(tok, template, i, turns[i].system, turns[i].user, turns[i].prompt);
      }
    }

    /** The transcript is the turns' questions and recorded replies, in turn. */
    lemma HistoryIsTurns()
      requires Valid()
      ensures |history| == 2 * |turns|
      ensures forall i: nat :: i < |turns| ==>
        && history[2 * i] == ChatMessage(User, turns[i].user)
        && history[2 * i + 1] == ChatMessage(Assistant, turns[i].reply)
    {
      MessagesAt(turns);
    }

    /** Forget the conversation; the sampler keeps what it observed. */
    method Reset()
      requires Valid()
      modifies `nextPos, `history, `turns, cache
      ensures Valid() && turns == [] && history == [] && nextPos == 0
      ensures sampler.history == old(sampler.history) && sampler.rng == old(sampler.rng)
    {
      cache.Reset();
      history := [];
      nextPos := 0;
      turns := [];
      assert cache.Contents() == EmptyCache(m.dims.nLayers);
    }

    /** Takes effect from the next turn on. */
    method SetSystemPrompt(system: Option<string>)
      requires Valid()
      modifies `systemPrompt
      ensures Valid() && systemPrompt == system && turns == old(turns)
    {
      systemPrompt := system;
    }

    /** A new sampler, with nothing observed. */
    method SetSampling(policy: Policy<F>, seed: nat)
      requires Valid()
      modifies `sampler
      ensures Valid() && turns == old(turns)
      ensures fresh(sampler) && sampler.policy == policy && sampler.rng == seed && sampler.history == []
    {
      sampler := new Sampler(policy, seed);
    }

    /** What the invariant says about position and history. */
    lemma PositionAndHistory()
      requires Valid()
      ensures nextPos == cache.Position() <= maxSeqLen && Synced(cache.Contents(), nextPos)
      ensures history == [] <==> nextPos == 0
    {
      hide RunTokens, Rows;
      HoldsSynced(Tokens(turns));
      if turns != [] {
        assert turns[|turns| - 1].prompt != [];
      }
    }
  }

  lemma RefusedAnswer<F>(e: Env<F>, tokens: seq<nat>, observed: seq<nat>, rng: nat, polls: nat, prompt: Option<seq<nat>>, maxNew: nat)
    ensures prompt.None? || prompt.value == [] || |tokens| + |prompt.value| + maxNew > e.cap ==>
      TurnAnswer(e, tokens, observed, rng, polls, prompt, maxNew) == Answer(TurnFailed, "", false, [], "", rng, polls)
  {
  }

  lemma {:induction false} MessagesAt(turns: seq<Turn>)
    ensures forall i: nat :: i < |turns| ==>
      && Messages(turns)[2 * i] == ChatMessage(User, turns[i].user)
      && Messages(turns)[2 * i + 1] == ChatMessage(Assistant, turns[i].reply)
  {
    if turns != [] {
      MessagesAt(turns[..|turns| - 1]);
    }
  }

  // ---------------------------------------------------------------------------
  // What a turn means, said without its functions
  // ---------------------------------------------------------------------------

  /**
    The prompt of the turn that `n` others precede. A BitNet conversation opens with the
    system prompt, if there is one, in front of the question and with the beginning-of-text
    token; every later question has the same bridge in front of it, no system prompt and no
    such token. The other template leaves both to the tokenizer.
    */
  predicate IsPromptOf(tok: Tokenizer, template: ChatTemplate, n: nat, system: Option<string>, user: string, prompt: seq<nat>) {
    match template
    case BitNetText =>
      var asked := "Human: " + user + "\n\nBITNETAssistant: ";
      if n > 0 then tok.encode("\n\n" + asked, false) == Some(prompt)
      else if system.Some? then tok.encode(system.value + ("\n\n" + asked), true) == Some(prompt)
      else tok.encode(asked, true) == Some(prompt)
    case ChatMl(_) =>
      if n > 0 then tok.encodeChatmlFollowUp(user) == Some(prompt) else tok.encodeChatmlTurn(system, user) == Some(prompt)
  }

  lemma PromptIsText(tok: Tokenizer, template: ChatTemplate, n: nat, system: Option<string>, user: string, prompt: seq<nat>)
    requires BuildPromptTokens(tok, template, n == 0, system, user) == Some(prompt)
    ensures IsPromptOf(tok, template, n, system, user, prompt)
  {
    var asked := "Human: " + user + "\n\nBITNETAssistant: ";
    assert "\n\n" + asked == "\n\nHuman: " + user + "\n\nBITNETAssistant: ";
    if system.Some? {
      assert system.value + ("\n\n" + asked) == system.value + "\n\nHuman: " + user + "\n\nBITNETAssistant: ";
    }
  }

  /** The stores are those of `before` after running the tokens from that position. */
  ghost predicate Appended<F>(m: Model<F>, cap: nat, before: Cache<F>, position: nat, tokens: seq<nat>, after: Cache<F>) {
    var run := RunTokens(m, cap, before, tokens, position);
    run.Some? && run.value.1 == after
  }

  lemma TurnAppends<F>(m: Model<F>, cap: nat, before: seq<Turn>, turn: Turn)
    requires StoresAfter(m, cap, Tokens(before)).Some? && StoresAfter(m, cap, Tokens(before + [turn])).Some?
    ensures Appended(m, cap, StoresAfter(m, cap, Tokens(before)).value, |Tokens(before)|, turn.prompt + turn.generated,
                     StoresAfter(m, cap, Tokens(before + [turn])).value)
    ensures |Tokens(before + [turn])| == |Tokens(before)| + |turn.prompt| + |turn.generated|
    ensures Messages(before + [turn]) == Messages(before) + [ChatMessage(User, turn.user), ChatMessage(Assistant, turn.reply)]
  {
    hide StoresAfter, RunTokens;
    assert (before + [turn])[..|before|] == before;
    assert Tokens(before + [turn]) == Tokens(before) + (turn.prompt + turn.generated);
    StoresAfterMore(m, cap, Tokens(before), turn.prompt + turn.generated);
  }

  /** The end of text, the end of a turn, or the stop marker of the template. */
  predicate EndsReply(tok: Tokenizer, template: ChatTemplate, id: nat) {
    tok.eosId == Some(id) || id == 128009 || (template.ChatMl? && template.stopId == id)
  }

  /** No such token is ever kept. */
  lemma {:induction false} DecodeHasNoStop<F>(e: Env<F>, tokens: seq<nat>, observed: seq<nat>, rng: nat, polls: nat, s: Stream, steps: nat)
    requires StoresAfter(e.m, e.cap, tokens).Some? && s.flushed <= |s.response|
    ensures var ids := Decode(e, tokens, observed, rng, polls, s, steps).generated;
      forall i :: 0 <= i < |ids| ==> !EndsReply(e.tok, e.template, ids[i])
    decreases steps
  {
    hide StoresAfter, HiddenAfter, Decode, Round;
    if steps == 0 {
      NothingDecoded(e, tokens, observed, rng, polls, s);
    } else {
      var rest := DecodeUnfolds(e, tokens, observed, rng, polls, s, steps);
      var x := Meet(e, tokens, observed, rng, polls);
      var kept := if x.step.Token? && x.step.forwarded then [x.next] else [];
      match Round(e.template.BitNetText?, s, x.step) {
        case None =>
        case Some(s1) => DecodeHasNoStop(e, tokens + kept, observed + kept, x.rng, polls + 1, s1, steps - 1);
      }
    }
  }

  lemma AnswerHasNoStop<F>(e: Env<F>, tokens: seq<nat>, observed: seq<nat>, rng: nat, polls: nat, prompt: Option<seq<nat>>, maxNew: nat)
    ensures var ids := TurnAnswer(e, tokens, observed, rng, polls, prompt, maxNew).generated;
      forall i :: 0 <= i < |ids| ==> !EndsReply(e.tok, e.template, ids[i])
  {
    hide StoresAfter, HiddenAfter, PrefillFrom, Decode, Drive, EndsReply;
    if prompt.Some? && prompt.value != [] && |tokens| + |prompt.value| + maxNew <= e.cap {
      match PrefillFrom(e, tokens, prompt.value, 0, polls) {
        case CancelledAt(_, _) =>
        case FailedAt(_, _) =>
        case AllIn(after) =>
          var all, seen := tokens + prompt.value, observed + prompt.value;
          DecodeHasNoStop(e, all, seen, rng, after, EMPTY, maxNew);
          assert TurnAnswer(e, tokens, observed, rng, polls, prompt, maxNew).generated
              == Decode(e, all, seen, rng, after, EMPTY, maxNew).generated;
      }
    }
  }

  /** The generator's state once it has chosen `ids`, each from the hidden state of what precedes it. */
  ghost function RngAfter<F>(e: Env<F>, tokens: seq<nat>, observed: seq<nat>, rng: nat, ids: seq<nat>): nat {
    if ids == [] then rng else
    var n := |ids| - 1;
    var before := RngAfter(e, tokens, observed, rng, ids[..n]);
    if StoresAfter(e.m, e.cap, tokens + ids[..n]).None? then before else
    match e.policy.logits(HiddenAfter(e.m, e.cap, tokens + ids[..n]))
    case None => before
    case Some(logits) => e.policy.choose(logits, observed + ids[..n], before).1
  }

  /** Token `i` is what the sampler chose from the logits of everything before it, having observed just that. */
  ghost predicate IsSampled<F>(e: Env<F>, tokens: seq<nat>, observed: seq<nat>, rng: nat, ids: seq<nat>, i: nat)
    requires i < |ids|
  {
    && StoresAfter(e.m, e.cap, tokens + ids[..i]).Some?
    && var logits := e.policy.logits(HiddenAfter(e.m, e.cap, tokens + ids[..i]));
       logits.Some? && e.policy.choose(logits.value, observed + ids[..i], RngAfter(e, tokens, observed, rng, ids[..i])).0 == Some(ids[i])
  }

  /** One token more in front: the rest is chosen from where that choice left the generator. */
  lemma {:induction false} RngFrom<F>(e: Env<F>, tokens: seq<nat>, observed: seq<nat>, rng: nat, first: nat, ids: seq<nat>)
    ensures RngAfter(e, tokens, observed, rng, [first] + ids)
         == RngAfter(e, tokens + [first], observed + [first], RngAfter(e, tokens, observed, rng, [first]), ids)
  {
    hide StoresAfter, HiddenAfter;
    if ids == [] {
      assert [first] + ids == [first];
    } else {
      var n := |ids| - 1;
      RngFrom(e, tokens, observed, rng, first, ids[..n]);
      assert ([first] + ids)[..n + 1] == [first] + ids[..n];
      assert tokens + ([first] + ids[..n]) == tokens + [first] + ids[..n];
      assert observed + ([first] + ids[..n]) == observed + [first] + ids[..n];
    }
  }

  lemma SampledLater<F>(e: Env<F>, tokens: seq<nat>, observed: seq<nat>, rng: nat, first: nat, ids: seq<nat>, i: nat)
    requires i < |ids|
    requires IsSampled(e, tokens + [first], observed + [first], RngAfter(e, tokens, observed, rng, [first]), ids, i)
    ensures IsSampled(e, tokens, observed, rng, [first] + ids, i + 1)
  {
    hide StoresAfter, HiddenAfter, RngAfter;
    RngFrom(e, tokens, observed, rng, first, ids[..i]);
    assert ([first] + ids)[..i + 1] == [first] + ids[..i];
    assert tokens + ([first] + ids[..i]) == tokens + [first] + ids[..i];
    assert observed + ([first] + ids[..i]) == observed + [first] + ids[..i];
  }

  lemma FirstSampled<F>(e: Env<F>, tokens: seq<nat>, observed: seq<nat>, rng: nat, polls: nat, ids: seq<nat>)
    requires StoresAfter(e.m, e.cap, tokens).Some? && ids != []
    requires var x := Meet(e, tokens, observed, rng, polls); x.step.Token? && x.step.forwarded && x.next == ids[0]
    ensures IsSampled(e, tokens, observed, rng, ids, 0)
    ensures RngAfter(e, tokens, observed, rng, [ids[0]]) == Meet(e, tokens, observed, rng, polls).rng
  {
    hide StoresAfter, HiddenAfter;
    assert ids[..0] == [] && [ids[0]][..0] == [];
    assert tokens + [] == tokens && observed + [] == observed;
  }

  /** Every token kept is the sampler's own choice for its place, in order, with the generator carried along. */
  lemma {:induction false} DecodeIsSampled<F>(e: Env<F>, tokens: seq<nat>, observed: seq<nat>, rng: nat, polls: nat, s: Stream, steps: nat)
    requires StoresAfter(e.m, e.cap, tokens).Some? && s.flushed <= |s.response|
    ensures var ids := Decode(e, tokens, observed, rng, polls, s, steps).generated;
      forall i: nat :: i < |ids| ==> IsSampled(e, tokens, observed, rng, ids, i)
    decreases steps
  {
    hide StoresAfter, HiddenAfter, Decode, Round, Meet, IsSampled, RngAfter;
    if steps == 0 {
      NothingDecoded(e, tokens, observed, rng, polls, s);
    } else {
      var rest := DecodeUnfolds(e, tokens, observed, rng, polls, s, steps);
      var x := Meet(e, tokens, observed, rng, polls);
      if x.step.Token? && x.step.forwarded {
        var ids := [x.next] + rest.generated;
        FirstSampled(e, tokens, observed, rng, polls, ids);
        match Round(e.template.BitNetText?, s, x.step) {
          case None =>
          case Some(s1) =>
            DecodeIsSampled(e, tokens + [x.next], observed + [x.next], x.rng, polls + 1, s1, steps - 1);
            forall i: nat | i < |ids| ensures IsSampled(e, tokens, observed, rng, ids, i) {
              if i > 0 { SampledLater(e, tokens, observed, rng, x.next, rest.generated, i - 1); }
            }
        }
      } else {
        assert Round(e.template.BitNetText?, s, x.step).None? by { NoRound(e.template.BitNetText?, s, x.step); }
      }
    }
  }

  /** The bytes of the tokens that decode. */
  function TokenBytes(tok: Tokenizer, ids: seq<nat>): seq<byte> {
    if ids == [] then [] else
    var last := tok.decodeToBytes(ids[|ids| - 1]);
    TokenBytes(tok, ids[..|ids| - 1]) + (if last.Some? then last.value else [])
  }

  lemma {:induction false} TokenBytesConcat(tok: Tokenizer, a: seq<nat>, b: seq<nat>)
    ensures TokenBytes(tok, a + b) == TokenBytes(tok, a) + TokenBytes(tok, b)
    decreases |b|
  {
    if b == [] {
      assert a + b == a;
    } else {
      var init := b[..|b| - 1];
      TokenBytesConcat(tok, a, init);
      assert (a + b)[..|a + b| - 1] == a + init;
      var last := tok.decodeToBytes(b[|b| - 1]);
      Regroup(TokenBytes(tok, a), TokenBytes(tok, init), if last.Some? then last.value else []);
    }
  }

  lemma Regroup(x: seq<byte>, y: seq<byte>, z: seq<byte>)
    ensures x + y + z == x + (y + z)
  {
  }

  lemma {:induction false} BytesConcat(a: seq<Step>, b: seq<Step>)
    ensures BytesOf(a + b) == BytesOf(a) + BytesOf(b)
    decreases |b|
  {
    if b == [] {
      assert a + b == a;
    } else {
      var init, x := b[..|b| - 1], b[|b| - 1];
      BytesConcat(a, init);
      assert (a + b)[..|a + b| - 1] == a + init;
      Regroup(BytesOf(a), BytesOf(init), if x.Token? && x.bytes.Some? then x.bytes.value else []);
    }
  }

  /** Rounds that go on, then at most one that does not. */
  ghost predicate IsLoopFrom(bitnet: bool, s: Stream, done: seq<Step>, tail: seq<Step>)
    requires s.flushed <= |s.response|
  {
    && Rounds(bitnet, s, done).Some?
    && |tail| <= 1 && (tail != [] ==> Round(bitnet, Rounds(bitnet, s, done).value, tail[0]).None?)
  }

  lemma {:induction false} RoundsFront(bitnet: bool, s: Stream, x: Step, done: seq<Step>)
    requires s.flushed <= |s.response| && Round(bitnet, s, x).Some?
    ensures Rounds(bitnet, s, [x] + done) == Rounds(bitnet, Round(bitnet, s, x).value, done)
  {
    hide Round;
    if done == [] {
      assert [x] + done == [x] && [x][..0] == [];
      assert Rounds(bitnet, s, []) == Some(s);
    } else {
      var n := |done| - 1;
      RoundsFront(bitnet, s, x, done[..n]);
      assert ([x] + done)[..n + 1] == [x] + done[..n];
    }
  }

  /** The script of a decode loop, and that its tokens' bytes are those of the ids kept when it ends with a reply. */
  lemma {:induction false} DecodeIsLoop<F>(e: Env<F>, tokens: seq<nat>, observed: seq<nat>, rng: nat, polls: nat, s: Stream, steps: nat)
      returns (done: seq<Step>, tail: seq<Step>)
    requires StoresAfter(e.m, e.cap, tokens).Some? && s.flushed <= |s.response|
    ensures var d := Decode(e, tokens, observed, rng, polls, s, steps);
      && d.script == done + tail && IsLoopFrom(e.template.BitNetText?, s, done, tail)
      && (tail == [] || !tail[0].Token? || tail[0].forwarded ==> BytesOf(d.script) == TokenBytes(e.tok, d.generated))
    decreases steps
  {
    hide StoresAfter, HiddenAfter, Decode, Round, Rounds, Meet, BytesOf, TokenBytes, IsLoopFrom;
    LoopStarts(e.tok, e.template.BitNetText?, s);
    if steps == 0 {
      NothingDecoded(e, tokens, observed, rng, polls, s);
      done, tail := [], [];
    } else {
      var rest := DecodeUnfolds(e, tokens, observed, rng, polls, s, steps);
      var x := Meet(e, tokens, observed, rng, polls);
      var kept := if x.step.Token? && x.step.forwarded then [x.next] else [];
      MetBytes(e, tokens, observed, rng, polls);
      match Round(e.template.BitNetText?, s, x.step) {
        case None =>
          done, tail := [], [x.step];
          assert [x.step] + rest.script == done + tail == [x.step];
          assert kept + rest.generated == kept;
        case Some(s1) =>
          RoundIsToken(e.template.BitNetText?, s, x.step);
          var more;
          more, tail := DecodeIsLoop(e, tokens + kept, observed + kept, x.rng, polls + 1, s1, steps - 1);
          done := [x.step] + more;
          LoopGrows(e.template.BitNetText?, s, x.step, more, tail);
          BytesConcat([x.step], more + tail);
          TokenBytesConcat(e.tok, kept, rest.generated);
      }
    }
  }

  lemma LoopStarts(tok: Tokenizer, bitnet: bool, s: Stream)
    requires s.flushed <= |s.response|
    ensures IsLoopFrom(bitnet, s, [], []) && BytesOf([]) == TokenBytes(tok, [])
    ensures forall x :: Round(bitnet, s, x).None? ==> IsLoopFrom(bitnet, s, [], [x])
  {
    hide Round;
    assert Rounds(bitnet, s, []) == Some(s);
  }

  lemma LoopGrows(bitnet: bool, s: Stream, x: Step, done: seq<Step>, tail: seq<Step>)
    requires s.flushed <= |s.response| && Round(bitnet, s, x).Some? && IsLoopFrom(bitnet, Round(bitnet, s, x).value, done, tail)
    ensures IsLoopFrom(bitnet, s, [x] + done, tail) && [x] + done + tail == [x] + (done + tail)
  {
    hide Round, Rounds;
    RoundsFront(bitnet, s, x, done);
  }

  lemma MetBytes<F>(e: Env<F>, tokens: seq<nat>, observed: seq<nat>, rng: nat, polls: nat)
    requires StoresAfter(e.m, e.cap, tokens).Some?
    ensures var x := Meet(e, tokens, observed, rng, polls);
      var kept := if x.step.Token? && x.step.forwarded then [x.next] else [];
      !x.step.Token? || x.step.forwarded ==> BytesOf([x.step]) == TokenBytes(e.tok, kept)
  {
    hide StoresAfter, HiddenAfter;
    var x := Meet(e, tokens, observed, rng, polls);
    assert [x.step][..0] == [] && BytesOf([]) == [];
    assert [x.next][..0] == [] && TokenBytes(e.tok, []) == [];
  }

  /** A reply is the text of its tokens' bytes: whole, or up to the first marker made up. */
  lemma AnswerIsText<F>(e: Env<F>, tokens: seq<nat>, observed: seq<nat>, rng: nat, polls: nat, prompt: Option<seq<nat>>, maxNew: nat)
    ensures var a := TurnAnswer(e, tokens, observed, rng, polls, prompt, maxNew);
      a.reply.Reply? && a.committed ==> IsReplyText(e.template.BitNetText?, TokenBytes(e.tok, a.generated), a.recorded)
  {
    hide StoresAfter, HiddenAfter, PrefillFrom, Decode, Drive, IsReplyText, TokenBytes;
    if prompt.Some? && prompt.value != [] && |tokens| + |prompt.value| + maxNew <= e.cap {
      match PrefillFrom(e, tokens, prompt.value, 0, polls) {
        case CancelledAt(_, _) =>
        case FailedAt(_, _) =>
        case AllIn(after) =>
          DecodedText(e, tokens + prompt.value, observed + prompt.value, rng, after, maxNew);
      }
    }
  }

  lemma DecodedText<F>(e: Env<F>, tokens: seq<nat>, observed: seq<nat>, rng: nat, polls: nat, steps: nat)
    requires StoresAfter(e.m, e.cap, tokens).Some?
    ensures var d := Decode(e, tokens, observed, rng, polls, EMPTY, steps);
      var out := Drive(e.template.BitNetText?, EMPTY, d.script);
      out.Finished? ==> IsReplyText(e.template.BitNetText?, TokenBytes(e.tok, d.generated), out.stream.response)
  {
    hide StoresAfter, HiddenAfter, Decode, IsReplyText, TokenBytes, Rounds, Round, Finalize;
    var bitnet := e.template.BitNetText?;
    var done, tail := DecodeIsLoop(e, tokens, observed, rng, polls, EMPTY, steps);
    if Drive(bitnet, EMPTY, done + tail).Finished? {
      ReplyOfLoop(bitnet, done, tail);
      DriveAfterRounds(bitnet, EMPTY, done, tail);
    }
  }

  lemma NoRound(bitnet: bool, s: Stream, x: Step)
    requires s.flushed <= |s.response| && !(x.Token? && x.forwarded)
    ensures Round(bitnet, s, x).None?
  {
  }

  /** A prefill that takes in the whole prompt has polled the cancel flag once for every 32 tokens begun. */
  lemma {:induction false} PrefillPolls<F>(e: Env<F>, before: seq<nat>, prompt: seq<nat>, offset: nat, polls: nat)
    requires offset <= |prompt|
    ensures var r := PrefillFrom(e, before, prompt, offset, polls); r.AllIn? ==> r.polls == polls + (|prompt| - offset + 31) / 32
    decreases |prompt| - offset
  {
    hide StoresAfter, HiddenAfter, PrefillFrom;
    PrefillUnfolds(e, before, prompt, offset, polls);
    if offset < |prompt| {
      PrefillPolls(e, before, prompt, ChunkEnd(|prompt|, offset), polls + 1);
    }
  }

  lemma TruncateBack(observed: seq<nat>, more: seq<nat>)
    ensures Truncate(observed + more, |observed|) == observed
  {
    if more == [] {
      assert observed + more == observed;
    }
  }

  lemma FinalizeEmpty()
    ensures Finalize(EMPTY) == EMPTY
  {
  }

  lemma EmptyAgree()
    ensures AgreeBut(Parts("", "", ""), "", "")
  {
  }

  lemma EmptyHasNoMarker()
    ensures !HasMarker("")
  {
    EmptyInv(true);
  }

  lemma DriveEnd(bitnet: bool, s: Stream)
    requires s.flushed <= |s.response|
    ensures Drive(bitnet, s, []) == Finished(Finalize(s))
  {
  }

  lemma AppendKeepsFlushed(s: Stream, more: Option<seq<byte>>)
    requires s.flushed <= |s.response|
    ensures AppendTokenBytes(s, more).flushed <= |AppendTokenBytes(s, more).response|
  {
  }

  lemma RunOne<F>(m: Model<F>, cap: nat, cs: Cache<F>, token: nat, pos: nat)
    ensures RunTokens(m, cap, cs, [token], pos) == TokenForward(m, cap, cs, token, pos)
  {
    hide TokenForward;
    assert [token][..0] == [];
  }
}
