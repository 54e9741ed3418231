/** The utterance-generation orchestrator. The language model is an opaque
    function from a request to a batch of utterances or a failure; every
    stage threads the list of requests issued so far, so that which calls a
    run makes, in what order and with what slot values, can be stated. */
module Interactigen {
  import opened Results
  import opened Sequences
  import opened FirstSeen
  import opened Commands
  import opened Rules

  /** The language model behind the client: the reply to the request issued
      as the `i`-th call of a run. The call position lets replies differ
      between calls with equal requests. A failure (`Err`) stands for any
      exception the call raises, including exhausted parse retries. */
  type LanguageModel = (nat, ChatCommand) -> Result<seq<string>>

  /** Which LangChain base classes the bound model derives from. */
  datatype ModelKind = ModelKind(isChatModel: bool, isLlm: bool)

  /** A client: whether the model was bound as a chat model and as an LLM,
      and the model that executes its requests. */
  datatype Interactigen = Interactigen(chat: bool, llm: bool, model: LanguageModel)

  /** The outcome of a stage together with every request issued so far. */
  datatype Run = Run(result: Result<seq<string>>, trace: seq<ChatCommand>)

  /** Construction rejects a model that is an LLM but not a chat model, and
      accepts every other model, including one that is neither. */
  function NewInteractigen(kind: ModelKind, model: LanguageModel): (r: Result<Interactigen>)
    ensures r.Err? <==> !kind.isChatModel && kind.isLlm
    ensures r.Err? ==> r.error == "Unknown LangChain model type"
    ensures r.Ok? ==> r.value.chat == kind.isChatModel && r.value.llm == kind.isLlm
    ensures r.Ok? ==> forall i, c :: r.value.model(i, c) == model(i, c)
  {
    var chat := kind.isChatModel;
    var llm := kind.isLlm;
    if !chat && llm then Err("Unknown LangChain model type")
    else Ok(Interactigen(chat, llm, model))
  }

  /** The construction check as evidently intended: reject a model that is
      neither a chat model nor an LLM, so that every built client wraps a
      model of a kind the wrapper accepts. */
  function NewInteractigenIntended(kind: ModelKind, model: LanguageModel): (r: Result<Interactigen>)
    ensures r.Err? <==> !kind.isChatModel && !kind.isLlm
    ensures r.Err? ==> r.error == "Unknown LangChain model type"
    ensures r.Ok? ==> (r.value.chat || r.value.llm)
    ensures r.Ok? ==> r.value.chat == kind.isChatModel && r.value.llm == kind.isLlm
    ensures r.Ok? ==> forall i, c :: r.value.model(i, c) == model(i, c)
  {
    if !kind.isChatModel && !kind.isLlm then Err("Unknown LangChain model type")
    else Ok(Interactigen(kind.isChatModel, kind.isLlm, model))
  }

  /** The two checks agree on every chat model and disagree on every other
      kind: as written, a pure LLM is rejected and a model that is neither is
      accepted; as intended, the reverse. */
  lemma ConstructionChecksDiffer(kind: ModelKind, model: LanguageModel)
    ensures (NewInteractigen(kind, model).Ok? == NewInteractigenIntended(kind, model).Ok?) <==> kind.isChatModel
    ensures NewInteractigen(ModelKind(false, true), model).Err?
    ensures NewInteractigenIntended(ModelKind(false, true), model).Ok?
    ensures NewInteractigen(ModelKind(false, false), model).Ok?
    ensures NewInteractigenIntended(ModelKind(false, false), model).Err?
  {
  }

  /** Failures are never caught: every call issued after `t0` except the last
      succeeded, and the last one issued decides the outcome — its error is
      the run's error, and the run succeeds only if it succeeded. */
  ghost predicate Propagates(model: LanguageModel, t0: seq<ChatCommand>, r: Run)
  {
    && t0 <= r.trace
    && (forall i :: |t0| <= i < |r.trace| - 1 ==> model(i, r.trace[i]).Ok?)
    && (|t0| < |r.trace| ==>
          if r.result.Ok? then model(|r.trace| - 1, r.trace[|r.trace| - 1]).Ok?
          else model(|r.trace| - 1, r.trace[|r.trace| - 1]) == Err(r.result.error))
  }

  /** Issues `cmd` as the next call of the run, or fails without a call if
      the command could not be constructed. */
  function Execute(g: Interactigen, t0: seq<ChatCommand>, cmd: Result<ChatCommand>): Run
  {
    match cmd
    case Err(e) => Run(Err(e), t0)
    case Ok(c) => Run(g.model(|t0|, c), t0 + [c])
  }

  /** Init stage: one call asking for `quantity` phrasings of `basePhrase`. */
  function GeneratePhraseInitUtterances(g: Interactigen, t0: seq<ChatCommand>, basePhrase: Option<string>, quantity: Option<int>): (r: Run)
    ensures Propagates(g.model, t0, r)
    ensures basePhrase.None? ==> r == Run(Err("base_phrase is required"), t0)
    ensures basePhrase.Some? && quantity.None? ==> r == Run(Err("quantity is required"), t0)
    ensures basePhrase.Some? && quantity.Some? ==>
      var req := NewPhrasingsRequest(None, basePhrase.value, quantity.value);
      r == Run(g.model(|t0|, req), t0 + [req])
  {
    Execute(g, t0, GenNewPhrasings(None, basePhrase, quantity))
  }

  /** One transform call: the whole batch `utterances` rewritten by one
      instruction. */
  function GeneratePhraseTransforms(g: Interactigen, t0: seq<ChatCommand>, utterances: Option<seq<string>>, transformPhrase: Option<string>): (r: Run)
    ensures Propagates(g.model, t0, r)
    ensures utterances.None? ==> r == Run(Err("utterances is required"), t0)
    ensures utterances.Some? && transformPhrase.None? ==> r == Run(Err("transform_phrase is required"), t0)
    ensures utterances.Some? && transformPhrase.Some? ==>
      var req := TransformedPhrasingsRequest(None, utterances.value, transformPhrase.value);
      r == Run(g.model(|t0|, req), t0 + [req])
  {
    Execute(g, t0, GenTransformedPhrasings(None, utterances, transformPhrase))
  }

  /** The utterances of a reply, or nothing for a failed one. */
  function ReplyText(reply: Result<seq<string>>): seq<string>
  {
    if reply.Ok? then reply.value else []
  }

  /** The request applying one rule to the batch `u`; the pipeline never
      passes a session id. */
  function TransformRequest(u: seq<string>, rule: string): ChatCommand
  {
    TransformedPhrasingsRequest(None, u, rule)
  }

  /** The replies to transforming `u` by each rule in turn, the first issued
      as call `start`. */
  ghost function TransformReplies(model: LanguageModel, start: nat, u: seq<string>, rules: seq<string>): seq<seq<string>>
  {
    seq(|rules|, k requires 0 <= k < |rules| => ReplyText(model(start + k, TransformRequest(u, rules[k]))))
  }

  /** Every one of those transform calls succeeds. */
  ghost predicate AllReplied(model: LanguageModel, start: nat, u: seq<string>, rules: seq<string>)
  {
    forall k :: 0 <= k < |rules| ==> model(start + k, TransformRequest(u, rules[k])).Ok?
  }

  /** What a fan-out of `rules` over the batch `u` does, starting after the
      requests `t0`: one call per rule in rule order, each on the same batch
      `u`; it stops at the first failure; on success its result is the
      in-order concatenation of the replies. */
  ghost predicate FannedOut(model: LanguageModel, t0: seq<ChatCommand>, u: seq<string>, rules: seq<string>, r: Run)
  {
    && Propagates(model, t0, r)
    && |r.trace| <= |t0| + |rules|
    && (r.result.Err? ==> |t0| < |r.trace|)
    && (forall i :: |t0| <= i < |r.trace| ==> r.trace[i] == TransformRequest(u, rules[i - |t0|]))
    && (r.result.Ok? <==> AllReplied(model, |t0|, u, rules))
    && (r.result.Ok? ==>
          |r.trace| == |t0| + |rules| && r.result.value == Flatten(TransformReplies(model, |t0|, u, rules)))
  }

  /** Peeling the first rule off a fan-out's replies. */
  lemma TransformRepliesCons(model: LanguageModel, start: nat, u: seq<string>, rules: seq<string>)
    requires |rules| > 0
    ensures TransformReplies(model, start, u, rules)
            == [ReplyText(model(start, TransformRequest(u, rules[0])))] + TransformReplies(model, start + 1, u, rules[1..])
    ensures AllReplied(model, start, u, rules)
            <==> model(start, TransformRequest(u, rules[0])).Ok? && AllReplied(model, start + 1, u, rules[1..])
  {
  }

  /** A fan-out whose first call fails stops there. */
  lemma FannedOutFirstFails(model: LanguageModel, t0: seq<ChatCommand>, u: seq<string>, rules: seq<string>)
    requires |rules| > 0
    requires model(|t0|, TransformRequest(u, rules[0])).Err?
    ensures FannedOut(model, t0, u, rules, Run(model(|t0|, TransformRequest(u, rules[0])), t0 + [TransformRequest(u, rules[0])]))
  {
  }

  /** A fan-out whose first call succeeds is that call followed by the
      fan-out of the remaining rules. */
  lemma FannedOutCons(model: LanguageModel, t0: seq<ChatCommand>, u: seq<string>, rules: seq<string>, rest: Run)
    requires |rules| > 0
    requires model(|t0|, TransformRequest(u, rules[0])).Ok?
    requires FannedOut(model, t0 + [TransformRequest(u, rules[0])], u, rules[1..], rest)
    ensures var head := model(|t0|, TransformRequest(u, rules[0])).value;
      FannedOut(model, t0, u, rules, if rest.result.Err? then rest else Run(Ok(head + rest.result.value), rest.trace))
  {
    var req := TransformRequest(u, rules[0]);
    var head := model(|t0|, req).value;
    var t1 := t0 + [req];
    var r := if rest.result.Err? then rest else Run(Ok(head + rest.result.value), rest.trace);
    TransformRepliesCons(model, |t0|, u, rules);
    assert t0 <= r.trace by {
      assert r.trace[..|t0|] == t1[..|t0|];
    }
    forall i | |t0| <= i < |r.trace|
      ensures r.trace[i] == TransformRequest(u, rules[i - |t0|])
    {
      if i > |t0| {
        assert rules[1..][i - |t1|] == rules[i - |t0|];
      } else {
        assert r.trace[i] == t1[i];
      }
    }
    forall i | |t0| <= i < |r.trace| - 1
      ensures model(i, r.trace[i]).Ok?
    {
      if i == |t0| {
        assert r.trace[i] == req;
      }
    }
    if r.result.Ok? {
      var tail := TransformReplies(model, |t1|, u, rules[1..]);
      assert TransformReplies(model, |t0|, u, rules) == [head] + tail;
      assert Flatten([head] + tail) == head + Flatten(tail) by {
        assert ([head] + tail)[1..] == tail;
      }
    }
  }

  /** Applies every rule of `rules` to the same batch `utterances`, in order,
      and concatenates the replies. */
  function FanOut(g: Interactigen, t0: seq<ChatCommand>, utterances: seq<string>, rules: seq<string>): (r: Run)
    ensures FannedOut(g.model, t0, utterances, rules, r)
    decreases |rules|
  {
    if |rules| == 0 then Run(Ok([]), t0)
    else
      var first := GeneratePhraseTransforms(g, t0, Some(utterances), Some(rules[0]));
      if first.result.Err? then
        FannedOutFirstFails(g.model, t0, utterances, rules);
        first
      else
        var rest := FanOut(g, first.trace, utterances, rules[1..]);
        FannedOutCons(g.model, t0, utterances, rules, rest);
        if rest.result.Err? then rest
        else Run(Ok(first.result.value + rest.result.value), rest.trace)
  }

  /** A successful fan-out is exactly as long as all its replies together,
      and holds exactly the utterances of those replies. */
  lemma FanOutLength(model: LanguageModel, t0: seq<ChatCommand>, utterances: seq<string>, rules: seq<string>, r: Run)
    requires FannedOut(model, t0, utterances, rules, r)
    requires r.result.Ok?
    ensures |r.result.value| == TotalLength(TransformReplies(model, |t0|, utterances, rules))
    ensures forall x :: x in r.result.value <==>
      exists k :: 0 <= k < |rules| && x in TransformReplies(model, |t0|, utterances, rules)[k]
  {
    var replies := TransformReplies(model, |t0|, utterances, rules);
    FlattenLength(replies);
    forall x
      ensures x in r.result.value <==> exists k :: 0 <= k < |rules| && x in replies[k]
    {
      FlattenMembers(replies, x);
    }
  }

  /** The fan-out of the rules applied to every media type. */
  function GeneratePhraseTransformsAll(g: Interactigen, t0: seq<ChatCommand>, utterances: seq<string>): (r: Run)
    ensures FannedOut(g.model, t0, utterances, TransformPhrasesAll, r)
  {
    FanOut(g, t0, utterances, TransformPhrasesAll)
  }

  /** The fan-out of the voice-only rules. */
  function GeneratePhraseTransformsVoice(g: Interactigen, t0: seq<ChatCommand>, utterances: seq<string>): (r: Run)
    ensures FannedOut(g.model, t0, utterances, TransformPhrasesVoice, r)
  {
    FanOut(g, t0, utterances, TransformPhrasesVoice)
  }

  /** The fan-out of the text-only rules. */
  function GeneratePhraseTransformsText(g: Interactigen, t0: seq<ChatCommand>, utterances: seq<string>): (r: Run)
    ensures FannedOut(g.model, t0, utterances, TransformPhrasesText, r)
  {
    FanOut(g, t0, utterances, TransformPhrasesText)
  }

  /** What the base stage does after the requests `t0`: the init call, then
      one call per base rule, each on the whole init batch (never on another
      rule's output); on success the init batch followed by the replies in
      rule order. */
  ghost predicate BaseStage(model: LanguageModel, t0: seq<ChatCommand>, basePhrase: string, quantity: int, r: Run)
  {
    var req := NewPhrasingsRequest(None, basePhrase, quantity);
    var init := model(|t0|, req);
    && Propagates(model, t0, r)
    && |t0| < |r.trace| && r.trace[|t0|] == req
    && (init.Err? ==> r == Run(Err(init.error), t0 + [req]))
    && (init.Ok? ==>
          && |r.trace| <= |t0| + 1 + |TransformPhrasesBase|
          && (forall i :: |t0| < i < |r.trace| ==> r.trace[i] == TransformRequest(init.value, TransformPhrasesBase[i - |t0| - 1]))
          && (r.result.Ok? <==> AllReplied(model, |t0| + 1, init.value, TransformPhrasesBase))
          && (r.result.Ok? ==>
                && |r.trace| == |t0| + 1 + |TransformPhrasesBase|
                && r.result.value == init.value + Flatten(TransformReplies(model, |t0| + 1, init.value, TransformPhrasesBase))))
  }

  /** Base stage: the init utterances followed by every base rule applied to
      them. */
  function GeneratePhraseBaseUtterances(g: Interactigen, t0: seq<ChatCommand>, basePhrase: Option<string>, initQuantity: Option<int>): (r: Run)
    ensures Propagates(g.model, t0, r)
    ensures basePhrase.None? ==> r == Run(Err("base_phrase is required"), t0)
    ensures basePhrase.Some? && initQuantity.None? ==> r == Run(Err("quantity is required"), t0)
    ensures basePhrase.Some? && initQuantity.Some? ==> BaseStage(g.model, t0, basePhrase.value, initQuantity.value, r)
  {
    var init := GeneratePhraseInitUtterances(g, t0, basePhrase, initQuantity);
    if init.result.Err? then init
    else
      var transformed := FanOut(g, init.trace, init.result.value, TransformPhrasesBase);
      if transformed.result.Err? then transformed
      else Run(Ok(init.result.value + transformed.result.value), transformed.trace)
  }

  /** The reply to the init call of a run. */
  ghost function InitReply(model: LanguageModel, basePhrase: string, quantity: int): Result<seq<string>>
  {
    model(0, NewPhrasingsRequest(None, basePhrase, quantity))
  }

  /** The base utterances of a run whose init call succeeded: the init batch
      followed by the replies to the base rules. */
  ghost function BaseBatch(model: LanguageModel, basePhrase: string, quantity: int): seq<string>
  {
    var init := ReplyText(InitReply(model, basePhrase, quantity));
    init + Flatten(TransformReplies(model, 1, init, TransformPhrasesBase))
  }

  /** The rules applied to the base utterances, in call order. */
  function LaterRules(mediaType: string): seq<string>
  {
    TransformPhrasesAll + MediaRules(mediaType)
  }

  /** The number of calls a run makes when every call succeeds. */
  function ScheduleLength(mediaType: string): nat
  {
    1 + |TransformPhrasesBase| + |LaterRules(mediaType)|
  }

  /** The `i`-th request of a run: the init request; then each base rule on the
      init batch; then each all-media rule and each rule for `mediaType`, all
      on the base utterances. */
  ghost function ScheduledRequest(model: LanguageModel, basePhrase: string, quantity: int, mediaType: string, i: nat): ChatCommand
    requires i < ScheduleLength(mediaType)
  {
    if i == 0 then NewPhrasingsRequest(None, basePhrase, quantity)
    else if i <= |TransformPhrasesBase| then
      TransformRequest(ReplyText(InitReply(model, basePhrase, quantity)), TransformPhrasesBase[i - 1])
    else
      TransformRequest(BaseBatch(model, basePhrase, quantity), LaterRules(mediaType)[i - 1 - |TransformPhrasesBase|])
  }

  /** The pool of a run whose calls all succeed: base utterances, then the
      all-media replies, then the media-specific replies. */
  ghost function SchedulePool(model: LanguageModel, basePhrase: string, quantity: int, mediaType: string): seq<string>
  {
    var base := BaseBatch(model, basePhrase, quantity);
    var n := 1 + |TransformPhrasesBase|;
    base
    + Flatten(TransformReplies(model, n, base, TransformPhrasesAll))
    + Flatten(TransformReplies(model, n + |TransformPhrasesAll|, base, MediaRules(mediaType)))
  }

  /** What a run does: it issues a prefix of the schedule, at least the init
      call; it stops at the first failing call; it succeeds exactly when it
      issued the whole schedule and every call succeeded, and then its result
      is the schedule's pool. */
  ghost predicate Scheduled(model: LanguageModel, basePhrase: string, quantity: int, mediaType: string, r: Run)
  {
    && Propagates(model, [], r)
    && 0 < |r.trace| <= ScheduleLength(mediaType)
    && (forall i :: 0 <= i < |r.trace| ==> r.trace[i] == ScheduledRequest(model, basePhrase, quantity, mediaType, i))
    && (r.result.Ok? ==>
          && |r.trace| == ScheduleLength(mediaType)
          && r.result.value == SchedulePool(model, basePhrase, quantity, mediaType))
  }

  /** Runs `next` after `first` succeeded, concatenating their results. */
  function Then(first: Run, next: Run): Run
  {
    if first.result.Err? then first
    else if next.result.Err? then next
    else Run(Ok(first.result.value + next.result.value), next.trace)
  }

  /** The replies of two consecutive fan-outs over the same batch are the
      replies of one fan-out of both rule lists. */
  lemma TransformRepliesAppend(model: LanguageModel, start: nat, u: seq<string>, rs1: seq<string>, rs2: seq<string>)
    ensures TransformReplies(model, start, u, rs1 + rs2)
            == TransformReplies(model, start, u, rs1) + TransformReplies(model, start + |rs1|, u, rs2)
    ensures AllReplied(model, start, u, rs1 + rs2)
            <==> AllReplied(model, start, u, rs1) && AllReplied(model, start + |rs1|, u, rs2)
  {
    var rs := rs1 + rs2;
    assert forall k :: |rs1| <= k < |rs| ==> rs[k] == rs2[k - |rs1|];
    if AllReplied(model, start, u, rs1) && AllReplied(model, start + |rs1|, u, rs2) {
      forall k | 0 <= k < |rs|
        ensures model(start + k, TransformRequest(u, rs[k])).Ok?
      {
        if k >= |rs1| {
          assert model(start + |rs1| + (k - |rs1|), TransformRequest(u, rs2[k - |rs1|])).Ok?;
        }
      }
    }
    if AllReplied(model, start, u, rs) {
      forall k | 0 <= k < |rs1|
        ensures model(start + k, TransformRequest(u, rs1[k])).Ok?
      {
        assert rs[k] == rs1[k];
      }
      forall k | 0 <= k < |rs2|
        ensures model(start + |rs1| + k, TransformRequest(u, rs2[k])).Ok?
      {
        assert rs[|rs1| + k] == rs2[k];
        assert model(start + (|rs1| + k), TransformRequest(u, rs[|rs1| + k])).Ok?;
      }
    }
  }

  /** Two consecutive fan-outs over the same batch behave as one fan-out of
      the concatenated rule lists. */
  lemma FannedOutAppend(model: LanguageModel, t0: seq<ChatCommand>, u: seq<string>, rs1: seq<string>, rs2: seq<string>, r1: Run, r2: Run)
    requires FannedOut(model, t0, u, rs1, r1)
    requires r1.result.Ok? ==> FannedOut(model, r1.trace, u, rs2, r2)
    ensures FannedOut(model, t0, u, rs1 + rs2, Then(r1, r2))
  {
    TransformRepliesAppend(model, |t0|, u, rs1, rs2);
    var r := Then(r1, r2);
    if r1.result.Ok? {
      var rs := rs1 + rs2;
      assert t0 <= r.trace by {
        assert r.trace[..|t0|] == r1.trace[..|t0|];
      }
      forall i | |t0| <= i < |r.trace|
        ensures r.trace[i] == TransformRequest(u, rs[i - |t0|])
      {
        if i >= |r1.trace| {
          assert rs[i - |t0|] == rs2[i - |r1.trace|];
        } else {
          assert r.trace[i] == r1.trace[i];
        }
      }
      forall i | |t0| <= i < |r.trace| - 1
        ensures model(i, r.trace[i]).Ok?
      {
        if i < |r1.trace| {
          assert r.trace[i] == r1.trace[i];
        }
      }
      if r.result.Ok? {
        FlattenAppend(TransformReplies(model, |t0|, u, rs1), TransformReplies(model, |r1.trace|, u, rs2));
      }
    }
  }

  /** A run whose base stage fails stops there. */
  lemma ScheduledBaseFails(model: LanguageModel, basePhrase: string, quantity: int, mediaType: string, base: Run)
    requires BaseStage(model, [], basePhrase, quantity, base)
    requires base.result.Err?
    ensures Scheduled(model, basePhrase, quantity, mediaType, base)
  {
  }

  /** The requests of a run whose base stage succeeded follow the schedule. */
  lemma ScheduledRequests(model: LanguageModel, basePhrase: string, quantity: int, mediaType: string, base: Run, later: Run)
    requires BaseStage(model, [], basePhrase, quantity, base)
    requires base.result.Ok?
    requires FannedOut(model, base.trace, base.result.value, LaterRules(mediaType), later)
    ensures forall i :: 0 <= i < |later.trace| ==> later.trace[i] == ScheduledRequest(model, basePhrase, quantity, mediaType, i)
  {
  }

  /** The pool of a run whose calls all succeeded is the schedule's pool. */
  lemma ScheduledPool(model: LanguageModel, basePhrase: string, quantity: int, mediaType: string, base: Run, later: Run)
    requires BaseStage(model, [], basePhrase, quantity, base)
    requires base.result.Ok?
    requires FannedOut(model, base.trace, base.result.value, LaterRules(mediaType), later)
    requires later.result.Ok?
    ensures base.result.value + later.result.value == SchedulePool(model, basePhrase, quantity, mediaType)
  {
    var nb := 1 + |TransformPhrasesBase|;
    var b := base.result.value;
    assert b == BaseBatch(model, basePhrase, quantity);
    TransformRepliesAppend(model, nb, b, TransformPhrasesAll, MediaRules(mediaType));
    FlattenAppend(TransformReplies(model, nb, b, TransformPhrasesAll),
                  TransformReplies(model, nb + |TransformPhrasesAll|, b, MediaRules(mediaType)));
  }

  /** A run is its base stage followed by one fan-out of the later rules over
      the base utterances. */
  lemma ScheduledFromStages(model: LanguageModel, basePhrase: string, quantity: int, mediaType: string, base: Run, later: Run)
    requires BaseStage(model, [], basePhrase, quantity, base)
    requires base.result.Ok?
    requires FannedOut(model, base.trace, base.result.value, LaterRules(mediaType), later)
    ensures Scheduled(model, basePhrase, quantity, mediaType, Then(base, later))
  {
    var r := Then(base, later);
    var nb := 1 + |TransformPhrasesBase|;
    ScheduledRequests(model, basePhrase, quantity, mediaType, base, later);
    forall i | 0 <= i < |r.trace| - 1
      ensures model(i, r.trace[i]).Ok?
    {
      if i < nb {
        assert r.trace[i] == base.trace[i];
      }
    }
    if r.result.Ok? {
      ScheduledPool(model, basePhrase, quantity, mediaType, base, later);
    }
  }

  /** The media stage: the voice fan-out for a voice run, the text fan-out
      for any other media type. */
  function GeneratePhraseTransformsMedia(g: Interactigen, t0: seq<ChatCommand>, utterances: seq<string>, mediaType: string): (r: Run)
    ensures FannedOut(g.model, t0, utterances, MediaRules(mediaType), r)
  {
    if mediaType == VoiceMediaType then GeneratePhraseTransformsVoice(g, t0, utterances)
    else GeneratePhraseTransformsText(g, t0, utterances)
  }

  /** Assembly: base utterances, then the all-media fan-out over them, then
      exactly one media fan-out over them, chosen by `mediaType`. A missing
      base phrase or quantity fails before any call; otherwise assembly
      follows the schedule. */
  function AssemblePool(g: Interactigen, basePhrase: Option<string>, initQuantity: Option<int>, mediaType: string): (r: Run)
    ensures basePhrase.None? ==> r == Run(Err("base_phrase is required"), [])
    ensures basePhrase.Some? && initQuantity.None? ==> r == Run(Err("quantity is required"), [])
    ensures basePhrase.Some? && initQuantity.Some? ==>
      Scheduled(g.model, basePhrase.value, initQuantity.value, mediaType, r)
  {
    if basePhrase.None? || initQuantity.None? then
      // The base stage raises the constructor's error before any call.
      GeneratePhraseBaseUtterances(g, [], basePhrase, initQuantity)
    else
      var bp, q := basePhrase.value, initQuantity.value;
      var base := GeneratePhraseBaseUtterances(g, [], basePhrase, initQuantity);
      if base.result.Err? then
        ScheduledBaseFails(g.model, bp, q, mediaType, base);
        assert Scheduled(g.model, bp, q, mediaType, base);
        base
      else
        var b := base.result.value;
        var all := GeneratePhraseTransformsAll(g, base.trace, b);
        if all.result.Err? then
          FannedOutAppend(g.model, base.trace, b, TransformPhrasesAll, MediaRules(mediaType), all, all);
          ScheduledFromStages(g.model, bp, q, mediaType, base, all);
          assert Scheduled(g.model, bp, q, mediaType, all);
          all
        else
          var media := GeneratePhraseTransformsMedia(g, all.trace, b, mediaType);
          FannedOutAppend(g.model, base.trace, b, TransformPhrasesAll, MediaRules(mediaType), all, media);
          ScheduledFromStages(g.model, bp, q, mediaType, base, Then(all, media));
          var r := Then(base, Then(all, media));
          assert Scheduled(g.model, bp, q, mediaType, r);
          if media.result.Err? then
            assert r == media;
            media
          else
            assert b + all.result.value + media.result.value == b + (all.result.value + media.result.value);
            assert r == Run(Ok(b + all.result.value + media.result.value), media.trace);
            Run(Ok(b + all.result.value + media.result.value), media.trace)
  }

  /** A scheduled run succeeds exactly when every scheduled call succeeds;
      then it made 6 calls for a voice run and 7 for any other media type. */
  lemma ScheduledSucceedsIff(model: LanguageModel, basePhrase: string, quantity: int, mediaType: string, r: Run)
    requires Scheduled(model, basePhrase, quantity, mediaType, r)
    ensures r.result.Ok? <==>
      forall i :: 0 <= i < ScheduleLength(mediaType) ==> model(i, ScheduledRequest(model, basePhrase, quantity, mediaType, i)).Ok?
    ensures r.result.Ok? ==> |r.trace| == if mediaType == VoiceMediaType then 6 else 7
  {
  }

  /** The schedule's pool starts with the base utterances, which start with
      the init utterances. */
  lemma SchedulePoolLeadsWithBase(model: LanguageModel, basePhrase: string, quantity: int, mediaType: string)
    ensures var base := BaseBatch(model, basePhrase, quantity);
      var pool := SchedulePool(model, basePhrase, quantity, mediaType);
      && |base| <= |pool| && pool == base + pool[|base|..]
      && forall x :: x in ReplyText(InitReply(model, basePhrase, quantity)) ==> x in base
  {
  }

  /** The deduplicated pool is led by the deduplicated base utterances and
      holds every init utterance. */
  lemma DedupedSchedulePool(model: LanguageModel, basePhrase: string, quantity: int, mediaType: string)
    ensures var pool := SchedulePool(model, basePhrase, quantity, mediaType);
      && Dedup(BaseBatch(model, basePhrase, quantity)) <= Dedup(pool)
      && forall x :: x in ReplyText(InitReply(model, basePhrase, quantity)) ==> x in Dedup(pool)
  {
    var base := BaseBatch(model, basePhrase, quantity);
    var pool := SchedulePool(model, basePhrase, quantity, mediaType);
    SchedulePoolLeadsWithBase(model, basePhrase, quantity, mediaType);
    DedupKeepsLeadingBatch(base, pool[|base|..]);
  }

  /** The rules of the media type a run does not have. */
  function ExcludedRules(mediaType: string): seq<string>
  {
    if mediaType == VoiceMediaType then TransformPhrasesText else TransformPhrasesVoice
  }

  /** Every instruction a run may send is a base rule or a later rule of its
      media type, and none of those belongs to the other media type. */
  lemma ScheduledInstructions(model: LanguageModel, basePhrase: string, quantity: int, mediaType: string, i: nat)
    requires i < ScheduleLength(mediaType)
    ensures var c := ScheduledRequest(model, basePhrase, quantity, mediaType, i);
      "transform_phrase" in c.inputs ==>
        c.inputs["transform_phrase"].Text? && c.inputs["transform_phrase"].text !in ExcludedRules(mediaType)
  {
  }

  /** A scheduled run never sends a rule of the other media type. */
  lemma ScheduledExcludesOtherMedia(model: LanguageModel, basePhrase: string, quantity: int, mediaType: string, r: Run)
    requires Scheduled(model, basePhrase, quantity, mediaType, r)
    ensures forall i :: 0 <= i < |r.trace| && "transform_phrase" in r.trace[i].inputs ==>
      r.trace[i].inputs["transform_phrase"].Text? && r.trace[i].inputs["transform_phrase"].text !in ExcludedRules(mediaType)
  {
    forall i | 0 <= i < |r.trace| && "transform_phrase" in r.trace[i].inputs
      ensures r.trace[i].inputs["transform_phrase"].Text? && r.trace[i].inputs["transform_phrase"].text !in ExcludedRules(mediaType)
    {
      ScheduledInstructions(model, basePhrase, quantity, mediaType, i);
    }
  }

  /** The entry point: the assembled pool, deduplicated first-seen.
      With both arguments present, a run issues a non-empty prefix of the
      schedule and stops at the first failing call, whose error becomes the
      run's error; it succeeds exactly when every scheduled call succeeds,
      making 6 calls for a voice run and 7 otherwise; it never sends a rule of
      the other media type; and its result is the first-seen deduplication of
      the schedule's pool. */
  function GeneratePhraseUtterances(g: Interactigen, basePhrase: Option<string>, initQuantity: Option<int>, mediaType: string): (r: Run)
    ensures basePhrase.None? ==> r == Run(Err("base_phrase is required"), [])
    ensures basePhrase.Some? && initQuantity.None? ==> r == Run(Err("quantity is required"), [])
    ensures basePhrase.Some? && initQuantity.Some? ==>
      && Propagates(g.model, [], r)
      && 0 < |r.trace| <= ScheduleLength(mediaType)
      && forall i :: 0 <= i < |r.trace| ==>
           r.trace[i] == ScheduledRequest(g.model, basePhrase.value, initQuantity.value, mediaType, i)
    ensures basePhrase.Some? && initQuantity.Some? ==>
      (r.result.Ok? <==>
         forall i :: 0 <= i < ScheduleLength(mediaType) ==>
           g.model(i, ScheduledRequest(g.model, basePhrase.value, initQuantity.value, mediaType, i)).Ok?)
    ensures r.result.Ok? ==> |r.trace| == if mediaType == VoiceMediaType then 6 else 7
    ensures forall i :: 0 <= i < |r.trace| && "transform_phrase" in r.trace[i].inputs ==>
      r.trace[i].inputs["transform_phrase"].Text? && r.trace[i].inputs["transform_phrase"].text !in ExcludedRules(mediaType)
    ensures r.result.Ok? ==>
      var pool := SchedulePool(g.model, basePhrase.value, initQuantity.value, mediaType);
      && r.result.value == Dedup(pool)
      && NoDuplicates(r.result.value)
      && |r.result.value| <= |pool|
      && (forall x :: x in r.result.value <==> x in pool)
      && Dedup(BaseBatch(g.model, basePhrase.value, initQuantity.value)) <= r.result.value
      && (forall x :: x in ReplyText(InitReply(g.model, basePhrase.value, initQuantity.value)) ==> x in r.result.value)
  {
    var pool := AssemblePool(g, basePhrase, initQuantity, mediaType);
    if basePhrase.None? || initQuantity.None? then pool
    else
      var bp, q := basePhrase.value, initQuantity.value;
      ScheduledSucceedsIff(g.model, bp, q, mediaType, pool);
      ScheduledExcludesOtherMedia(g.model, bp, q, mediaType, pool);
      if pool.result.Err? then pool
      else
        DedupedSchedulePool(g.model, bp, q, mediaType);
        Run(Ok(Dedup(pool.result.value)), pool.trace)
  }

  /** The entry point called with its default arguments: ten init
      utterances and the voice rules. */
  function GeneratePhraseUtterancesWithDefaults(g: Interactigen, basePhrase: Option<string>): (r: Run)
    ensures basePhrase.None? ==> r == Run(Err("base_phrase is required"), [])
    ensures basePhrase.Some? ==>
      && Propagates(g.model, [], r)
      && 0 < |r.trace| <= 6
      && r.trace[0] == NewPhrasingsRequest(None, basePhrase.value, 10)
    ensures r.result.Ok? ==> |r.trace| == 6
    ensures forall i :: 0 <= i < |r.trace| && "transform_phrase" in r.trace[i].inputs ==>
      r.trace[i].inputs["transform_phrase"].Text? && r.trace[i].inputs["transform_phrase"].text !in TransformPhrasesText
    ensures r.result.Ok? ==>
      var pool := SchedulePool(g.model, basePhrase.value, 10, "voice");
      && r.result.value == Dedup(pool)
      && NoDuplicates(r.result.value)
      && (forall x :: x in r.result.value <==> x in pool)
  {
    GeneratePhraseUtterances(g, basePhrase, Some(DefaultInitQuantity), DefaultMediaType)
  }
}
