/** The two request objects the orchestrator sends to the language model.
    Each constructor checks its required fields in a fixed order and builds
    the `inputs` map whose entries fill the slots of the request's prompt
    template. */
module Commands {
  import opened Results

  /** A value filling one prompt slot. */
  datatype SlotValue = Text(text: string) | Number(number: int) | TextList(items: seq<string>)

  /** A chat request: session id, command name, and the slot values. The
      system prompt, prompt template and output parser are fixed per command
      name and are not modelled. */
  datatype ChatCommand = ChatCommand(sessionId: Option<string>, cmdName: string, inputs: map<string, SlotValue>)

  const NewPhrasingsName := "GenNewPhrasings"
  const TransformedPhrasingsName := "GenTransformedPhrasings"

  /** The request asking for `quantity` diverse phrasings of `basePhrase`. */
  function NewPhrasingsRequest(sessionId: Option<string>, basePhrase: string, quantity: int): ChatCommand
  {
    ChatCommand(sessionId, NewPhrasingsName, map["base_phrase" := Text(basePhrase), "quantity" := Number(quantity)])
  }

  /** The request asking for `utterances` rewritten by `transformPhrase`. */
  function TransformedPhrasingsRequest(sessionId: Option<string>, utterances: seq<string>, transformPhrase: string): ChatCommand
  {
    ChatCommand(sessionId, TransformedPhrasingsName,
                map["utterances" := TextList(utterances), "transform_phrase" := Text(transformPhrase)])
  }

  /** Construction of a new-phrasings request. Only a missing (`None`) field is
      rejected, `base_phrase` first; any string and any integer, empty or
      negative, is accepted. */
  function GenNewPhrasings(sessionId: Option<string>, basePhrase: Option<string>, quantity: Option<int>): (r: Result<ChatCommand>)
    ensures basePhrase.None? ==> r == Err("base_phrase is required")
    ensures basePhrase.Some? && quantity.None? ==> r == Err("quantity is required")
    ensures r.Ok? <==> basePhrase.Some? && quantity.Some?
    ensures r.Ok? ==>
      && r.value.sessionId == sessionId
      && r.value.cmdName == NewPhrasingsName
      && r.value.inputs.Keys == {"base_phrase", "quantity"}
      && r.value.inputs["base_phrase"] == Text(basePhrase.value)
      && r.value.inputs["quantity"] == Number(quantity.value)
  {
    if basePhrase.None? then Err("base_phrase is required")
    else if quantity.None? then Err("quantity is required")
    else Ok(NewPhrasingsRequest(sessionId, basePhrase.value, quantity.value))
  }

  /** Construction of a transformed-phrasings request. Only a missing (`None`)
      field is rejected, `utterances` first; an empty batch and an empty
      instruction are accepted. */
  function GenTransformedPhrasings(sessionId: Option<string>, utterances: Option<seq<string>>, transformPhrase: Option<string>): (r: Result<ChatCommand>)
    ensures utterances.None? ==> r == Err("utterances is required")
    ensures utterances.Some? && transformPhrase.None? ==> r == Err("transform_phrase is required")
    ensures r.Ok? <==> utterances.Some? && transformPhrase.Some?
    ensures r.Ok? ==>
      && r.value.sessionId == sessionId
      && r.value.cmdName == TransformedPhrasingsName
      && r.value.inputs.Keys == {"utterances", "transform_phrase"}
      && r.value.inputs["utterances"] == TextList(utterances.value)
      && r.value.inputs["transform_phrase"] == Text(transformPhrase.value)
  {
    if utterances.None? then Err("utterances is required")
    else if transformPhrase.None? then Err("transform_phrase is required")
    else Ok(TransformedPhrasingsRequest(sessionId, utterances.value, transformPhrase.value))
  }

  /** Reads the new-phrasings slots back out of a request, if it has them. */
  function NewPhrasingsSlots(c: ChatCommand): Option<(string, int)>
  {
    if c.cmdName == NewPhrasingsName && "base_phrase" in c.inputs && "quantity" in c.inputs
       && c.inputs["base_phrase"].Text? && c.inputs["quantity"].Number?
    then Some((c.inputs["base_phrase"].text, c.inputs["quantity"].number))
    else None
  }

  /** Reads the transformed-phrasings slots back out of a request, if it has them. */
  function TransformedPhrasingsSlots(c: ChatCommand): Option<(seq<string>, string)>
  {
    if c.cmdName == TransformedPhrasingsName && "utterances" in c.inputs && "transform_phrase" in c.inputs
       && c.inputs["utterances"].TextList? && c.inputs["transform_phrase"].Text?
    then Some((c.inputs["utterances"].items, c.inputs["transform_phrase"].text))
    else None
  }

  /** A constructed new-phrasings request is determined by its slots: the
      constructor returns `c` exactly when both arguments are present and `c`
      carries the caller's session id, exactly the two slots, and reads back
      the caller's phrase and quantity. */
  lemma NewPhrasingsRoundTrip(sessionId: Option<string>, basePhrase: Option<string>, quantity: Option<int>, c: ChatCommand)
    ensures GenNewPhrasings(sessionId, basePhrase, quantity) == Ok(c) <==>
      && basePhrase.Some? && quantity.Some?
      && c.sessionId == sessionId
      && c.inputs.Keys == {"base_phrase", "quantity"}
      && NewPhrasingsSlots(c) == Some((basePhrase.value, quantity.value))
  {
    if && basePhrase.Some? && quantity.Some?
       && c.sessionId == sessionId
       && c.inputs.Keys == {"base_phrase", "quantity"}
       && NewPhrasingsSlots(c) == Some((basePhrase.value, quantity.value))
    {
      assert c.inputs == NewPhrasingsRequest(sessionId, basePhrase.value, quantity.value).inputs;
    }
  }

  /** A constructed transformed-phrasings request is determined by its slots,
      in the same way. */
  lemma TransformedPhrasingsRoundTrip(sessionId: Option<string>, utterances: Option<seq<string>>, transformPhrase: Option<string>, c: ChatCommand)
    ensures GenTransformedPhrasings(sessionId, utterances, transformPhrase) == Ok(c) <==>
      && utterances.Some? && transformPhrase.Some?
      && c.sessionId == sessionId
      && c.inputs.Keys == {"utterances", "transform_phrase"}
      && TransformedPhrasingsSlots(c) == Some((utterances.value, transformPhrase.value))
  {
    if && utterances.Some? && transformPhrase.Some?
       && c.sessionId == sessionId
       && c.inputs.Keys == {"utterances", "transform_phrase"}
       && TransformedPhrasingsSlots(c) == Some((utterances.value, transformPhrase.value))
    {
      assert c.inputs == TransformedPhrasingsRequest(sessionId, utterances.value, transformPhrase.value).inputs;
    }
  }
}
