/** The cloud engine's `/run-engine` endpoint: which layers run for a payload,
    which lists the response carries, and how errors become responses; and
    the two JSON converters the payload is read with.

    The layers themselves are modelled in their own modules. Here a layer is
    a function parameter. Layers 2-4 are each handed the Layer 1 lists, but
    the boosters rewrite the scores of the view objects in those lists in
    place and return new lists of the same objects; so each layer is given
    the state `W` of the shared view objects that the previous layer left,
    and returns its lists with the state it leaves. The response and Layer
    5's rank fusion read the objects in the state the last layer left. */
module CloudEndpoint {
  import opened Wrappers
  import Text

  /** The `Config` object of the payload: one switch per optional layer. */
  datatype EngineConfig = EngineConfig(l2: bool, l3: bool, l4: bool, l5: bool)

  /** What the dispatch reads of a deserialised payload: its `Config`
      (`None` when the JSON has none) and whether each layer's data is
      present (non-null). */
  datatype Payload = Payload(
    config: Option<EngineConfig>,
    hasLayer2Data: bool,
    hasLayer3Data: bool,
    hasLayer4Data: bool)

  /** A star list, a planet list and a moon list. */
  datatype Lists<S, P, M> = Lists(stars: seq<S>, planets: seq<P>, moons: seq<M>)

  /** Three lists of view objects, with the state `views` of every view
      object (their scores and match percentages) at that point. */
  datatype Stage<S, P, M, W> = Stage(lists: Lists<S, P, M>, views: W)

  /** A boosting layer: given the Layer 1 lists and the state of the view
      objects, its lists and the state it leaves, or the exception it
      throws. */
  type Booster<!S, !P, !M, !W> = (Lists<S, P, M>, W) -> Result<Stage<S, P, M, W>, Exception>

  /** Layer 5's GA handler (seed 42): given the lists of Layers 1-4 and the
      state of their view objects, its three lists of GA objects. */
  type Fusion<!S, !P, !M, !W, G> = (Lists<S, P, M>, Lists<S, P, M>, Lists<S, P, M>, Lists<S, P, M>, W)
                                -> Result<Lists<G, G, G>, Exception>

  /** The three fresh empty lists a layer's results start as. */
  function NoLists<S, P, M>(): (r: Lists<S, P, M>)
    ensures r.stars == [] && r.planets == [] && r.moons == []
  {
    Lists([], [], [])
  }

  /** The HTTP results the endpoint returns: `Results.BadRequest`,
      `Results.Json` with the view objects of Layers 1-4 or with the Layer 5
      GA objects, and `Results.Problem`. */
  datatype Response<S, P, M, W, G> =
    | BadRequest(message: string)
    | ViewsJson(views: Stage<S, P, M, W>)
    | FusedJson(fused: Lists<G, G, G>)
    | Problem(message: string)

  const EmptyPayloadMessage := "Empty payload received."

  /** The message of the `NullReferenceException` .NET throws when a null
      reference is dereferenced. */
  const NullReferenceMessage := "Object reference not set to an instance of an object."

  /** Layer 2 runs when the payload has a config with `L2` on and trend data. */
  predicate RunsLayer2(p: Payload) {
    p.config.Some? && p.config.value.l2 && p.hasLayer2Data
  }

  /** Layer 3 runs when the payload has a config with `L3` on and matrix data. */
  predicate RunsLayer3(p: Payload) {
    p.config.Some? && p.config.value.l3 && p.hasLayer3Data
  }

  /** Layer 4 reads `Config.L4` without checking the config for null. */
  predicate RunsLayer4(p: Payload)
    requires p.config.Some?
  {
    p.config.value.l4 && p.hasLayer4Data
  }

  /** One optional layer: when it runs, the booster on the Layer 1 lists and
      the current state of the views; otherwise empty lists, and the views
      as they were. */
  function Step<S, P, M, W>(runs: bool, boost: Booster<S, P, M, W>, l1: Lists<S, P, M>, views: W)
    : (r: Result<Stage<S, P, M, W>, Exception>)
    ensures runs ==> r == boost(l1, views)
    ensures !runs ==> r.Ok? && r.value.lists == NoLists() && r.value.views == views
  {
    if runs then boost(l1, views) else Ok(Stage(NoLists(), views))
  }

  /** The lists shown without Layer 5: those of the last of Layers 4, 3 and 2
      that ran, otherwise the Layer 1 lists. */
  function Shown<S, P, M>(p: Payload, l1: Lists<S, P, M>, l2: Lists<S, P, M>, l3: Lists<S, P, M>,
                          l4: Lists<S, P, M>): Lists<S, P, M>
    requires p.config.Some?
  {
    if RunsLayer4(p) then l4
    else if RunsLayer3(p) then l3
    else if RunsLayer2(p) then l2
    else l1
  }

  /** The response for a request, stated by cases: a blank body is refused;
      otherwise the first exception (deserialisation, Layer 1, a running
      Layer 2 or 3, the missing config, a running Layer 4, the fusion) is
      reported; otherwise Layer 5's objects, or the lists `Shown`, each
      running layer having worked on the views the one before it left. */
  function Respond<S, P, M, W, G>(
    body: string,
    payload: Result<Payload, Exception>,
    layer1: Result<Stage<S, P, M, W>, Exception>,
    boost2: Booster<S, P, M, W>,
    boost3: Booster<S, P, M, W>,
    boost4: Booster<S, P, M, W>,
    fuse: Fusion<S, P, M, W, G>)
    : Response<S, P, M, W, G>
  {
    if Text.IsNullOrWhiteSpace(Some(body)) then BadRequest(EmptyPayloadMessage)
    else if payload.Err? then Problem(payload.error.message)
    else if layer1.Err? then Problem(layer1.error.message)
    else
      var p, l1 := payload.value, layer1.value.lists;
      var s2 := Step(RunsLayer2(p), boost2, l1, layer1.value.views);
      if s2.Err? then Problem(s2.error.message)
      else
        var s3 := Step(RunsLayer3(p), boost3, l1, s2.value.views);
        if s3.Err? then Problem(s3.error.message)
        else if p.config.None? then Problem(NullReferenceMessage)
        else
          var s4 := Step(RunsLayer4(p), boost4, l1, s3.value.views);
          if s4.Err? then Problem(s4.error.message)
          else if p.config.value.l5 then
            var fused := fuse(l1, s2.value.lists, s3.value.lists, s4.value.lists, s4.value.views);
            if fused.Err? then Problem(fused.error.message) else FusedJson(fused.value)
          else
            ViewsJson(Stage(Shown(p, l1, s2.value.lists, s3.value.lists, s4.value.lists), s4.value.views))
  }

  /** The `/run-engine` handler. `body` is the request body; `payload` the
      outcome of deserialising it and reading its pool and user; `layer1` the
      outcome of the three Layer 1 engines (their lists and the views they
      created); `boost2`..`boost4` the boosters with the payload's data;
      `fuse` Layer 5's GA handler. */
  method RunEngine<S, P, M, W, G>(
    body: string,
    payload: Result<Payload, Exception>,
    layer1: Result<Stage<S, P, M, W>, Exception>,
    boost2: Booster<S, P, M, W>,
    boost3: Booster<S, P, M, W>,
    boost4: Booster<S, P, M, W>,
    fuse: Fusion<S, P, M, W, G>)
    returns (response: Response<S, P, M, W, G>)
    ensures response == Respond(body, payload, layer1, boost2, boost3, boost4, fuse)
  {
    if Text.IsNullOrWhiteSpace(Some(body)) {
      return BadRequest(EmptyPayloadMessage);
    }
    if payload.Err? {
      return Problem(payload.error.message);
    }
    var p := payload.value;
    if layer1.Err? {
      return Problem(layer1.error.message);
    }
    var l1, views := layer1.value.lists, layer1.value.views;
    var final := l1;

    var l2: Lists<S, P, M> := NoLists();
    if p.config.Some? && p.config.value.l2 && p.hasLayer2Data {
      var results := boost2(l1, views);
      if results.Err? {
        return Problem(results.error.message);
      }
      final, views := results.value.lists, results.value.views;
      l2 := final;
    }

    var l3: Lists<S, P, M> := NoLists();
    if p.config.Some? && p.config.value.l3 && p.hasLayer3Data {
      var results := boost3(l1, views);
      if results.Err? {
        return Problem(results.error.message);
      }
      final, views := results.value.lists, results.value.views;
      l3 := final;
    }

    var l4: Lists<S, P, M> := NoLists();
    if p.config.None? {
      return Problem(NullReferenceMessage);
    }
    if p.config.value.l4 && p.hasLayer4Data {
      var results := boost4(l1, views);
      if results.Err? {
        return Problem(results.error.message);
      }
      final, views := results.value.lists, results.value.views;
      l4 := final;
    }

    if p.config.value.l5 {
      var fused := fuse(l1, l2, l3, l4, views);
      if fused.Err? {
        return Problem(fused.error.message);
      }
      return FusedJson(fused.value);
    }
    return ViewsJson(Stage(final, views));
  }

  /** A payload without a config fails with a null reference once Layers 2
      and 3 (which check for it) are skipped: Layer 4 reads the missing
      config. */
  lemma MissingConfigIsProblem<S, P, M, W, G>(
    body: string,
    p: Payload,
    l1: Stage<S, P, M, W>,
    boost2: Booster<S, P, M, W>,
    boost3: Booster<S, P, M, W>,
    boost4: Booster<S, P, M, W>,
    fuse: Fusion<S, P, M, W, G>)
    requires !Text.IsNullOrWhiteSpace(Some(body))
    requires p.config.None?
    ensures Respond(body, Ok(p), Ok(l1), boost2, boost3, boost4, fuse) == Problem(NullReferenceMessage)
  {
  }

  /** A layer that does not run cannot affect the response, whatever it
      would have done. */
  lemma SkippedLayersIgnored<S, P, M, W, G>(
    body: string,
    p: Payload,
    layer1: Result<Stage<S, P, M, W>, Exception>,
    boost2: Booster<S, P, M, W>, other2: Booster<S, P, M, W>,
    boost3: Booster<S, P, M, W>, other3: Booster<S, P, M, W>,
    boost4: Booster<S, P, M, W>, other4: Booster<S, P, M, W>,
    fuse: Fusion<S, P, M, W, G>)
    requires RunsLayer2(p) ==> other2 == boost2
    requires RunsLayer3(p) ==> other3 == boost3
    requires p.config.Some? && RunsLayer4(p) ==> other4 == boost4
    ensures Respond(body, Ok(p), layer1, boost2, boost3, boost4, fuse)
         == Respond(body, Ok(p), layer1, other2, other3, other4, fuse)
  {
  }

  /** With every optional layer switched off, the Layer 1 lists are the
      response, with the views as Layer 1 left them. */
  lemma Layer1Only<S, P, M, W, G>(
    body: string,
    p: Payload,
    l1: Stage<S, P, M, W>,
    boost2: Booster<S, P, M, W>,
    boost3: Booster<S, P, M, W>,
    boost4: Booster<S, P, M, W>,
    fuse: Fusion<S, P, M, W, G>)
    requires !Text.IsNullOrWhiteSpace(Some(body))
    requires p.config == Some(EngineConfig(false, false, false, false))
    ensures Respond(body, Ok(p), Ok(l1), boost2, boost3, boost4, fuse) == ViewsJson(l1)
  {
  }

  /** When all three boosting layers run, Layer 4's lists are shown; the
      layers chain through the shared views: Layer 3 works on the views
      Layer 2 left, Layer 4 on those Layer 3 left, and the response carries
      the views as Layer 4 left them. */
  lemma LastLayerWins<S, P, M, W, G>(
    body: string,
    p: Payload,
    l1: Stage<S, P, M, W>,
    boost2: Booster<S, P, M, W>,
    boost3: Booster<S, P, M, W>,
    boost4: Booster<S, P, M, W>,
    fuse: Fusion<S, P, M, W, G>)
    requires !Text.IsNullOrWhiteSpace(Some(body))
    requires p.config == Some(EngineConfig(true, true, true, false))
    requires p.hasLayer2Data && p.hasLayer3Data && p.hasLayer4Data
    requires boost2(l1.lists, l1.views).Ok?
    requires boost3(l1.lists, boost2(l1.lists, l1.views).value.views).Ok?
    requires boost4(l1.lists, boost3(l1.lists, boost2(l1.lists, l1.views).value.views).value.views).Ok?
    ensures var s2 := boost2(l1.lists, l1.views).value;
            var s3 := boost3(l1.lists, s2.views).value;
            Respond(body, Ok(p), Ok(l1), boost2, boost3, boost4, fuse)
              == ViewsJson(boost4(l1.lists, s3.views).value)
  {
  }

  /** A layer that runs after another that ran sees the views that one
      left, not those of Layer 1: with Layers 2 and 3 running and Layer 4
      off, the views shown are Layer 3's on Layer 2's state. */
  lemma LayersChain<S, P, M, W, G>(
    body: string,
    p: Payload,
    l1: Stage<S, P, M, W>,
    boost2: Booster<S, P, M, W>,
    boost3: Booster<S, P, M, W>,
    boost4: Booster<S, P, M, W>,
    fuse: Fusion<S, P, M, W, G>)
    requires !Text.IsNullOrWhiteSpace(Some(body))
    requires p.config.Some? && !p.config.value.l5
    requires RunsLayer2(p) && RunsLayer3(p) && !RunsLayer4(p)
    requires boost2(l1.lists, l1.views).Ok?
    requires boost3(l1.lists, boost2(l1.lists, l1.views).value.views).Ok?
    ensures Respond(body, Ok(p), Ok(l1), boost2, boost3, boost4, fuse)
              == ViewsJson(boost3(l1.lists, boost2(l1.lists, l1.views).value.views).value)
  {
  }

  /** With Layer 5 on, the fusion sees the Layer 1 lists and, for each of
      Layers 2-4, its lists or empty lists when it did not run, together
      with the views as the last running layer left them; the response is
      its outcome. */
  lemma FusionInputs<S, P, M, W, G>(
    body: string,
    p: Payload,
    l1: Stage<S, P, M, W>,
    boost2: Booster<S, P, M, W>,
    boost3: Booster<S, P, M, W>,
    boost4: Booster<S, P, M, W>,
    fuse: Fusion<S, P, M, W, G>)
    requires !Text.IsNullOrWhiteSpace(Some(body))
    requires p.config.Some? && p.config.value.l5
    requires Step(RunsLayer2(p), boost2, l1.lists, l1.views).Ok?
    requires Step(RunsLayer3(p), boost3, l1.lists, Step(RunsLayer2(p), boost2, l1.lists, l1.views).value.views).Ok?
    requires Step(RunsLayer4(p), boost4, l1.lists,
                  Step(RunsLayer3(p), boost3, l1.lists,
                       Step(RunsLayer2(p), boost2, l1.lists, l1.views).value.views).value.views).Ok?
    ensures var s2 := Step(RunsLayer2(p), boost2, l1.lists, l1.views).value;
            var s3 := Step(RunsLayer3(p), boost3, l1.lists, s2.views).value;
            var s4 := Step(RunsLayer4(p), boost4, l1.lists, s3.views).value;
            var fused := fuse(l1.lists, s2.lists, s3.lists, s4.lists, s4.views);
            Respond(body, Ok(p), Ok(l1), boost2, boost3, boost4, fuse)
              == (if fused.Ok? then FusedJson(fused.value) else Problem(fused.error.message))
  {
  }

  // ------------------------------------------------------------------
  // JSON converters

  /** A JSON token as `Utf8JsonReader` presents it; a number keeps its
      literal text. */
  datatype JsonToken =
    | NumberToken(literal: string)
    | StringToken(text: string)
    | TrueToken
    | FalseToken
    | NullToken
    | StructureToken

  /** Why a converter fails: `GetInt32` throws `FormatException` on a number
      that is not an `Int32` literal; `GetBoolean` and `GetString` throw
      `InvalidOperationException` on a token of the wrong type. */
  datatype ReadError = NotAnInt32 | WrongTokenType

  /** A number literal without fraction or exponent: an optional minus sign
      and at least one digit. */
  predicate IsIntegerLiteral(lit: string) {
    |lit| > 0 && lit != "-" &&
    forall i :: 0 <= i < |lit| ==> Text.IsDigit(lit[i]) || (i == 0 && lit[i] == '-')
  }

  function LiteralValue(lit: string): int
    requires IsIntegerLiteral(lit)
  {
    Text.ParseInt(lit)
  }

  /** `TryGetInt32` succeeds. */
  predicate IsInt32Literal(lit: string) {
    IsIntegerLiteral(lit) && -0x8000_0000 <= LiteralValue(lit) < 0x8000_0000
  }

  /** `TryGetInt64` succeeds. */
  predicate IsInt64Literal(lit: string) {
    IsIntegerLiteral(lit) && -0x8000_0000_0000_0000 <= LiteralValue(lit) < 0x8000_0000_0000_0000
  }

  /** `BoolConverter.Read`: a number counts as true when it is the integer 1,
      a string when it is "1" or "true" in any case, and a JSON boolean as
      itself. */
  function BoolRead(t: JsonToken): (r: Result<bool, ReadError>)
    ensures r.Err? <==> t.NullToken? || t.StructureToken? || (t.NumberToken? && !IsInt32Literal(t.literal))
    ensures r.Err? && t.NumberToken? ==> r.error == NotAnInt32
    ensures r.Err? && !t.NumberToken? ==> r.error == WrongTokenType
  {
    match t
    case NumberToken(lit) => if IsInt32Literal(lit) then Ok(LiteralValue(lit) == 1) else Err(NotAnInt32)
    case StringToken(s) => Ok(s == "1" || Text.ToLower(s) == "true")
    case TrueToken => Ok(true)
    case FalseToken => Ok(false)
    case NullToken => Err(WrongTokenType)
    case StructureToken => Err(WrongTokenType)
  }

  /** `BoolConverter.Write`: a JSON boolean. */
  function BoolWrite(b: bool): (t: JsonToken)
    ensures t.TrueToken? || t.FalseToken?
  {
    if b then TrueToken else FalseToken
  }

  lemma BoolRoundTrip(b: bool)
    ensures BoolRead(BoolWrite(b)) == Ok(b)
  {
  }

  /** The strings read as true are "1" and the four letters of "true", each
      in either case. */
  lemma {:induction false} StringSpellingsOfTrue(s: string)
    ensures BoolRead(StringToken(s)) == Ok(true) <==>
      s == "1" ||
      (|s| == 4 && s[0] in "tT" && s[1] in "rR" && s[2] in "uU" && s[3] in "eE")
  {
    if |s| == 4 {
      var l := Text.ToLower(s);
      assert l == [Text.LowerChar(s[0]), Text.LowerChar(s[1]), Text.LowerChar(s[2]), Text.LowerChar(s[3])];
    } else {
      assert |Text.ToLower(s)| != |"true"|;
    }
  }

  /** Among numbers only the integer literal 1 is true; "1.0", "1e0" and
      numbers beyond `Int32` fail rather than read as false. */
  lemma NumberOneOnly(lit: string)
    requires IsInt32Literal(lit)
    ensures BoolRead(NumberToken(lit)) == Ok(LiteralValue(lit) == 1)
    ensures BoolRead(NumberToken("1.0")) == Err(NotAnInt32)
    ensures BoolRead(NumberToken("1e0")) == Err(NotAnInt32)
  {
    assert !Text.IsDigit("1.0"[1]);
    assert !Text.IsDigit("1e0"[1]);
  }

  /** `StringConverter.Read`. An integer literal within `Int64` becomes
      `long.ToString()` of its value; any other number becomes
      `double.ToString()` of its value, which `doubleText` stands for; a
      string token is returned as it is; `null` stays null. */
  function StringRead(t: JsonToken, doubleText: string -> string): (r: Result<Option<string>, ReadError>)
    ensures r.Err? <==> t.TrueToken? || t.FalseToken? || t.StructureToken?
    ensures r.Err? ==> r.error == WrongTokenType
    ensures r.Ok? && r.value.None? <==> t.NullToken?
  {
    match t
    case NumberToken(lit) =>
      if IsInt64Literal(lit) then Ok(Some(Text.IntToString(LiteralValue(lit))))
      else Ok(Some(doubleText(lit)))
    case StringToken(s) => Ok(Some(s))
    case NullToken => Ok(None)
    case _ => Err(WrongTokenType)
  }

  /** `StringConverter.Write`: a JSON string. */
  function StringWrite(s: string): (t: JsonToken)
    ensures t.StringToken?
  {
    StringToken(s)
  }

  lemma StringRoundTrip(s: string, doubleText: string -> string)
    ensures StringRead(StringWrite(s), doubleText) == Ok(Some(s))
  {
  }

  /** An integer read as a string keeps its value: the text parses back to
      the number the literal denotes, so two integer literals give the same
      text exactly when they denote the same number. */
  lemma IntegerTextKeepsValue(lit: string, other: string, doubleText: string -> string)
    requires IsInt64Literal(lit) && IsInt64Literal(other)
    ensures StringRead(NumberToken(lit), doubleText).Ok? && StringRead(NumberToken(lit), doubleText).value.Some?
    ensures Text.ParseInt(StringRead(NumberToken(lit), doubleText).value.value) == LiteralValue(lit)
    ensures StringRead(NumberToken(lit), doubleText) == StringRead(NumberToken(other), doubleText)
            <==> LiteralValue(lit) == LiteralValue(other)
  {
    Text.IntToStringRoundTrip(LiteralValue(lit));
    Text.IntToStringInjective(LiteralValue(lit), LiteralValue(other));
  }
}
