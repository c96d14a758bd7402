/**
 * The engine driven the way its test suite drives it, with the test fixtures'
 * plugins as concrete instances. Each method states the outcome the suite
 * expects for that sequence of calls, and is proved from the engine's contracts.
 */
module Scenarios {
  import opened Results
  import opened OptionTree
  import opened Tokens
  import opened Plugins
  import TransformPipeline
  import opened ReadDispatch
  import opened SerialCursor
  import opened Engine

  /** A token copy with extra metadata, as the fixtures' `token.clone(meta)` is used. */
  function Clone(t: Token, meta: map<string, Value>): Token {
    t.(meta := t.meta + meta)
  }

  /** `cloneTransformer` at position self: clones every token, tagging it, unless its options say `noop`. */
  function CloneTransformer(self: nat): Transformer {
    Transformer(Some("clone"), (ts: seq<Token>, o: Value) =>
      if Truthy(Field(o, "noop")) then Lift(ts)
      else seq(|ts|, k requires 0 <= k < |ts| => Item(Clone(ts[k], map["transformer" := TransformerRef(self)]))))
  }

  /** The one-character text tokens of a text token, tagged with the transformer at position self. */
  function Chunks(t: Token, self: nat): seq<Nested> {
    seq(|t.value|, j requires 0 <= j < |t.value| => Item(Token("text", [t.value[j]], t.options, map["transformer" := TransformerRef(self)])))
  }

  /** `chunkTransformer` at position self: every text token becomes a nested array of its characters. */
  function ChunkTransformer(self: nat): Transformer {
    Transformer(Some("chunk"), (ts: seq<Token>, o: Value) =>
      seq(|ts|, k requires 0 <= k < |ts| => if ts[k].kind != "text" then Item(ts[k]) else Group(Chunks(ts[k], self))))
  }

  /** `allReplaceTransformer` at position self: the whole list becomes one fixed token. */
  function AllReplaceTransformer(self: nat): Transformer {
    Transformer(Some("all"), (ts: seq<Token>, o: Value) =>
      [Item(Token("text", "this is it", map[], map["transformer" := TransformerRef(self)]))])
  }

  /** `noopReader`: declines by handing the token back when its options say `noop`, claims otherwise. */
  const NoopReader: Reader :=
    Reader(Some("noop"), (t: Token, o: Value) => if Truthy(Field(o, "noop")) then Declined(t) else Claimed, None)

  /** `delayReader`: always claims. */
  const DelayReader: Reader := Reader(Some("delay"), (t: Token, o: Value) => Claimed, None)

  /** A reader that always declines. */
  const DeclineReader: Reader := Reader(Some("decline"), (t: Token, o: Value) => Declined(t), None)

  /** A reader that preloads every token and claims every token. */
  const PreloadReader: Reader :=
    Reader(Some("preload"), (t: Token, o: Value) => Claimed, Some((t: Token, o: Value) => true))

  /** A reader that claims `text` tokens and hands any other token on. */
  const TextReader: Reader :=
    Reader(Some("text"), (t: Token, o: Value) => if t.kind == "text" then Claimed else Declined(t), None)

  /** The store written by one `setOption` on an empty store, keyed as given. */
  lemma PathKeys3(a: string, b: string, c: string)
    requires '.' !in a && '.' !in b && '.' !in c
    ensures SplitPath(a + "." + b + "." + c) == [a, b, c]
  {
    SplitPlain(c);
    SplitPrefix(b, c);
    assert a + "." + b + "." + c == a + "." + (b + "." + c);
    SplitPrefix(a, b + "." + c);
  }

  /** `'foo'`-style paths and `'a.b'` paths split as expected. */
  lemma PathKeys2(a: string, b: string)
    requires '.' !in a && '.' !in b
    ensures SplitPath(a + "." + b) == [a, b]
  {
    SplitPlain(b);
    SplitPrefix(a, b);
  }

  /** Writing then reading a string path; reading an absent path yields the default. */
  method OptionsRoundTrip() returns (written: Result<Value, string>, absent: Result<Value, string>)
    ensures written == Success(Bool(true))
    ensures absent == Success(Bool(false))
  {
    var itako := PluginEnabled();
    WrittenPath(itako);
    written := itako.GetOption(StringArg("plugin.enable"), Undefined);
    AbsentPath(itako);
    absent := itako.GetOption(StringArg("nothing"), Bool(false));
  }

  /** An engine after `setOption('plugin.enable', true)`. */
  method PluginEnabled() returns (itako: Itako)
    ensures fresh(itako) && itako.options == Put(map[], ["plugin", "enable"], Bool(true))
  {
    PluginPath();
    itako := new Itako([], [], map[]);
    var _ := itako.SetOption(StringArg("plugin.enable"), Bool(true));
  }

  /** After `plugin.enable` is written, reading it back yields the written value. */
  lemma WrittenPath(itako: Itako)
    requires itako.options == Put(map[], ["plugin", "enable"], Bool(true))
    ensures itako.GetOption(StringArg("plugin.enable"), Undefined) == Success(Bool(true))
  {
    PluginPath();
    FindPut(map[], ["plugin", "enable"], Bool(true));
  }

  /** The path `'plugin.enable'` denotes the keys `plugin`, `enable`. */
  lemma PluginPath()
    ensures ValidatePath(StringArg("plugin.enable")).value == ["plugin", "enable"]
  {
    assert "plugin.enable" == "plugin" + "." + "enable";
    PathKeys2("plugin", "enable");
  }

  /** After only `plugin.enable` is written, the path `'nothing'` reads as its default. */
  lemma AbsentPath(itako: Itako)
    requires itako.options == Put(map[], ["plugin", "enable"], Bool(true))
    ensures itako.GetOption(StringArg("nothing"), Bool(false)) == Success(Bool(false))
  {
    SplitPlain("nothing");
    assert Diverge(["plugin", "enable"], ["nothing"]) by {
      assert ["plugin", "enable"][0] != ["nothing"][0];
    }
    FindEmpty(["nothing"]);
    FindPutOther(map[], ["plugin", "enable"], ["nothing"], Bool(true));
  }

  /** Paths that are neither strings nor arrays are refused by both accessors; "" and [] are accepted by both. */
  method InvalidPaths() returns (refusedSet: seq<Result<Itako, string>>, acceptedSet: seq<Result<Itako, string>>,
                                 refusedGet: seq<Result<Value, string>>, acceptedGet: seq<Result<Value, string>>)
    ensures |refusedSet| == 5 && forall k :: 0 <= k < 5 ==> refusedSet[k] == Failure(PathError)
    ensures |acceptedSet| == 2 && forall k :: 0 <= k < 2 ==> acceptedSet[k].Success?
    ensures |refusedGet| == 5 && forall k :: 0 <= k < 5 ==> refusedGet[k] == Failure(PathError)
    ensures |acceptedGet| == 2 && forall k :: 0 <= k < 2 ==> acceptedGet[k].Success?
  {
    var itako := new Itako([], [], map[]);
    var a := itako.SetOption(UndefinedArg, Undefined);
    var b := itako.SetOption(NumberArg(1), Undefined);
    var c := itako.SetOption(NullArg, Undefined);
    var d := itako.SetOption(ObjectArg(map[]), Undefined);
    var e := itako.SetOption(FunctionArg, Undefined);
    refusedSet := [a, b, c, d, e];
    var f := itako.SetOption(StringArg(""), Undefined);
    var g := itako.SetOption(ArrayArg([]), Undefined);
    acceptedSet := [f, g];
    refusedGet := [itako.GetOption(UndefinedArg, Undefined), itako.GetOption(NumberArg(1), Undefined),
                   itako.GetOption(NullArg, Undefined), itako.GetOption(ObjectArg(map[]), Undefined),
                   itako.GetOption(FunctionArg, Undefined)];
    acceptedGet := [itako.GetOption(StringArg(""), Undefined), itako.GetOption(ArrayArg([]), Undefined)];
  }

  /** `setOption` hands back the engine itself; `getOptions` gives a new object each call with the stored entries. */
  method CopiesAreFresh() returns (itako: Itako, self: Result<Itako, string>, first: OptionsCopy, second: OptionsCopy)
    ensures self == Success(itako)
    ensures first != second
    ensures "foo" in first.entries && first.entries["foo"] == Str("bar")
  {
    itako := new Itako([], [], map[]);
    self := itako.SetOption(StringArg("foo"), Str("bar"));
    SplitPlain("foo");
    first := itako.GetOptions();
    second := itako.GetOptions();
  }

  /** `transform.options` seeds the token options; the transform's own argument overrides them. */
  method TransformOptions() returns (plain: seq<Token>, overridden: seq<Token>)
    ensures |plain| == 1 && plain[0].kind == "text" && plain[0].value == "hi"
    ensures "volume" in plain[0].options && plain[0].options["volume"] == Num(1)
    ensures |overridden| == 1 && overridden[0].kind == "text" && overridden[0].value == "hi"
    ensures "volume" in overridden[0].options && overridden[0].options["volume"] == Num(2)
  {
    VolumePath();
    var itako := new Itako([], [], map[]);
    var _ := itako.SetOption(StringArg("transform.options.volume"), Num(1));
    VolumeStored(itako.options);
    TransformAfterVolume(itako.options, map[]);
    TransformAfterVolume(itako.options, map["volume" := Num(2)]);
    plain := itako.Transform("hi", map[]);
    overridden := itako.Transform("hi", map["volume" := Num(2)]);
  }

  /** With `transform.options.volume` written, the seed options carry that volume unless overridden. */
  lemma TransformAfterVolume(store: map<string, Value>, o: map<string, Value>)
    requires Find(store, ["transform", "options"]) == Obj(map["volume" := Num(1)])
    requires o == map[] || o == map["volume" := Num(2)]
    ensures var ts := TransformPipeline.Transform(store, [], "hi", o);
      && |ts| == 1 && ts[0].kind == "text" && ts[0].value == "hi"
      && "volume" in ts[0].options && ts[0].options["volume"] == (if o == map[] then Num(1) else Num(2))
  {
    TransformPipeline.NoTransformers(store, "hi", o);
  }

  /** The path `'transform.options.volume'` denotes the keys `transform`, `options`, `volume`. */
  lemma VolumePath()
    ensures ValidatePath(StringArg("transform.options.volume")).value == ["transform", "options", "volume"]
  {
    assert "transform.options.volume" == "transform" + "." + "options" + "." + "volume";
    PathKeys3("transform", "options", "volume");
  }

  /** The store after `setOption('transform.options.volume', 1)` on an empty store. */
  lemma VolumeStored(store: map<string, Value>)
    requires store == Put(map[], ["transform", "options", "volume"], Num(1))
    ensures Find(store, ["transform", "options"]) == Obj(map["volume" := Num(1)])
  {
    var inner := map["options" := Obj(map["volume" := Num(1)])];
    assert store == map["transform" := Obj(inner)];
    assert Find(store, ["transform", "options"]) == Find(inner, ["options"]);
  }

  /** The characters of a text token as one-character text tokens tagged with the transformer at self. */
  function Characters(t: Token, self: nat): (cs: seq<Token>)
    ensures |cs| == |t.value|
    ensures forall j :: 0 <= j < |cs| ==> cs[j] == Token("text", [t.value[j]], t.options, map["transformer" := TransformerRef(self)])
  {
    seq(|t.value|, j requires 0 <= j < |t.value| => Token("text", [t.value[j]], t.options, map["transformer" := TransformerRef(self)]))
  }

  /** Each token cloned with `meta.transformer` naming the transformer at self. */
  function Clones(ts: seq<Token>, self: nat): (cs: seq<Token>)
    ensures |cs| == |ts|
    ensures forall k :: 0 <= k < |ts| ==> cs[k] == Clone(ts[k], map["transformer" := TransformerRef(self)])
  {
    seq(|ts|, k requires 0 <= k < |ts| => Clone(ts[k], map["transformer" := TransformerRef(self)]))
  }

  /** With no `transformers.clone` entry, the clone step clones and tags every token. */
  lemma CloneStep(store: map<string, Value>, ts: seq<Token>, self: nat)
    requires Find(store, ["transformers", "clone"]) == Undefined
    ensures TransformPipeline.Step(store, CloneTransformer(self), ts) == Clones(ts, self)
  {
    assert CloneTransformer(self).transform(ts, Undefined) == Lift(Clones(ts, self));
    FlattenLift(Clones(ts, self));
  }

  /** With `transformers.clone.options.noop` truthy, the clone step hands the list on unchanged. */
  lemma CloneNoopStep(store: map<string, Value>, ts: seq<Token>, self: nat)
    requires Find(store, ["transformers", "clone"]) == Obj(map["options" := Obj(map["noop" := Bool(true)])])
    ensures TransformPipeline.Step(store, CloneTransformer(self), ts) == ts
  {
    FlattenLift(ts);
  }

  /** With no `transformers.chunk` entry, the chunk step splits a text token into its characters. */
  lemma ChunkStep(store: map<string, Value>, t: Token, self: nat)
    requires Find(store, ["transformers", "chunk"]) == Undefined
    requires t.kind == "text"
    ensures TransformPipeline.Step(store, ChunkTransformer(self), [t]) == Characters(t, self)
  {
    var cs := Characters(t, self);
    ChunkOne(t, self, Undefined);
    FlattenLift(cs);
    var out := [Group(Lift(cs))];
    assert out[1..] == [];
    assert Flatten(out) == Leaves(Group(Lift(cs))) + Flatten([]);
  }

  /** The chunk transformer turns one text token into one nested array of its characters. */
  lemma ChunkOne(t: Token, self: nat, o: Value)
    requires t.kind == "text"
    ensures ChunkTransformer(self).transform([t], o) == [Group(Lift(Characters(t, self)))]
  {
    assert Chunks(t, self) == Lift(Characters(t, self));
  }

  /** The clone transformer tags the seed token (transform.js, the clone case). */
  lemma CloneTransform(store: map<string, Value>)
    requires Find(store, ["transformers", "clone"]) == Undefined
    ensures var ts := TransformPipeline.Transform(store, [CloneTransformer(0)], "hi", map[]);
      && |ts| == 1 && ts[0].kind == "text" && ts[0].value == "hi"
      && "transformer" in ts[0].meta && ts[0].meta["transformer"] == TransformerRef(0)
  {
    var seed := TransformPipeline.Seed(store, "hi", map[]);
    CloneStep(store, [seed], 0);
    assert [CloneTransformer(0)][1..] == [];
  }

  /** When the clone transformer is told `noop`, the seed token comes out untagged. */
  lemma CloneNoopTransform(store: map<string, Value>)
    requires Find(store, ["transformers", "clone"]) == Obj(map["options" := Obj(map["noop" := Bool(true)])])
    ensures var ts := TransformPipeline.Transform(store, [CloneTransformer(0)], "hi", map[]);
      && |ts| == 1 && ts[0].kind == "text" && ts[0].value == "hi" && "transformer" !in ts[0].meta
  {
    var seed := TransformPipeline.Seed(store, "hi", map[]);
    CloneNoopStep(store, [seed], 0);
    assert [CloneTransformer(0)][1..] == [];
  }

  /** When the clone transformer is disabled, the seed token comes out untagged. */
  lemma CloneDisabledTransform(store: map<string, Value>)
    requires TransformPipeline.Disabled(store, CloneTransformer(0))
    ensures var ts := TransformPipeline.Transform(store, [CloneTransformer(0)], "hi", map[]);
      && |ts| == 1 && ts[0].kind == "text" && ts[0].value == "hi" && "transformer" !in ts[0].meta
  {
    TransformPipeline.AllDisabled(store, [CloneTransformer(0)], [TransformPipeline.Seed(store, "hi", map[])]);
  }

  /** A one-transformer reduction is that transformer's step. */
  lemma FoldOne(store: map<string, Value>, t: Transformer, tokens: seq<Token>)
    ensures TransformPipeline.Fold(store, [t], tokens) == TransformPipeline.Step(store, t, tokens)
  {
    assert [t][1..] == [];
  }

  /** A two-transformer reduction is the two steps in order. */
  lemma FoldTwo(store: map<string, Value>, t: Transformer, u: Transformer, tokens: seq<Token>)
    ensures TransformPipeline.Fold(store, [t, u], tokens) == TransformPipeline.Step(store, u, TransformPipeline.Step(store, t, tokens))
  {
    assert [t, u][1..] == [u];
    FoldOne(store, u, TransformPipeline.Step(store, t, tokens));
  }

  /** Clone, then chunk: `'hi'` comes out as the flat list `h`, `i`, both tagged by the chunk transformer. */
  lemma CloneThenChunk(store: map<string, Value>)
    requires Find(store, ["transformers", "clone"]) == Undefined
    requires Find(store, ["transformers", "chunk"]) == Undefined
    ensures var ts := TransformPipeline.Transform(store, [CloneTransformer(0), ChunkTransformer(1)], "hi", map[]);
      && |ts| == 2
      && ts[0].kind == "text" && ts[0].value == "h" && "transformer" in ts[0].meta && ts[0].meta["transformer"] == TransformerRef(1)
      && ts[1].kind == "text" && ts[1].value == "i" && "transformer" in ts[1].meta && ts[1].meta["transformer"] == TransformerRef(1)
  {
    var seed := TransformPipeline.Seed(store, "hi", map[]);
    CloneThenChunkSteps(store, seed, 0, 1);
    HiCharacters(Clone(seed, map["transformer" := TransformerRef(0)]), 1);
  }

  /** The clone-then-chunk reduction from a text token is the characters of the cloned seed. */
  lemma CloneThenChunkSteps(store: map<string, Value>, seed: Token, a: nat, b: nat)
    requires Find(store, ["transformers", "clone"]) == Undefined
    requires Find(store, ["transformers", "chunk"]) == Undefined
    requires seed.kind == "text"
    ensures TransformPipeline.Fold(store, [CloneTransformer(a), ChunkTransformer(b)], [seed])
      == Characters(Clone(seed, map["transformer" := TransformerRef(a)]), b)
  {
    FoldTwo(store, CloneTransformer(a), ChunkTransformer(b), [seed]);
    CloneStep(store, [seed], a);
    var cloned := Clones([seed], a);
    assert cloned == [Clone(seed, map["transformer" := TransformerRef(a)])];
    ChunkStep(store, cloned[0], b);
  }

  /** The characters of a `'hi'` text token. */
  lemma HiCharacters(t: Token, self: nat)
    requires t.value == "hi"
    ensures var cs := Characters(t, self);
      && |cs| == 2
      && cs[0].kind == "text" && cs[0].value == "h" && "transformer" in cs[0].meta && cs[0].meta["transformer"] == TransformerRef(self)
      && cs[1].kind == "text" && cs[1].value == "i" && "transformer" in cs[1].meta && cs[1].meta["transformer"] == TransformerRef(self)
  {
  }

  /** A transformer that replaces the whole list decides the result. */
  lemma AllReplaceTransform(store: map<string, Value>)
    requires Find(store, ["transformers", "all"]) == Undefined
    ensures var ts := TransformPipeline.Transform(store, [AllReplaceTransformer(0)], "hi", map[]);
      && |ts| == 1 && ts[0].kind == "text" && ts[0].value == "this is it"
      && "transformer" in ts[0].meta && ts[0].meta["transformer"] == TransformerRef(0)
  {
    var t := Token("text", "this is it", map[], map["transformer" := TransformerRef(0)]);
    var seed := TransformPipeline.Seed(store, "hi", map[]);
    FoldOne(store, AllReplaceTransformer(0), [seed]);
    assert AllReplaceTransformer(0).transform([seed], Undefined) == Lift([t]);
    FlattenLift([t]);
  }

  /** The error message for an unclaimed `'hi'` text token. */
  lemma HiMessage(t: Token)
    requires t.kind == "text" && t.value == "hi"
    ensures UnexpectedToken(t) == "unexpected token \"text:hi\""
  {
  }

  /** A batch of one claimed token is read, and hands back the claimed token. */
  lemma ReadsOne(rs: seq<Reader>, store: map<string, Value>, t: Token)
    requires DispatchToken(rs, store, t).claimer.Some?
    ensures ReadSerialSpec(rs, store, [t]).result == Success([DispatchToken(rs, store, t).token])
  {
    assert AllClaimedFrom(rs, store, [t], 0) by {
      assert forall j :: 0 <= j < 1 ==> [t][j] == t;
    }
    ReadSerialSucceeds(rs, store, [t]);
    assert DispatchedTokens(rs, store, [t]) == [DispatchToken(rs, store, t).token];
  }

  /** A batch of one unclaimed token rejects with that token's message. */
  lemma RejectsOne(rs: seq<Reader>, store: map<string, Value>, t: Token)
    requires DispatchToken(rs, store, t) == Dispatch(None, t, [])
    ensures ReadSerialSpec(rs, store, [t]).result == Failure(UnexpectedToken(t))
  {
    ReadSerialFailsAtFirstUnclaimed(rs, store, [t], 0);
  }

  /** With no `readers.noop` entry the noop reader claims every token. */
  lemma NoopClaims(store: map<string, Value>, t: Token)
    requires Find(store, ["readers", "noop"]) == Undefined
    ensures DispatchToken([NoopReader], store, t) == Dispatch(Some(0), SetMeta(t, "reader", ReaderRef(0)), [0])
  {
    assert Enabled(store, NoopReader) && ReaderOptions(store, NoopReader) == Undefined;
    DispatchClaims([NoopReader], store, 0, t, []);
  }

  /** A disabled noop reader is never asked, so nothing claims. */
  lemma NoopDisabled(store: map<string, Value>, t: Token)
    requires PluginSettings(store, "readers", Some("noop")).disable
    ensures DispatchToken([NoopReader], store, t) == Dispatch(None, t, [])
  {
    AllReadersDisabled([NoopReader], store, 0, t);
  }

  /**
   * First match: with an always-declining reader before an always-claiming
   * one, the second claims after both were asked; in the other order the
   * first claims and the decliner is never asked.
   */
  lemma FirstMatchLaw(store: map<string, Value>, t: Token)
    requires Enabled(store, DeclineReader) && Enabled(store, DelayReader)
    ensures DispatchToken([DeclineReader, DelayReader], store, t) == Dispatch(Some(1), SetMeta(t, "reader", ReaderRef(1)), [0, 1])
    ensures DispatchToken([DelayReader, DeclineReader], store, t) == Dispatch(Some(0), SetMeta(t, "reader", ReaderRef(0)), [0])
  {
    var rs := [DeclineReader, DelayReader];
    DispatchDeclines(rs, store, 0, t, [], t);
    DispatchClaims(rs, store, 1, t, [0]);
    DispatchClaims([DelayReader, DeclineReader], store, 0, t, []);
  }

  /** The first-match law through the engine's `readToken`. */
  method FirstMatch(t: Token) returns (declineFirst: Dispatch, claimFirst: Dispatch)
    ensures declineFirst.claimer == Some(1) && declineFirst.invoked == [0, 1]
    ensures "reader" in declineFirst.token.meta && declineFirst.token.meta["reader"] == ReaderRef(1)
    ensures claimFirst.claimer == Some(0) && claimFirst.invoked == [0]
  {
    FindEmpty(["readers", "decline"]);
    FindEmpty(["readers", "delay"]);
    FirstMatchLaw(map[], t);
    var a := new Itako([DeclineReader, DelayReader], [], map[]);
    declineFirst := a.ReadToken(t);
    var b := new Itako([DelayReader, DeclineReader], [], map[]);
    claimFirst := b.ReadToken(t);
  }

  /** With no `read` and no `transform` entry, a text read is a parallel, unpreloaded read of its transform. */
  lemma QuietRead(itako: Itako, s: string)
    requires Find(itako.options, ["read"]) == Undefined && Find(itako.options, ["transform"]) == Undefined
    ensures !itako.SerialMode() && !itako.PreloadMode()
    ensures itako.Batch(Text(s), map[]) == TransformPipeline.Transform(itako.options, itako.transformers, s, map[])
    ensures itako.PreloadEvents(Text(s), map[]) == []
  {
    assert Entries(Get(itako.options, ["transform"], Obj(map[]))) + map[] == map[];
  }

  /** With `read` holding only `serial: true` and no `transform` entry, a text read is queued unpreloaded. */
  lemma SerialRead(itako: Itako, s: string)
    requires Get(itako.options, ["read"], Obj(map[])) == Obj(map["serial" := Bool(true)])
    requires Find(itako.options, ["transform"]) == Undefined
    ensures itako.SerialMode() && !itako.PreloadMode()
    ensures itako.Batch(Text(s), map[]) == TransformPipeline.Transform(itako.options, itako.transformers, s, map[])
    ensures itako.PreloadEvents(Text(s), map[]) == []
  {
    assert Entries(Get(itako.options, ["transform"], Obj(map[]))) + map[] == map[];
  }

  /** With no readers, reading `'hi'` rejects with `unexpected token "text:hi"`. */
  method ReadWithoutReaders() returns (call: ReadCall)
    ensures call.Started? && call.run.result == Failure("unexpected token \"text:hi\"")
  {
    FindEmpty(["read"]);
    FindEmpty(["transform"]);
    var itako := new Itako([], [], map[]);
    QuietRead(itako, "hi");
    UnclaimedRun([], map[]);
    call := itako.Read(Text("hi"), map[]);
  }

  /** A batch of `'hi'` that nothing claims rejects with `unexpected token "text:hi"`. */
  lemma UnclaimedRun(rs: seq<Reader>, store: map<string, Value>)
    requires forall t :: DispatchToken(rs, store, t) == Dispatch(None, t, [])
    ensures ReadSerialSpec(rs, store, TransformPipeline.Transform(store, [], "hi", map[])).result
      == Failure("unexpected token \"text:hi\"")
  {
    var seed := TransformPipeline.Seed(store, "hi", map[]);
    TransformPipeline.NoTransformers(store, "hi", map[]);
    RejectsOne(rs, store, seed);
    HiMessage(seed);
  }

  /** With the noop reader, reading `'hi'` hands back the token, tagged with its reader. */
  method ReadWithNoop() returns (call: ReadCall)
    ensures call.Started? && call.run.result.Success?
    ensures |call.run.result.value| == 1 && call.run.result.value[0].value == "hi"
    ensures "reader" in call.run.result.value[0].meta && call.run.result.value[0].meta["reader"] == ReaderRef(0)
  {
    FindEmpty(["read"]);
    FindEmpty(["transform"]);
    FindEmpty(["readers", "noop"]);
    var itako := new Itako([NoopReader], [], map[]);
    QuietRead(itako, "hi");
    NoopRun(map[]);
    call := itako.Read(Text("hi"), map[]);
  }

  /** Under a store without a `readers.noop` entry, the noop reader reads the batch of `'hi'`. */
  lemma NoopRun(store: map<string, Value>)
    requires Find(store, ["readers", "noop"]) == Undefined
    ensures var run := ReadSerialSpec([NoopReader], store, TransformPipeline.Transform(store, [], "hi", map[]));
      && run.result.Success? && |run.result.value| == 1 && run.result.value[0].value == "hi"
      && "reader" in run.result.value[0].meta && run.result.value[0].meta["reader"] == ReaderRef(0)
  {
    var seed := TransformPipeline.Seed(store, "hi", map[]);
    TransformPipeline.NoTransformers(store, "hi", map[]);
    NoopClaims(store, seed);
    ReadsOne([NoopReader], store, seed);
  }

  /** A batch of one claimed token: `before-read`, the calls of its dispatch and its `read` event, `after-read`. */
  lemma ReadsOneTrace(rs: seq<Reader>, store: map<string, Value>, t: Token)
    requires DispatchToken(rs, store, t).claimer.Some?
    ensures ReadSerialSpec(rs, store, [t]).trace == [BeforeRead] + DispatchTrace(0, DispatchToken(rs, store, t)) + [AfterRead]
  {
    var d := DispatchToken(rs, store, t);
    WalkStep(rs, store, [t], 0, d);
    assert WalkFrom(rs, store, [t], 1) == Walk([], None, []);
    assert WalkFrom(rs, store, [t], 0) == Walk([d.token], None, DispatchTrace(0, d) + []);
  }

  /**
   * One noop reader reading `'hi'`: exactly one `read` event, about the text
   * token `'hi'`, which carries the noop reader as `meta.reader`.
   */
  method ReadEmitsOnce() returns (call: ReadCall)
    ensures call.Started? && call.run.trace == [BeforeRead, Invoked(0, 0), ReadStarted(0, 0), AfterRead]
    ensures call.run.result.Success? && |call.run.result.value| == 1
    ensures var t := call.run.result.value[0];
      t.kind == "text" && t.value == "hi" && "reader" in t.meta && t.meta["reader"] == ReaderRef(0)
  {
    FindEmpty(["read"]);
    FindEmpty(["transform"]);
    FindEmpty(["readers", "noop"]);
    var itako := new Itako([NoopReader], [], map[]);
    QuietRead(itako, "hi");
    NoopEvents(map[]);
    call := itako.Read(Text("hi"), map[]);
  }

  /** The run of the noop reader over the batch of `'hi'`, events included. */
  lemma NoopEvents(store: map<string, Value>)
    requires Find(store, ["readers", "noop"]) == Undefined
    ensures var run := ReadSerialSpec([NoopReader], store, TransformPipeline.Transform(store, [], "hi", map[]));
      && run.trace == [BeforeRead, Invoked(0, 0), ReadStarted(0, 0), AfterRead]
      && run.result.Success? && |run.result.value| == 1
      && run.result.value[0].kind == "text" && run.result.value[0].value == "hi"
      && "reader" in run.result.value[0].meta && run.result.value[0].meta["reader"] == ReaderRef(0)
  {
    var seed := TransformPipeline.Seed(store, "hi", map[]);
    TransformPipeline.NoTransformers(store, "hi", map[]);
    NoopClaims(store, seed);
    ReadsOne([NoopReader], store, seed);
    ReadsOneTrace([NoopReader], store, seed);
    assert DispatchTrace(0, Dispatch(Some(0), SetMeta(seed, "reader", ReaderRef(0)), [0])) == [Invoked(0, 0), ReadStarted(0, 0)];
  }

  /** The path `'readers.noop.disable'` denotes `readers`, `noop`, `disable`. */
  lemma NoopDisablePath()
    ensures ValidatePath(StringArg("readers.noop.disable")).value == SplitPath("readers" + "." + "noop" + ".disable")
  {
    assert "readers.noop.disable" == "readers" + "." + "noop" + ".disable";
  }

  /** The store written by `setOption('readers.noop.disable', true)` on an empty store. */
  lemma NoopDisabledStore(store: map<string, Value>)
    requires store == Put(map[], SplitPath("readers" + "." + "noop" + ".disable"), Bool(true))
    ensures PluginSettings(store, "readers", Some("noop")).disable
    ensures Find(store, ["read"]) == Undefined && Find(store, ["transform"]) == Undefined
    ensures Find(store, ["transform", "options"]) == Undefined
  {
    DisableBySetting(map[], "readers", "noop", Bool(true));
    PathKeys3("readers", "noop", "disable");
    assert "readers" + "." + "noop" + ".disable" == "readers" + "." + "noop" + "." + "disable";
    var keys := ["readers", "noop", "disable"];
    assert keys[0] != ["read"][0] && keys[0] != ["transform"][0];
    assert keys[0] != ["transform", "options"][0];
    FindPutOther(map[], keys, ["read"], Bool(true));
    FindPutOther(map[], keys, ["transform"], Bool(true));
    FindPutOther(map[], keys, ["transform", "options"], Bool(true));
  }

  /** With `readers.noop.disable` set, reading `'hi'` rejects as if there were no reader. */
  method ReadWithNoopDisabled() returns (call: ReadCall)
    ensures call.Started? && call.run.result == Failure("unexpected token \"text:hi\"")
  {
    var itako := NoopDisabledEngine();
    NoopDisabledStore(itako.options);
    QuietRead(itako, "hi");
    NoopDisabledEverywhere(itako.options);
    UnclaimedRun([NoopReader], itako.options);
    call := itako.Read(Text("hi"), map[]);
  }

  /** An engine with the noop reader after `setOption('readers.noop.disable', true)`. */
  method NoopDisabledEngine() returns (itako: Itako)
    ensures fresh(itako) && itako.readers == [NoopReader] && itako.transformers == [] && itako.pending == []
    ensures itako.options == Put(map[], SplitPath("readers" + "." + "noop" + ".disable"), Bool(true))
  {
    NoopDisablePath();
    itako := new Itako([NoopReader], [], map[]);
    var _ := itako.SetOption(StringArg("readers.noop.disable"), Bool(true));
  }

  /** A disabled noop reader claims no token at all. */
  lemma NoopDisabledEverywhere(store: map<string, Value>)
    requires PluginSettings(store, "readers", Some("noop")).disable
    ensures forall t :: DispatchToken([NoopReader], store, t) == Dispatch(None, t, [])
  {
    forall t | true
      ensures DispatchToken([NoopReader], store, t) == Dispatch(None, t, [])
    {
      NoopDisabled(store, t);
    }
  }

  /** The store with only `read.serial` set. */
  lemma SerialStore(store: map<string, Value>)
    requires store == map["read" := Obj(map["serial" := Bool(true)])]
    ensures Get(store, ["read"], Obj(map[])) == Obj(map["serial" := Bool(true)])
    ensures Find(store, ["transform"]) == Undefined && Find(store, ["transform", "options"]) == Undefined
    ensures Find(store, ["readers", "delay"]) == Undefined
  {
  }

  /** Under that store, a text batch of the delay reader is one token, read and tagged. */
  lemma DelayBatch(store: map<string, Value>, s: string)
    requires Find(store, ["transform"]) == Undefined && Find(store, ["transform", "options"]) == Undefined
    requires Find(store, ["readers", "delay"]) == Undefined
    ensures var batch := TransformPipeline.Transform(store, [], s, map[]);
      && |batch| == 1 && batch[0].value == s
      && ReadSerialSpec([DelayReader], store, batch).result == Success([SetMeta(batch[0], "reader", ReaderRef(0))])
  {
    var o: map<string, Value> := map[];
    TransformPipeline.NoTransformers(store, s, o);
    var seed := TransformPipeline.Seed(store, s, o);
    assert Enabled(store, DelayReader);
    DispatchClaims([DelayReader], store, 0, seed, []);
    ReadsOne([DelayReader], store, seed);
  }

  /** Serial mode: three reads queue behind the cursor in call order. */
  method QueueThree(store: map<string, Value>) returns (itako: Itako, calls: seq<ReadCall>)
    requires store == map["read" := Obj(map["serial" := Bool(true)])]
    ensures fresh(itako) && itako.readers == [DelayReader] && itako.options == store
    ensures itako.CursorChain() && itako.current == Fulfilled([])
    ensures calls == [Queued(0, []), Queued(1, []), Queued(2, [])]
    ensures itako.pending == [
      TransformPipeline.Transform(store, [], "a", map[]),
      TransformPipeline.Transform(store, [], "b", map[]),
      TransformPipeline.Transform(store, [], "c", map[])]
  {
    itako := new Itako([DelayReader], [], store);
    SerialStore(store);
    var c1 := QueueOne(itako, "a");
    var c2 := QueueOne(itako, "b");
    var c3 := QueueOne(itako, "c");
    calls := [c1, c2, c3];
  }

  /** One serial read of a text under a store with only `read.serial` set: its batch joins the queue. */
  method QueueOne(itako: Itako, s: string) returns (call: ReadCall)
    requires itako.transformers == []
    requires Get(itako.options, ["read"], Obj(map[])) == Obj(map["serial" := Bool(true)])
    requires Find(itako.options, ["transform"]) == Undefined
    modifies itako`pending
    ensures call == Queued(|old(itako.pending)|, [])
    ensures itako.pending == old(itako.pending) + [TransformPipeline.Transform(itako.options, [], s, map[])]
  {
    SerialRead(itako, s);
    call := itako.Read(Text(s), map[]);
  }

  /** The cursor settles the queued reads oldest first, each with its own tokens. */
  method SerialReads() returns (calls: seq<ReadCall>, first: Option<Settlement>, second: Option<Settlement>, waiting: nat)
    ensures calls == [Queued(0, []), Queued(1, []), Queued(2, [])]
    ensures first.Some? && first.value.Fulfilled? && |first.value.tokens| == 1 && first.value.tokens[0].value == "a"
    ensures "reader" in first.value.tokens[0].meta && first.value.tokens[0].meta["reader"] == ReaderRef(0)
    ensures second.Some? && second.value.Fulfilled? && |second.value.tokens| == 1 && second.value.tokens[0].value == "b"
    ensures "reader" in second.value.tokens[0].meta && second.value.tokens[0].meta["reader"] == ReaderRef(0)
    ensures waiting == 1
  {
    var itako;
    itako, calls := QueueThree(map["read" := Obj(map["serial" := Bool(true)])]);
    SerialStore(itako.options);
    first := SettleDelay(itako, "a");
    second := SettleDelay(itako, "b");
    waiting := |itako.pending|;
  }

  /** Settling the oldest queued batch, one text token that the delay reader claims. */
  method SettleDelay(itako: Itako, s: string) returns (r: Option<Settlement>)
    requires itako.readers == [DelayReader]
    requires Find(itako.options, ["transform"]) == Undefined && Find(itako.options, ["transform", "options"]) == Undefined
    requires Find(itako.options, ["readers", "delay"]) == Undefined
    requires |itako.pending| > 0 && itako.pending[0] == TransformPipeline.Transform(itako.options, [], s, map[])
    requires itako.CursorChain() && itako.current.Fulfilled?
    modifies itako`pending, itako`current, itako`outcomes, itako`settled
    ensures r.Some? && r.value.Fulfilled? && |r.value.tokens| == 1 && r.value.tokens[0].value == s
    ensures "reader" in r.value.tokens[0].meta && r.value.tokens[0].meta["reader"] == ReaderRef(0)
    ensures itako.pending == old(itako.pending)[1..]
    ensures itako.CursorChain() && itako.current == r.value
  {
    DelayBatch(itako.options, s);
    var trace;
    r, trace := itako.Settle();
  }

  /** Under a store without a `readers.text` entry, the text reader rejects a non-text batch and reads a text one. */
  lemma TextReaderRuns(store: map<string, Value>, bad: Token, good: Token)
    requires Find(store, ["readers", "text"]) == Undefined
    requires bad.kind != "text" && good.kind == "text"
    ensures ReadSerialSpec([TextReader], store, [bad]).result == Failure(UnexpectedToken(bad))
    ensures ReadSerialSpec([TextReader], store, [good]).result.Success?
  {
    assert Enabled(store, TextReader);
    DispatchDeclines([TextReader], store, 0, bad, [], bad);
    assert DispatchToken([TextReader], store, bad) == Dispatch(None, bad, [0]);
    assert FirstUnclaimed([TextReader], store, [bad], 0);
    ReadSerialFailsAtFirstUnclaimed([TextReader], store, [bad], 0);
    DispatchClaims([TextReader], store, 0, good, []);
    ReadsOne([TextReader], store, good);
  }

  /** With only `read.serial` set, a token-list read is queued as given, unpreloaded. */
  lemma SerialTokens(itako: Itako, ts: seq<Token>)
    requires Get(itako.options, ["read"], Obj(map[])) == Obj(map["serial" := Bool(true)])
    ensures itako.SerialMode() && !itako.PreloadMode()
    ensures itako.Batch(TokenList(ts), map[]) == ts && itako.PreloadEvents(TokenList(ts), map[]) == []
  {
  }

  /**
   * The serial cursor as written: a first serial read of a token no reader
   * claims, then one of a token the text reader claims. The second read's own
   * run succeeds and ends with its `afterRead` event, yet its promise rejects
   * with the first read's error.
   */
  method StaleSerialRead(bad: Token, good: Token)
    returns (first: Option<Settlement>, firstTrace: seq<Event>, second: Option<Settlement>, secondTrace: seq<Event>)
    requires bad.kind != "text" && good.kind == "text"
    ensures first == Some(Rejected(UnexpectedToken(bad)))
    ensures |secondTrace| > 0 && secondTrace[|secondTrace| - 1] == AfterRead
    ensures second == first
  {
    var store := map["read" := Obj(map["serial" := Bool(true)])];
    var itako := new Itako([TextReader], [], store);
    SerialStore(store);
    assert Find(store, ["readers", "text"]) == Undefined;
    SerialTokens(itako, [bad]);
    var c1 := itako.Read(TokenList([bad]), map[]);
    SerialTokens(itako, [good]);
    var c2 := itako.Read(TokenList([good]), map[]);
    TextReaderRuns(store, bad, good);
    first, firstTrace := itako.Settle();
    second, secondTrace := itako.Settle();
  }

  /** A batch of one token that reader p preloads: one `preload` event, and the token tagged. */
  lemma PreloadOne(rs: seq<Reader>, store: map<string, Value>, t: Token, p: nat)
    requires PreloaderFrom(rs, store, t, 0) == Some(p)
    ensures PreloadTrace(rs, store, [t], 1) == [Preloaded(0, p)]
    ensures PreloadAll(rs, store, [t]) == [SetMeta(t, "preloader", ReaderRef(p))]
  {
  }

  /** Under a store with `read.preload` set, the text `'hi'` becomes one token and the preload reader takes it. */
  lemma PreloadHi(store: map<string, Value>)
    requires store == map["read" := Obj(map["preload" := Bool(true)])]
    ensures var ts := TransformPipeline.Transform(store, [], "hi", map[]);
      && |ts| == 1 && ts[0].kind == "text" && ts[0].value == "hi" && ts[0].meta == map[]
      && PreloaderFrom([PreloadReader], store, ts[0], 0) == Some(0)
  {
    TransformPipeline.NoTransformers(store, "hi", map[]);
    var ts := TransformPipeline.Transform(store, [], "hi", map[]);
    assert Find(store, ["readers", "preload"]) == Undefined;
    assert Preloads(store, PreloadReader, ts[0]);
  }

  /** The preload reader claims a preloaded token, which then carries both tags. */
  lemma PreloadedRead(store: map<string, Value>, t: Token)
    requires Find(store, ["readers", "preload"]) == Undefined
    ensures var tagged := SetMeta(t, "preloader", ReaderRef(0));
      var run := ReadSerialSpec([PreloadReader], store, [tagged]);
      && run.result.Success? && |run.result.value| == 1
      && run.result.value[0].kind == t.kind && run.result.value[0].value == t.value
      && "preloader" in run.result.value[0].meta && run.result.value[0].meta["preloader"] == ReaderRef(0)
      && "reader" in run.result.value[0].meta && run.result.value[0].meta["reader"] == ReaderRef(0)
  {
    var tagged := SetMeta(t, "preloader", ReaderRef(0));
    assert Enabled(store, PreloadReader);
    DispatchClaims([PreloadReader], store, 0, tagged, []);
    ReadsOne([PreloadReader], store, tagged);
  }

  /** With only `read.preload` set, a text read is a parallel read of its preloaded transform. */
  lemma PreloadRead(itako: Itako, s: string)
    requires itako.options == map["read" := Obj(map["preload" := Bool(true)])]
    ensures !itako.SerialMode() && itako.PreloadMode()
    ensures var ts := TransformPipeline.Transform(itako.options, itako.transformers, s, map[]);
      && itako.Batch(Text(s), map[]) == PreloadAll(itako.readers, itako.options, ts)
      && itako.PreloadEvents(Text(s), map[]) == PreloadTrace(itako.readers, itako.options, ts, |ts|)
  {
    assert Find(itako.options, ["transform"]) == Undefined;
    assert Entries(Get(itako.options, ["transform"], Obj(map[]))) + map[] == map[];
  }

  /** With `read.preload` set, a `preload` event precedes the read, and both tags are on the token. */
  method PreloadThenRead() returns (batch: seq<Token>, call: ReadCall)
    ensures |batch| == 1 && batch[0].kind == "text" && batch[0].value == "hi"
    ensures "preloader" in batch[0].meta && batch[0].meta["preloader"] == ReaderRef(0) && "reader" !in batch[0].meta
    ensures call.Started? && call.preloads == [Preloaded(0, 0)]
    ensures call.run.result.Success? && |call.run.result.value| == 1
    ensures var t := call.run.result.value[0];
      && t.kind == "text" && t.value == "hi"
      && "preloader" in t.meta && t.meta["preloader"] == ReaderRef(0)
      && "reader" in t.meta && t.meta["reader"] == ReaderRef(0)
  {
    var itako := new Itako([PreloadReader], [], map[]);
    var _ := itako.SetOptions(map["read" := Obj(map["preload" := Bool(true)])]);
    assert itako.options == map["read" := Obj(map["preload" := Bool(true)])];
    PreloadRead(itako, "hi");
    PreloadHi(itako.options);
    ghost var ts := TransformPipeline.Transform(itako.options, [], "hi", map[]);
    PreloadOne([PreloadReader], itako.options, ts[0], 0);
    assert ts == [ts[0]];
    assert Find(itako.options, ["readers", "preload"]) == Undefined;
    PreloadedRead(itako.options, ts[0]);
    batch := itako.Batch(Text("hi"), map[]);
    call := itako.Read(Text("hi"), map[]);
  }
}
