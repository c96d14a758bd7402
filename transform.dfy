/**
 * The transform reduction: a single `text` token is seeded and folded,
 * transformer by transformer, through the transformer list; a disabled
 * transformer is skipped and every other result is deep-flattened.
 */
module TransformPipeline {
  import opened Results
  import opened OptionTree
  import opened Tokens
  import opened Plugins

  /**
   * The options of the seed token: `transform.options` of the store, overridden
   * by options. The string path is written as its keys (TransformOptionsPath).
   */
  function InitialOptions(store: map<string, Value>, options: map<string, Value>): (r: map<string, Value>)
    ensures forall k :: k in options ==> k in r && r[k] == options[k]
    ensures forall k :: k !in options ==>
      (k in r <==> k in Entries(Find(store, ["transform", "options"]))) &&
      (k in r ==> r[k] == Entries(Find(store, ["transform", "options"]))[k])
  {
    Entries(Get(store, ["transform", "options"], Obj(map[]))) + options
  }

  /** The string path `'transform.options'` denotes the keys `transform`, `options`. */
  lemma TransformOptionsPath()
    ensures SplitPath("transform.options") == ["transform", "options"]
  {
    var keys := ["transform", "options"];
    assert JoinPath(keys) == "transform.options" by {
      assert JoinPath(keys[1..]) == "options";
    }
    SplitJoin(keys);
  }

  /** The token the reduction starts from. */
  function Seed(store: map<string, Value>, source: string, options: map<string, Value>): Token {
    Token("text", source, InitialOptions(store, options), map[])
  }

  /** Whether the store disables a transformer (`transformers.<name>.disable`). */
  predicate Disabled(store: map<string, Value>, t: Transformer) {
    PluginSettings(store, "transformers", t.name).disable
  }

  /** One step of the reduction. */
  function Step(store: map<string, Value>, t: Transformer, tokens: seq<Token>): seq<Token> {
    var s := PluginSettings(store, "transformers", t.name);
    if s.disable then tokens else Flatten(t.transform(tokens, s.options))
  }

  /** The reduction over ts, in list order, from tokens. */
  function Fold(store: map<string, Value>, ts: seq<Transformer>, tokens: seq<Token>): seq<Token>
    decreases |ts|
  {
    if ts == [] then tokens else Fold(store, ts[1..], Step(store, ts[0], tokens))
  }

  /** `transform(source, options)`. */
  function Transform(store: map<string, Value>, ts: seq<Transformer>, source: string, options: map<string, Value>): seq<Token> {
    Fold(store, ts, [Seed(store, source, options)])
  }

  /** An enabled transformer that returns a flat token list hands on exactly that list. */
  lemma FlatResultPassesThrough(store: map<string, Value>, t: Transformer, tokens: seq<Token>, flat: seq<Token>)
    requires !Disabled(store, t)
    requires t.transform(tokens, PluginSettings(store, "transformers", t.name).options) == Lift(flat)
    ensures Step(store, t, tokens) == flat
  {
    FlattenLift(flat);
  }

  /** With no transformers the result is the seed token alone. */
  lemma {:induction false} NoTransformers(store: map<string, Value>, source: string, options: map<string, Value>)
    ensures |Transform(store, [], source, options)| == 1
    ensures Transform(store, [], source, options)[0].kind == "text"
    ensures Transform(store, [], source, options)[0].value == source
    ensures Transform(store, [], source, options)[0].options == InitialOptions(store, options)
    ensures Transform(store, [], source, options)[0].meta == map[]
  {
  }

  /** The reduction over a concatenation is the reduction over each part in turn. */
  lemma {:induction false} FoldAppend(store: map<string, Value>, a: seq<Transformer>, b: seq<Transformer>, tokens: seq<Token>)
    ensures Fold(store, a + b, tokens) == Fold(store, b, Fold(store, a, tokens))
    decreases |a|
  {
    if a == [] {
      assert a + b == b;
    } else {
      assert (a + b)[1..] == a[1..] + b;
      FoldAppend(store, a[1..], b, Step(store, a[0], tokens));
    }
  }

  /** Disabling a transformer gives the same result as removing it from the list. */
  lemma {:induction false} DisabledIsRemoved(store: map<string, Value>, ts: seq<Transformer>, i: nat, tokens: seq<Token>)
    requires i < |ts|
    requires Disabled(store, ts[i])
    ensures Fold(store, ts, tokens) == Fold(store, ts[..i] + ts[i + 1..], tokens)
  {
    assert ts == ts[..i] + ([ts[i]] + ts[i + 1..]);
    FoldAppend(store, ts[..i], [ts[i]] + ts[i + 1..], tokens);
    FoldAppend(store, ts[..i], ts[i + 1..], tokens);
    var mid := Fold(store, ts[..i], tokens);
    assert ([ts[i]] + ts[i + 1..])[1..] == ts[i + 1..];
    assert Fold(store, [ts[i]] + ts[i + 1..], mid) == Fold(store, ts[i + 1..], Step(store, ts[i], mid));
  }

  /** When every transformer is disabled the token list passes through unchanged. */
  lemma {:induction false} AllDisabled(store: map<string, Value>, ts: seq<Transformer>, tokens: seq<Token>)
    requires forall k :: 0 <= k < |ts| ==> Disabled(store, ts[k])
    ensures Fold(store, ts, tokens) == tokens
    decreases |ts|
  {
    if ts != [] {
      assert Disabled(store, ts[0]);
      AllDisabled(store, ts[1..], tokens);
    }
  }
}
