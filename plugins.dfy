/**
 * Reader and transformer plugins as the engine sees them, and the per-plugin
 * option lookup `getOption([category, name], {})` with the shared
 * `'anonymous'` bucket for plugins without a name.
 */
module Plugins {
  import opened Results
  import opened OptionTree
  import opened Tokens

  /**
   * What a reader's `read` returns, as a closed variant in place of the
   * duck-typed `isPromise` test: `Claimed` is an asynchronous result (it has a
   * `then`), `Declined(t)` any other value, which becomes the token the next
   * reader is given.
   */
  datatype ReadResult = Declined(token: Token) | Claimed

  /** A transformer: maps the current token list and its options to a nested list. */
  datatype Transformer = Transformer(name: Option<string>, transform: (seq<Token>, Value) -> seq<Nested>)

  /**
   * A reader: `read` declines or claims a token; `preload`, when the reader
   * has one, answers whether it took the token for preloading.
   */
  datatype Reader = Reader(
    name: Option<string>,
    read: (Token, Value) -> ReadResult,
    preload: Option<(Token, Value) -> bool>)

  /** `plugin.name || 'anonymous'`: an absent or empty name selects the shared bucket. */
  function BucketName(name: Option<string>): (bucket: string)
    ensures bucket == "anonymous" <==> (name.None? || name.value == "" || name.value == "anonymous")
    ensures name.Some? && name.value != "" ==> bucket == name.value
  {
    if name.Some? && name.value != "" then name.value else "anonymous"
  }

  /** The `disable` flag and the `options` entry of one plugin's option bucket. */
  datatype Settings = Settings(disable: bool, options: Value)

  /**
   * `const { disable, options } = getOption([category, name], {})`: a missing
   * bucket reads as `{}`, so the plugin is enabled and gets undefined options.
   */
  function PluginSettings(store: map<string, Value>, category: string, name: Option<string>): (s: Settings)
    ensures s.disable <==> Truthy(Field(Find(store, [category, BucketName(name)]), "disable"))
    ensures s.options == Field(Find(store, [category, BucketName(name)]), "options")
  {
    var bucket := Get(store, [category, BucketName(name)], Obj(map[]));
    Settings(Truthy(Field(bucket, "disable")), Field(bucket, "options"))
  }

  /** Two plugins without a usable name read the same bucket, whatever else they are. */
  lemma AnonymousShared(store: map<string, Value>, category: string, a: Option<string>, b: Option<string>)
    requires a.None? || a == Some("")
    requires b.None? || b == Some("")
    ensures PluginSettings(store, category, a) == PluginSettings(store, category, b)
  {
  }

  /** Setting `<category>.<name>.disable` to a truthy value disables that plugin. */
  lemma DisableBySetting(store: map<string, Value>, category: string, name: string, flag: Value)
    requires name != "" && '.' !in category && '.' !in name
    requires Truthy(flag)
    ensures PluginSettings(Put(store, SplitPath(category + "." + name + ".disable"), flag), category, Some(name)).disable
  {
    DisablePath(category, name);
    DisableBucket(store, category, name, flag);
  }

  /** The path `<category>.<name>.disable` denotes the keys category, name, `disable`. */
  lemma DisablePath(category: string, name: string)
    requires '.' !in category && '.' !in name
    ensures SplitPath(category + "." + name + ".disable") == [category, name, "disable"]
  {
    var keys := [category, name, "disable"];
    assert JoinPath(keys) == category + "." + name + ".disable" by {
      assert JoinPath(keys[2..]) == "disable";
      assert JoinPath(keys[1..]) == name + "." + "disable";
      assert category + "." + (name + "." + "disable") == category + "." + name + ".disable";
    }
    SplitJoin(keys);
  }

  /** After writing flag at category, name, `disable`, that bucket's `disable` field is flag. */
  lemma DisableBucket(store: map<string, Value>, category: string, name: string, flag: Value)
    ensures Field(Find(Put(store, [category, name, "disable"], flag), [category, name]), "disable") == flag
  {
    var keys := [category, name, "disable"];
    var s := Put(store, keys, flag);
    FindPut(store, keys, flag);
    assert category in s && s[category].Obj?;
    var inner := s[category].fields;
    assert Find(s, keys) == Find(inner, keys[1..]);
    assert name in inner && inner[name].Obj?;
    assert Find(inner, keys[1..]) == Find(inner[name].fields, ["disable"]);
    assert Find(s, [category, name]) == Find(inner, [name]) == inner[name];
  }
}
