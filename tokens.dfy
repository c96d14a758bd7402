/**
 * Tokens, the nested lists a transformer may return, and the deep flatten the
 * engine applies to every transformer result (`lodash.flattendeep`).
 */
module Tokens {
  import opened OptionTree

  /**
   * A token: `kind` is the token's `type` tag, `value` its text, `options` the
   * per-token options and `meta` the metadata bag (`meta.reader`,
   * `meta.preloader`, `meta.transformer` and plugin-set keys).
   */
  datatype Token = Token(kind: string, value: string, options: map<string, Value>, meta: map<string, Value>)

  /** `token.setMeta(key, v)`: the same token with one metadata entry written. */
  function SetMeta(t: Token, key: string, v: Value): Token {
    t.(meta := t.meta[key := v])
  }

  /** An element of a transformer's result: a token, or a nested array of elements. */
  datatype Nested = Item(token: Token) | Group(items: seq<Nested>)

  /** The tokens of a nested list, left to right, with every nesting removed. */
  function Flatten(xs: seq<Nested>): seq<Token>
    decreases xs
  {
    if xs == [] then [] else Leaves(xs[0]) + Flatten(xs[1..])
  }

  /** The tokens of one element, left to right. */
  function Leaves(n: Nested): seq<Token>
    decreases n
  {
    match n
    case Item(t) => [t]
    case Group(ys) => Flatten(ys)
  }

  /** A flat token list seen as a nested list with no nesting. */
  function Lift(ts: seq<Token>): (xs: seq<Nested>)
    ensures |xs| == |ts|
    ensures forall k :: 0 <= k < |ts| ==> xs[k] == Item(ts[k])
  {
    seq(|ts|, k requires 0 <= k < |ts| => Item(ts[k]))
  }

  /**
   * The accumulating walk of `baseFlatten`: elements are visited left to
   * right, a token is pushed onto the result, a nested array is walked in place.
   */
  function FlattenInto(xs: seq<Nested>, acc: seq<Token>): seq<Token>
    decreases xs
  {
    if xs == [] then acc
    else match xs[0]
      case Item(t) => FlattenInto(xs[1..], acc + [t])
      case Group(ys) => FlattenInto(xs[1..], FlattenInto(ys, acc))
  }

  /** Flattening distributes over concatenation: order is kept across the seam. */
  lemma {:induction false} FlattenAppend(a: seq<Nested>, b: seq<Nested>)
    ensures Flatten(a + b) == Flatten(a) + Flatten(b)
    decreases a
  {
    if a != [] {
      assert (a + b)[0] == a[0];
      assert (a + b)[1..] == a[1..] + b;
      FlattenAppend(a[1..], b);
    } else {
      assert a + b == b;
    }
  }

  /** A list that is already flat comes out of the flatten unchanged. */
  lemma {:induction false} FlattenLift(ts: seq<Token>)
    ensures Flatten(Lift(ts)) == ts
    decreases |ts|
  {
    if ts != [] {
      assert Lift(ts)[1..] == Lift(ts[1..]);
      FlattenLift(ts[1..]);
      assert ts == [ts[0]] + ts[1..];
    }
  }

  /** Flattening twice is flattening once. */
  lemma FlattenIdempotent(xs: seq<Nested>)
    ensures Flatten(Lift(Flatten(xs))) == Flatten(xs)
  {
    FlattenLift(Flatten(xs));
  }

  /** The accumulating walk of `baseFlatten` agrees with Flatten. */
  lemma {:induction false} FlattenIntoIsFlatten(xs: seq<Nested>, acc: seq<Token>)
    ensures FlattenInto(xs, acc) == acc + Flatten(xs)
    decreases xs
  {
    if xs != [] {
      match xs[0]
      case Item(t) =>
        FlattenIntoIsFlatten(xs[1..], acc + [t]);
      case Group(ys) =>
        FlattenIntoIsFlatten(ys, acc);
        FlattenIntoIsFlatten(xs[1..], acc + Flatten(ys));
    }
  }

  /** `[[a, [b]], c]` flattens to `[a, b, c]`. */
  lemma FlattenExample(a: Token, b: Token, c: Token)
    ensures Flatten([Group([Item(a), Group([Item(b)])]), Item(c)]) == [a, b, c]
  {
    var inner := [Item(b)];
    assert Flatten(inner) == [b] by { assert inner[1..] == []; }
    var left := [Item(a), Group(inner)];
    assert left[1..] == [Group(inner)];
    assert Flatten([Group(inner)]) == [b] by { assert [Group(inner)][1..] == []; }
    assert Flatten(left) == [a, b];
    var whole := [Group(left), Item(c)];
    assert whole[1..] == [Item(c)];
    assert Flatten([Item(c)]) == [c] by { assert [Item(c)][1..] == []; }
  }
}
