/**
 * The read side of the engine as functions of the reader list and the option
 * store: the first-match dispatch of one token (`readToken`), the in-order
 * walk over a batch that aborts at the first unclaimed token (`readSerial`),
 * and the preload pre-pass (`preload`). The engine's methods are proved to
 * compute exactly these.
 */
module ReadDispatch {
  import opened Results
  import opened OptionTree
  import opened Tokens
  import opened Plugins

  /** Whether the store leaves a reader enabled (`readers.<name>.disable` falsy). */
  predicate Enabled(store: map<string, Value>, r: Reader) {
    !PluginSettings(store, "readers", r.name).disable
  }

  /** The options the store gives a reader (`readers.<name>.options`). */
  function ReaderOptions(store: map<string, Value>, r: Reader): Value {
    PluginSettings(store, "readers", r.name).options
  }

  /** The indices of the enabled readers in [lo, hi), ascending. */
  function EnabledBetween(rs: seq<Reader>, store: map<string, Value>, lo: nat, hi: nat): seq<nat>
    requires hi <= |rs|
    decreases hi - lo
  {
    if lo >= hi then []
    else (if Enabled(store, rs[lo]) then [lo] else []) + EnabledBetween(rs, store, lo + 1, hi)
  }

  /**
   * The outcome of dispatching one token: the index of the reader that claimed
   * it (None when no reader did), the token as it then is (the claimed token
   * with `meta.reader` written, or the last value a reader declined with), and
   * the indices of the readers whose `read` was called, in call order.
   */
  datatype Dispatch = Dispatch(claimer: Option<nat>, token: Token, invoked: seq<nat>)

  /** The fold of `readToken` from reader i on, carrying the accumulator acc. */
  function DispatchFrom(rs: seq<Reader>, store: map<string, Value>, i: nat, acc: Token): Dispatch
    requires i <= |rs|
    decreases |rs| - i
  {
    if i == |rs| then Dispatch(None, acc, [])
    else if !Enabled(store, rs[i]) then DispatchFrom(rs, store, i + 1, acc)
    else match rs[i].read(acc, ReaderOptions(store, rs[i]))
      case Claimed => Dispatch(Some(i), SetMeta(acc, "reader", ReaderRef(i)), [i])
      case Declined(next) =>
        var d := DispatchFrom(rs, store, i + 1, next);
        d.(invoked := [i] + d.invoked)
  }

  /**
   * The shape of a dispatch from reader i on: the readers asked are exactly the
   * enabled ones up to the claimer, or all enabled ones when nobody claims; the
   * claimer is enabled and is recorded in the claimed token's `meta.reader`.
   */
  predicate Shaped(rs: seq<Reader>, store: map<string, Value>, i: nat, d: Dispatch)
    requires i <= |rs|
  {
    && (d.claimer.None? ==> d.invoked == EnabledBetween(rs, store, i, |rs|))
    && (d.claimer.Some? ==>
      && i <= d.claimer.value < |rs|
      && Enabled(store, rs[d.claimer.value])
      && d.invoked == EnabledBetween(rs, store, i, d.claimer.value + 1)
      && "reader" in d.token.meta
      && d.token.meta["reader"] == ReaderRef(d.claimer.value))
  }

  /** Every dispatch has that shape. */
  lemma {:induction false} DispatchShape(rs: seq<Reader>, store: map<string, Value>, i: nat, acc: Token)
    requires i <= |rs|
    ensures Shaped(rs, store, i, DispatchFrom(rs, store, i, acc))
    decreases |rs| - i
  {
    if i < |rs| {
      if !Enabled(store, rs[i]) {
        DispatchShape(rs, store, i + 1, acc);
        ShapeSkip(rs, store, i, DispatchFrom(rs, store, i + 1, acc));
      } else {
        match rs[i].read(acc, ReaderOptions(store, rs[i]))
        case Claimed =>
          assert EnabledBetween(rs, store, i + 1, i + 1) == [];
        case Declined(next) =>
          DispatchShape(rs, store, i + 1, next);
          var d := DispatchFrom(rs, store, i + 1, next);
          ShapeAsk(rs, store, i, d);
      }
    }
  }

  /** A disabled reader i leaves the shape from i + 1 a shape from i. */
  lemma ShapeSkip(rs: seq<Reader>, store: map<string, Value>, i: nat, d: Dispatch)
    requires i < |rs| && !Enabled(store, rs[i])
    requires Shaped(rs, store, i + 1, d)
    ensures Shaped(rs, store, i, d)
  {
    var hi := if d.claimer.Some? then d.claimer.value + 1 else |rs|;
    EnabledFront(rs, store, i, hi);
    assert [] + EnabledBetween(rs, store, i + 1, hi) == EnabledBetween(rs, store, i + 1, hi);
  }

  /** An enabled reader i asked in front of a shape from i + 1 gives a shape from i. */
  lemma ShapeAsk(rs: seq<Reader>, store: map<string, Value>, i: nat, d: Dispatch)
    requires i < |rs| && Enabled(store, rs[i])
    requires Shaped(rs, store, i + 1, d)
    ensures Shaped(rs, store, i, d.(invoked := [i] + d.invoked))
  {
    var hi := if d.claimer.Some? then d.claimer.value + 1 else |rs|;
    EnabledFront(rs, store, i, hi);
  }

  /** The enabled readers of [i, hi) are reader i, when enabled, then those of [i + 1, hi). */
  lemma EnabledFront(rs: seq<Reader>, store: map<string, Value>, i: nat, hi: nat)
    requires i < hi <= |rs|
    ensures EnabledBetween(rs, store, i, hi) == (if Enabled(store, rs[i]) then [i] else []) + EnabledBetween(rs, store, i + 1, hi)
  {
  }

  /** The dispatch d with the readers in pre asked before its own. */
  function Prefixed(pre: seq<nat>, d: Dispatch): Dispatch {
    d.(invoked := pre + d.invoked)
  }

  /**
   * Where a dispatch stands before reader i: settled, once a reader has
   * claimed, or still to run from reader i on with the readers invoked so far
   * in front.
   */
  function Continue(rs: seq<Reader>, store: map<string, Value>, i: nat, claimer: Option<nat>, acc: Token, invoked: seq<nat>): Dispatch
    requires i <= |rs|
  {
    if claimer.Some? then Dispatch(claimer, acc, invoked) else Prefixed(invoked, DispatchFrom(rs, store, i, acc))
  }

  /** A disabled reader is passed over. */
  lemma DispatchSkips(rs: seq<Reader>, store: map<string, Value>, i: nat, acc: Token)
    requires i < |rs| && !Enabled(store, rs[i])
    ensures DispatchFrom(rs, store, i, acc) == DispatchFrom(rs, store, i + 1, acc)
  {
  }

  /** An enabled reader that claims ends the dispatch. */
  lemma DispatchClaims(rs: seq<Reader>, store: map<string, Value>, i: nat, acc: Token, pre: seq<nat>)
    requires i < |rs| && Enabled(store, rs[i])
    requires rs[i].read(acc, ReaderOptions(store, rs[i])).Claimed?
    ensures Prefixed(pre, DispatchFrom(rs, store, i, acc)) == Dispatch(Some(i), SetMeta(acc, "reader", ReaderRef(i)), pre + [i])
  {
  }

  /** An enabled reader that declines hands its result on to the next reader. */
  lemma DispatchDeclines(rs: seq<Reader>, store: map<string, Value>, i: nat, acc: Token, pre: seq<nat>, next: Token)
    requires i < |rs| && Enabled(store, rs[i])
    requires rs[i].read(acc, ReaderOptions(store, rs[i])) == Declined(next)
    ensures Prefixed(pre, DispatchFrom(rs, store, i, acc)) == Prefixed(pre + [i], DispatchFrom(rs, store, i + 1, next))
  {
    var rest := DispatchFrom(rs, store, i + 1, next);
    assert pre + ([i] + rest.invoked) == (pre + [i]) + rest.invoked;
  }

  /** `readToken(token)`: the dispatch over the whole reader list. */
  function DispatchToken(rs: seq<Reader>, store: map<string, Value>, t: Token): Dispatch {
    DispatchFrom(rs, store, 0, t)
  }

  /** Whether a reader, given its options, claims a token. */
  predicate Claims(store: map<string, Value>, r: Reader, t: Token) {
    r.read(t, ReaderOptions(store, r)).Claimed?
  }

  /** Every reader of rs declines by handing back the token it was given. */
  ghost predicate PassesThrough(rs: seq<Reader>) {
    forall j, t, o :: 0 <= j < |rs| && rs[j].read(t, o).Declined? ==> rs[j].read(t, o).token == t
  }

  /** Reader c is the first enabled reader from i on that claims t. */
  ghost predicate IsFirstClaimer(rs: seq<Reader>, store: map<string, Value>, i: nat, t: Token, c: nat) {
    && i <= c < |rs|
    && Enabled(store, rs[c])
    && Claims(store, rs[c], t)
    && forall j :: i <= j < c && Enabled(store, rs[j]) ==> !Claims(store, rs[j], t)
  }

  /** No enabled reader from i on claims t. */
  ghost predicate NoneClaims(rs: seq<Reader>, store: map<string, Value>, i: nat, t: Token) {
    forall j :: i <= j < |rs| && Enabled(store, rs[j]) ==> !Claims(store, rs[j], t)
  }

  /** When declining readers pass the token on unchanged, the dispatch outcome is the first claimer. */
  lemma {:induction false} DispatchFindsFirstClaimer(rs: seq<Reader>, store: map<string, Value>, i: nat, t: Token)
    requires PassesThrough(rs)
    requires i <= |rs|
    ensures var d := DispatchFrom(rs, store, i, t);
      d.claimer.Some? ==> IsFirstClaimer(rs, store, i, t, d.claimer.value) && d.token == SetMeta(t, "reader", ReaderRef(d.claimer.value))
    ensures var d := DispatchFrom(rs, store, i, t);
      d.claimer.None? ==> NoneClaims(rs, store, i, t) && d.token == t
    decreases |rs| - i
  {
    if i < |rs| {
      DispatchFindsFirstClaimer(rs, store, i + 1, t);
      PassStep(rs, store, i, t);
      if !(Enabled(store, rs[i]) && Claims(store, rs[i], t)) {
        ExtendSearch(rs, store, i, t, DispatchFrom(rs, store, i + 1, t).claimer);
      }
    }
  }

  /**
   * One reader of a dispatch whose decliners pass the token on: it claims, or
   * the outcome is that of the readers after it.
   */
  lemma PassStep(rs: seq<Reader>, store: map<string, Value>, i: nat, t: Token)
    requires PassesThrough(rs)
    requires i < |rs|
    ensures Enabled(store, rs[i]) && Claims(store, rs[i], t) ==>
      DispatchFrom(rs, store, i, t).claimer == Some(i) && DispatchFrom(rs, store, i, t).token == SetMeta(t, "reader", ReaderRef(i))
    ensures !(Enabled(store, rs[i]) && Claims(store, rs[i], t)) ==>
      DispatchFrom(rs, store, i, t).claimer == DispatchFrom(rs, store, i + 1, t).claimer &&
      DispatchFrom(rs, store, i, t).token == DispatchFrom(rs, store, i + 1, t).token
  {
    if !Enabled(store, rs[i]) {
      DispatchSkips(rs, store, i, t);
    } else if Claims(store, rs[i], t) {
      DispatchClaims(rs, store, i, t, []);
    } else {
      assert rs[i].read(t, ReaderOptions(store, rs[i])) == Declined(t);
      DispatchDeclines(rs, store, i, t, [], t);
    }
  }

  /** A reader at i that does not claim leaves the outcome of the search from i + 1 standing. */
  lemma ExtendSearch(rs: seq<Reader>, store: map<string, Value>, i: nat, t: Token, c: Option<nat>)
    requires i < |rs|
    requires Enabled(store, rs[i]) ==> !Claims(store, rs[i], t)
    requires c.Some? ==> IsFirstClaimer(rs, store, i + 1, t, c.value)
    requires c.None? ==> NoneClaims(rs, store, i + 1, t)
    ensures c.Some? ==> IsFirstClaimer(rs, store, i, t, c.value)
    ensures c.None? ==> NoneClaims(rs, store, i, t)
  {
  }

  /** There is at most one first claimer. */
  lemma FirstClaimerUnique(rs: seq<Reader>, store: map<string, Value>, i: nat, t: Token, c: nat, e: nat)
    requires IsFirstClaimer(rs, store, i, t, c) && IsFirstClaimer(rs, store, i, t, e)
    ensures c == e
  {
  }

  /**
   * First match: when declining readers pass the token on unchanged, reader c
   * claims exactly when it is the first enabled reader that claims the token,
   * and nobody claims exactly when no enabled reader would.
   */
  lemma FirstClaimWins(rs: seq<Reader>, store: map<string, Value>, t: Token, c: nat)
    requires PassesThrough(rs)
    ensures DispatchToken(rs, store, t).claimer == Some(c) <==> IsFirstClaimer(rs, store, 0, t, c)
    ensures DispatchToken(rs, store, t).claimer.None? <==> NoneClaims(rs, store, 0, t)
  {
    DispatchFindsFirstClaimer(rs, store, 0, t);
    var d := DispatchToken(rs, store, t);
    if d.claimer.Some? && IsFirstClaimer(rs, store, 0, t, c) {
      FirstClaimerUnique(rs, store, 0, t, c, d.claimer.value);
    }
  }

  /** With every reader disabled nobody is asked and the token is left as it was. */
  lemma {:induction false} AllReadersDisabled(rs: seq<Reader>, store: map<string, Value>, i: nat, t: Token)
    requires i <= |rs|
    requires forall j :: i <= j < |rs| ==> !Enabled(store, rs[j])
    ensures DispatchFrom(rs, store, i, t) == Dispatch(None, t, [])
    decreases |rs| - i
  {
    if i < |rs| {
      AllReadersDisabled(rs, store, i + 1, t);
    }
  }

  /** The events the engine produces; emitted names and the plugin calls it makes. */
  datatype Event =
    | BeforeRead                            // `before-read` emitted for the batch
    | Invoked(token: nat, reader: nat)      // `read` of a reader called on a token of the batch
    | ReadStarted(token: nat, reader: nat)  // `read` emitted: the reader claimed the token
    | AfterRead                             // `after-read` emitted for the batch
    | Preloaded(token: nat, reader: nat)    // `preload` emitted: the reader preloads the token

  /** The calls and events of dispatching the token at position k of a batch. */
  function DispatchTrace(k: nat, d: Dispatch): (tr: seq<Event>)
    ensures |tr| == |d.invoked| + (if d.claimer.Some? then 1 else 0)
    ensures forall a :: 0 <= a < |d.invoked| ==> tr[a] == Invoked(k, d.invoked[a])
  {
    seq(|d.invoked|, a requires 0 <= a < |d.invoked| => Invoked(k, d.invoked[a])) +
    (if d.claimer.Some? then [ReadStarted(k, d.claimer.value)] else [])
  }

  /** The message of the error for a token no reader claims: `unexpected token "<type>:<value>"`. */
  function UnexpectedToken(t: Token): string {
    "unexpected token \"" + t.kind + ":" + t.value + "\""
  }

  /** The dispatched tokens, the failure if any, and the trace of a walk over a batch. */
  datatype Walk = Walk(read: seq<Token>, failure: Option<string>, trace: seq<Event>)

  /** The promise chain of `readSerial` from position k: one token at a time, stopping at a failure. */
  function WalkFrom(rs: seq<Reader>, store: map<string, Value>, ts: seq<Token>, k: nat): Walk
    requires k <= |ts|
    decreases |ts| - k
  {
    if k == |ts| then Walk([], None, [])
    else
      var d := DispatchToken(rs, store, ts[k]);
      if d.claimer.None? then Walk([], Some(UnexpectedToken(d.token)), DispatchTrace(k, d))
      else
        var w := WalkFrom(rs, store, ts, k + 1);
        Walk([d.token] + w.read, w.failure, DispatchTrace(k, d) + w.trace)
  }

  /** One step of the walk: an unclaimed token stops it, a claimed one is followed by the rest. */
  lemma WalkStep(rs: seq<Reader>, store: map<string, Value>, ts: seq<Token>, k: nat, d: Dispatch)
    requires k < |ts| && d == DispatchToken(rs, store, ts[k])
    ensures d.claimer.None? ==> WalkFrom(rs, store, ts, k) == Walk([], Some(UnexpectedToken(d.token)), DispatchTrace(k, d))
    ensures d.claimer.Some? ==> var w := WalkFrom(rs, store, ts, k + 1);
      WalkFrom(rs, store, ts, k) == Walk([d.token] + w.read, w.failure, DispatchTrace(k, d) + w.trace)
  {
  }

  /** The walk so far (done, events) followed by the walk w of the rest. */
  function Resume(done: seq<Token>, events: seq<Event>, w: Walk): Walk {
    Walk(done + w.read, w.failure, events + w.trace)
  }

  /** Moving one claimed token from the rest of the walk onto the walk so far. */
  lemma ResumeStep(done: seq<Token>, events: seq<Event>, t: Token, tr: seq<Event>, w: Walk)
    ensures Resume(done, events, Walk([t] + w.read, w.failure, tr + w.trace)) == Resume(done + [t], events + tr, w)
  {
    assert done + ([t] + w.read) == (done + [t]) + w.read;
    assert events + (tr + w.trace) == (events + tr) + w.trace;
  }

  /** How a `readSerial` call settles, with its trace. */
  datatype SerialRun = SerialRun(result: Result<seq<Token>, string>, trace: seq<Event>)

  /** `readSerial(tokens)` with every claim completing at once. */
  function ReadSerialSpec(rs: seq<Reader>, store: map<string, Value>, ts: seq<Token>): SerialRun {
    var w := WalkFrom(rs, store, ts, 0);
    if w.failure.Some? then SerialRun(Failure(w.failure.value), [BeforeRead] + w.trace)
    else SerialRun(Success(w.read), [BeforeRead] + w.trace + [AfterRead])
  }

  /** No reader claims the token. */
  predicate Unclaimed(rs: seq<Reader>, store: map<string, Value>, t: Token) {
    DispatchToken(rs, store, t).claimer.None?
  }

  /** Position m holds the first token of ts that no reader claims. */
  ghost predicate FirstUnclaimed(rs: seq<Reader>, store: map<string, Value>, ts: seq<Token>, m: nat) {
    m < |ts| && Unclaimed(rs, store, ts[m]) && forall j :: 0 <= j < m ==> !Unclaimed(rs, store, ts[j])
  }

  /** The position a dispatch event is about (0 for the batch events). */
  function EventToken(e: Event): nat {
    match e
    case Invoked(k, _) => k
    case ReadStarted(k, _) => k
    case Preloaded(k, _) => k
    case _ => 0
  }

  /** Every event of tr is a dispatch event about a position in [lo, hi]. */
  ghost predicate DispatchEventsWithin(tr: seq<Event>, lo: nat, hi: nat) {
    forall a :: 0 <= a < |tr| ==> (tr[a].Invoked? || tr[a].ReadStarted?) && lo <= EventToken(tr[a]) <= hi
  }

  /** The positions the events of tr are about never go back. */
  ghost predicate InTokenOrder(tr: seq<Event>) {
    forall a, b :: 0 <= a < b < |tr| ==> EventToken(tr[a]) <= EventToken(tr[b])
  }

  /** Every token from position k on is claimed. */
  ghost predicate AllClaimedFrom(rs: seq<Reader>, store: map<string, Value>, ts: seq<Token>, k: nat) {
    forall j :: k <= j < |ts| ==> !Unclaimed(rs, store, ts[j])
  }

  /** Each token of ts in its dispatched form (tagged with its claimer when claimed). */
  function DispatchedTokens(rs: seq<Reader>, store: map<string, Value>, ts: seq<Token>): (out: seq<Token>)
    ensures |out| == |ts|
    ensures forall j :: 0 <= j < |ts| ==> out[j] == DispatchToken(rs, store, ts[j]).token
  {
    seq(|ts|, j requires 0 <= j < |ts| => DispatchToken(rs, store, ts[j]).token)
  }

  /** The trace of one dispatch is about its own position only. */
  lemma DispatchTraceWithin(k: nat, d: Dispatch)
    ensures DispatchEventsWithin(DispatchTrace(k, d), k, k)
  {
  }

  /** Gluing a trace about k in front of an ordered trace about later positions stays ordered. */
  lemma GlueTraces(front: seq<Event>, back: seq<Event>, k: nat, hi: nat)
    requires DispatchEventsWithin(front, k, k)
    requires DispatchEventsWithin(back, k + 1, hi) && InTokenOrder(back)
    requires k <= hi
    ensures DispatchEventsWithin(front + back, k, hi) && InTokenOrder(front + back)
  {
    var all := front + back;
    assert forall a :: |front| <= a < |all| ==> all[a] == back[a - |front|];
    forall a, b | 0 <= a < b < |all|
      ensures EventToken(all[a]) <= EventToken(all[b])
    {
      if a >= |front| {
        assert EventToken(back[a - |front|]) <= EventToken(back[b - |front|]);
      }
    }
  }

  /** A walk from k reads every token from k on exactly when every one of them is claimed. */
  lemma {:induction false} WalkSucceeds(rs: seq<Reader>, store: map<string, Value>, ts: seq<Token>, k: nat)
    requires k <= |ts|
    ensures WalkFrom(rs, store, ts, k).failure.None? <==> AllClaimedFrom(rs, store, ts, k)
    ensures WalkFrom(rs, store, ts, k).failure.None? ==> WalkFrom(rs, store, ts, k).read == DispatchedTokens(rs, store, ts[k..])
    decreases |ts| - k
  {
    if k < |ts| {
      WalkSucceeds(rs, store, ts, k + 1);
      if Unclaimed(rs, store, ts[k]) {
        WalkStepUnclaimed(rs, store, ts, k);
      } else {
        var w := WalkFrom(rs, store, ts, k + 1);
        var d := DispatchToken(rs, store, ts[k]);
        WalkStepClaimed(rs, store, ts, k);
        if w.failure.None? {
          DispatchedPrepend(rs, store, ts, k);
        }
      }
    }
  }

  /** A walk reaching an unclaimed token fails there and is not all claimed. */
  lemma WalkStepUnclaimed(rs: seq<Reader>, store: map<string, Value>, ts: seq<Token>, k: nat)
    requires k < |ts| && Unclaimed(rs, store, ts[k])
    ensures WalkFrom(rs, store, ts, k).failure.Some? && !AllClaimedFrom(rs, store, ts, k)
  {
  }

  /** A walk over a claimed token goes on with the rest of the batch. */
  lemma WalkStepClaimed(rs: seq<Reader>, store: map<string, Value>, ts: seq<Token>, k: nat)
    requires k < |ts| && !Unclaimed(rs, store, ts[k])
    ensures var d := DispatchToken(rs, store, ts[k]); var w := WalkFrom(rs, store, ts, k + 1);
      WalkFrom(rs, store, ts, k) == Walk([d.token] + w.read, w.failure, DispatchTrace(k, d) + w.trace)
    ensures AllClaimedFrom(rs, store, ts, k) <==> AllClaimedFrom(rs, store, ts, k + 1)
  {
  }

  /** Putting the dispatched form of token k in front of those of k + 1.. gives those of k... */
  lemma DispatchedPrepend(rs: seq<Reader>, store: map<string, Value>, ts: seq<Token>, k: nat)
    requires k < |ts|
    ensures [DispatchToken(rs, store, ts[k]).token] + DispatchedTokens(rs, store, ts[k + 1..]) == DispatchedTokens(rs, store, ts[k..])
  {
    var l := [DispatchToken(rs, store, ts[k]).token] + DispatchedTokens(rs, store, ts[k + 1..]);
    var r := DispatchedTokens(rs, store, ts[k..]);
    forall j | 0 <= j < |r|
      ensures l[j] == r[j]
    {
      if j > 0 {
        assert ts[k..][j] == ts[k + 1..][j - 1];
      }
    }
  }

  /** A walk from k fails at its first unclaimed token, and no later token is dispatched. */
  lemma {:induction false} WalkFailsAt(rs: seq<Reader>, store: map<string, Value>, ts: seq<Token>, k: nat, m: nat)
    requires k <= m < |ts|
    requires Unclaimed(rs, store, ts[m])
    requires forall j :: k <= j < m ==> !Unclaimed(rs, store, ts[j])
    ensures WalkFrom(rs, store, ts, k).failure == Some(UnexpectedToken(DispatchToken(rs, store, ts[m]).token))
    ensures DispatchEventsWithin(WalkFrom(rs, store, ts, k).trace, k, m)
    decreases m - k
  {
    var d := DispatchToken(rs, store, ts[k]);
    DispatchTraceWithin(k, d);
    WalkStep(rs, store, ts, k, d);
    if k < m {
      WalkFailsAt(rs, store, ts, k + 1, m);
      WithinAppend(DispatchTrace(k, d), WalkFrom(rs, store, ts, k + 1).trace, k, m);
    }
  }

  /** Events about k followed by events about k + 1..m are events about k..m. */
  lemma WithinAppend(front: seq<Event>, back: seq<Event>, k: nat, m: nat)
    requires k <= m
    requires DispatchEventsWithin(front, k, k) && DispatchEventsWithin(back, k + 1, m)
    ensures DispatchEventsWithin(front + back, k, m)
  {
    assert forall a :: |front| <= a < |front + back| ==> (front + back)[a] == back[a - |front|];
  }

  /** The events of a walk from k are dispatch events of positions k.., in token order. */
  lemma {:induction false} WalkInOrder(rs: seq<Reader>, store: map<string, Value>, ts: seq<Token>, k: nat)
    requires k <= |ts|
    ensures DispatchEventsWithin(WalkFrom(rs, store, ts, k).trace, k, |ts|)
    ensures InTokenOrder(WalkFrom(rs, store, ts, k).trace)
    decreases |ts| - k
  {
    if k < |ts| {
      var d := DispatchToken(rs, store, ts[k]);
      DispatchTraceWithin(k, d);
      if d.claimer.Some? {
        WalkInOrder(rs, store, ts, k + 1);
        GlueTraces(DispatchTrace(k, d), WalkFrom(rs, store, ts, k + 1).trace, k, |ts|);
      }
    }
  }

  /**
   * `readSerial` rejects with `unexpected token "<type>:<value>"` of its first
   * unclaimed token; no later token reaches a reader and `after-read` is not emitted.
   */
  lemma ReadSerialFailsAtFirstUnclaimed(rs: seq<Reader>, store: map<string, Value>, ts: seq<Token>, m: nat)
    requires FirstUnclaimed(rs, store, ts, m)
    ensures ReadSerialSpec(rs, store, ts).result == Failure(UnexpectedToken(DispatchToken(rs, store, ts[m]).token))
    ensures ReadSerialSpec(rs, store, ts).trace[0] == BeforeRead
    ensures DispatchEventsWithin(ReadSerialSpec(rs, store, ts).trace[1..], 0, m)
  {
    WalkFailsAt(rs, store, ts, 0, m);
    var w := WalkFrom(rs, store, ts, 0);
    assert ([BeforeRead] + w.trace)[1..] == w.trace;
  }

  /**
   * `readSerial` fulfils exactly when every token is claimed; it then hands back
   * every token in order, each tagged with its claimer, between `before-read`
   * and `after-read`.
   */
  lemma ReadSerialSucceeds(rs: seq<Reader>, store: map<string, Value>, ts: seq<Token>)
    ensures ReadSerialSpec(rs, store, ts).result.Success? <==> AllClaimedFrom(rs, store, ts, 0)
    ensures ReadSerialSpec(rs, store, ts).result.Success? ==>
      var run := ReadSerialSpec(rs, store, ts);
      && run.result.value == DispatchedTokens(rs, store, ts)
      && (forall j :: 0 <= j < |ts| ==> "reader" in run.result.value[j].meta)
      && run.trace[0] == BeforeRead
      && run.trace[|run.trace| - 1] == AfterRead
  {
    WalkSucceeds(rs, store, ts, 0);
    assert ts[0..] == ts;
    var run := ReadSerialSpec(rs, store, ts);
    if run.result.Success? {
      forall j | 0 <= j < |ts|
        ensures "reader" in run.result.value[j].meta
      {
        assert !Unclaimed(rs, store, ts[j]);
        DispatchShape(rs, store, 0, ts[j]);
      }
    }
  }

  /** Within a batch, readers see the tokens strictly in order, one token after another. */
  lemma ReadSerialInOrder(rs: seq<Reader>, store: map<string, Value>, ts: seq<Token>)
    ensures InTokenOrder(WalkFrom(rs, store, ts, 0).trace)
    ensures ReadSerialSpec(rs, store, ts).trace[1..1 + |WalkFrom(rs, store, ts, 0).trace|] == WalkFrom(rs, store, ts, 0).trace
  {
    WalkInOrder(rs, store, ts, 0);
  }

  /** The reader may preload: it is enabled and has a `preload`. */
  predicate CanPreload(store: map<string, Value>, r: Reader) {
    Enabled(store, r) && r.preload.Some?
  }

  /** The reader preloads the token: it may, and its `preload` answers truthy. */
  predicate Preloads(store: map<string, Value>, r: Reader, t: Token) {
    CanPreload(store, r) && r.preload.value(t, ReaderOptions(store, r))
  }

  /**
   * The inner loop of `preload` from reader i: the first reader that preloads
   * the token, if any; no reader before it does.
   */
  function PreloaderFrom(rs: seq<Reader>, store: map<string, Value>, t: Token, i: nat): (p: Option<nat>)
    requires i <= |rs|
    decreases |rs| - i
    ensures p.Some? ==>
      && i <= p.value < |rs|
      && Preloads(store, rs[p.value], t)
      && forall j :: i <= j < p.value ==> !Preloads(store, rs[j], t)
    ensures p.None? ==> forall j :: i <= j < |rs| ==> !Preloads(store, rs[j], t)
  {
    if i == |rs| then None
    else if Preloads(store, rs[i], t) then Some(i)
    else PreloaderFrom(rs, store, t, i + 1)
  }

  /** One reader of the preload search: it preloads the token, or the search goes on after it. */
  lemma PreloaderStep(rs: seq<Reader>, store: map<string, Value>, t: Token, i: nat)
    requires i < |rs|
    ensures Preloads(store, rs[i], t) ==> PreloaderFrom(rs, store, t, i) == Some(i)
    ensures !Preloads(store, rs[i], t) ==> PreloaderFrom(rs, store, t, i) == PreloaderFrom(rs, store, t, i + 1)
  {
  }

  /** The token after the preload pass over it. */
  function PreloadToken(rs: seq<Reader>, store: map<string, Value>, t: Token): Token {
    match PreloaderFrom(rs, store, t, 0)
    case Some(i) => SetMeta(t, "preloader", ReaderRef(i))
    case None => t
  }

  /**
   * The preload pass changes only `meta.preloader`: it names the first reader
   * that preloads the token, and a token no reader preloads is left as it is.
   */
  lemma PreloadTokenShape(rs: seq<Reader>, store: map<string, Value>, t: Token)
    ensures var r := PreloadToken(rs, store, t);
      && r.kind == t.kind && r.value == t.value && r.options == t.options
      && (forall key :: key in t.meta && key != "preloader" ==> key in r.meta && r.meta[key] == t.meta[key])
      && (forall key :: key in r.meta && key != "preloader" ==> key in t.meta)
      && (PreloaderFrom(rs, store, t, 0).Some? ==>
        "preloader" in r.meta && r.meta["preloader"] == ReaderRef(PreloaderFrom(rs, store, t, 0).value))
      && (PreloaderFrom(rs, store, t, 0).None? ==> r == t)
  {
  }

  /** `preload(tokens)`: every token handled on its own. */
  function PreloadAll(rs: seq<Reader>, store: map<string, Value>, ts: seq<Token>): (out: seq<Token>)
    ensures |out| == |ts|
    ensures forall k :: 0 <= k < |ts| ==> out[k] == PreloadToken(rs, store, ts[k])
  {
    seq(|ts|, k requires 0 <= k < |ts| => PreloadToken(rs, store, ts[k]))
  }

  /** Reader p is the first reader that preloads t. */
  ghost predicate FirstPreloader(rs: seq<Reader>, store: map<string, Value>, t: Token, p: nat) {
    p < |rs| && Preloads(store, rs[p], t) && forall j :: 0 <= j < p ==> !Preloads(store, rs[j], t)
  }

  /** No reader preloads t. */
  ghost predicate NonePreloads(rs: seq<Reader>, store: map<string, Value>, t: Token) {
    forall j :: 0 <= j < |rs| ==> !Preloads(store, rs[j], t)
  }

  /**
   * After the preload pass every token that some reader preloads names the
   * first such reader as `meta.preloader`, and every other token is as it was.
   */
  lemma PreloadAllTags(rs: seq<Reader>, store: map<string, Value>, ts: seq<Token>)
    ensures forall k :: 0 <= k < |ts| ==> PreloadedAsFirst(rs, store, ts[k], PreloadAll(rs, store, ts)[k])
  {
    forall k | 0 <= k < |ts|
      ensures PreloadedAsFirst(rs, store, ts[k], PreloadAll(rs, store, ts)[k])
    {
      var t := ts[k];
      assert PreloadAll(rs, store, ts)[k] == PreloadToken(rs, store, t);
      forall p: nat | FirstPreloader(rs, store, t, p)
        ensures "preloader" in PreloadToken(rs, store, t).meta && PreloadToken(rs, store, t).meta["preloader"] == ReaderRef(p)
      {
        PreloadTagged(rs, store, t, p);
      }
      if NonePreloads(rs, store, t) {
        PreloadUntouched(rs, store, t);
      }
    }
  }

  /**
   * The token out is t after the preload pass: tagged with the first reader
   * that preloads t, or unchanged when no reader does.
   */
  ghost predicate PreloadedAsFirst(rs: seq<Reader>, store: map<string, Value>, t: Token, out: Token) {
    && (forall p: nat :: FirstPreloader(rs, store, t, p) ==> "preloader" in out.meta && out.meta["preloader"] == ReaderRef(p))
    && (NonePreloads(rs, store, t) ==> out == t)
  }

  /** A token whose first preloading reader is p is tagged with p. */
  lemma PreloadTagged(rs: seq<Reader>, store: map<string, Value>, t: Token, p: nat)
    requires FirstPreloader(rs, store, t, p)
    ensures "preloader" in PreloadToken(rs, store, t).meta && PreloadToken(rs, store, t).meta["preloader"] == ReaderRef(p)
  {
    var q := PreloaderFrom(rs, store, t, 0);
    assert q.Some?;
    assert !(q.value < p) && !(p < q.value);
  }

  /** A token no reader preloads is left as it is. */
  lemma PreloadUntouched(rs: seq<Reader>, store: map<string, Value>, t: Token)
    requires NonePreloads(rs, store, t)
    ensures PreloadToken(rs, store, t) == t
  {
  }

  /** The preload pass handles each part of a batch on its own. */
  lemma PreloadAllAppend(rs: seq<Reader>, store: map<string, Value>, a: seq<Token>, b: seq<Token>)
    ensures PreloadAll(rs, store, a + b) == PreloadAll(rs, store, a) + PreloadAll(rs, store, b)
  {
    var whole := PreloadAll(rs, store, a + b);
    var parts := PreloadAll(rs, store, a) + PreloadAll(rs, store, b);
    assert |whole| == |parts|;
    forall k | 0 <= k < |whole|
      ensures whole[k] == parts[k]
    {
      if k < |a| {
        assert (a + b)[k] == a[k];
      } else {
        assert (a + b)[k] == b[k - |a|];
      }
    }
  }

  /** The preload pass over one more token. */
  lemma PreloadAllSnoc(rs: seq<Reader>, store: map<string, Value>, ts: seq<Token>, k: nat)
    requires k < |ts|
    ensures PreloadAll(rs, store, ts[..k + 1]) == PreloadAll(rs, store, ts[..k]) + [PreloadToken(rs, store, ts[k])]
  {
    assert ts[..k + 1] == ts[..k] + [ts[k]];
  }

  /** The `preload` events of the first n tokens, in token order. */
  function PreloadTrace(rs: seq<Reader>, store: map<string, Value>, ts: seq<Token>, n: nat): seq<Event>
    requires n <= |ts|
  {
    if n == 0 then []
    else
      var p := PreloaderFrom(rs, store, ts[n - 1], 0);
      PreloadTrace(rs, store, ts, n - 1) + (if p.Some? then [Preloaded(n - 1, p.value)] else [])
  }

  /**
   * Preload hand-off: a preloaded token reaches the readers with
   * `meta.preloader` already written, and when a reader claims it both tags
   * are on the claimed token.
   */
  lemma PreloadVisibleToRead(rs: seq<Reader>, store: map<string, Value>, t: Token, p: nat)
    requires PassesThrough(rs)
    requires PreloaderFrom(rs, store, t, 0) == Some(p)
    ensures "preloader" in DispatchToken(rs, store, PreloadToken(rs, store, t)).token.meta
    ensures DispatchToken(rs, store, PreloadToken(rs, store, t)).token.meta["preloader"] == ReaderRef(p)
    ensures DispatchToken(rs, store, PreloadToken(rs, store, t)).claimer.Some? ==>
      && "reader" in DispatchToken(rs, store, PreloadToken(rs, store, t)).token.meta
      && DispatchToken(rs, store, PreloadToken(rs, store, t)).token.meta["reader"] ==
        ReaderRef(DispatchToken(rs, store, PreloadToken(rs, store, t)).claimer.value)
  {
    DispatchFindsFirstClaimer(rs, store, 0, PreloadToken(rs, store, t));
    DispatchShape(rs, store, 0, PreloadToken(rs, store, t));
  }
}
