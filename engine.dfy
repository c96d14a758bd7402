/**
 * The engine object: its option store with the path-based accessors, the
 * transform entry point, and the read side (`readToken`, `readSerial`,
 * `preload`, `read`) as methods whose loops are proved to compute the
 * functions of ReadDispatch. Serial reads wait on the cursor, modelled as the
 * queue of batches chained after it and not yet settled.
 */
module Engine {
  import opened Results
  import opened OptionTree
  import opened Tokens
  import opened Plugins
  import TransformPipeline
  import opened ReadDispatch
  import opened SerialCursor

  /** The first argument of `read`: a text to transform, or tokens already transformed. */
  datatype Source = Text(text: string) | TokenList(tokens: seq<Token>)

  /** What a `read` call hands back at once. */
  datatype ReadCall =
    | Started(run: SerialRun, preloads: seq<Event>)  // not serial: the batch's `readSerial` starts now
    | Queued(position: nat, preloads: seq<Event>)    // serial: the batch waits behind `position` others

  /** How the promise of a read settles once its `readSerial` has settled. */
  function Outcome(run: SerialRun): (s: Settlement)
    ensures s.Fulfilled? <==> run.result.Success?
    ensures s.Fulfilled? ==> s.tokens == run.result.value
    ensures s.Rejected? ==> s.reason == run.result.error
  {
    match run.result
    case Success(ts) => Fulfilled(ts)
    case Failure(e) => Rejected(e)
  }

  /**
   * The promise of a `readSerial` run fulfils exactly when every token of the
   * batch is claimed, with the tokens in their dispatched form; otherwise it
   * rejects with the error for the first token no reader claims.
   */
  lemma OutcomeOfRun(rs: seq<Reader>, store: map<string, Value>, ts: seq<Token>)
    ensures Outcome(ReadSerialSpec(rs, store, ts)).Fulfilled? <==> AllClaimedFrom(rs, store, ts, 0)
    ensures Outcome(ReadSerialSpec(rs, store, ts)).Fulfilled? ==>
      Outcome(ReadSerialSpec(rs, store, ts)).tokens == DispatchedTokens(rs, store, ts)
    ensures forall m: nat :: FirstUnclaimed(rs, store, ts, m) ==>
      Outcome(ReadSerialSpec(rs, store, ts)) == Rejected(UnexpectedToken(DispatchToken(rs, store, ts[m]).token))
  {
    ReadSerialSucceeds(rs, store, ts);
    forall m: nat | FirstUnclaimed(rs, store, ts, m)
      ensures Outcome(ReadSerialSpec(rs, store, ts)) == Rejected(UnexpectedToken(DispatchToken(rs, store, ts[m]).token))
    {
      ReadSerialFailsAtFirstUnclaimed(rs, store, ts, m);
    }
  }

  /** The object `getOptions` hands out: a fresh top-level copy of the store. */
  class OptionsCopy {
    var entries: map<string, Value>

    constructor (entries: map<string, Value>)
      ensures this.entries == entries
    {
      this.entries := entries;
    }
  }

  class Itako {
    var options: map<string, Value>
    const readers: seq<Reader>
    const transformers: seq<Transformer>
    /** The batches of serial reads chained after the cursor, oldest first, not yet settled. */
    var pending: seq<seq<Token>>
    /** `this.current`: how the cursor settled last; before any serial read, `Promise.resolve()`. */
    var current: Settlement
    /** The own outcomes of the serial batches settled so far, oldest first. */
    ghost var outcomes: seq<Settlement>
    /** How the promises of those serial reads settled, oldest first. */
    ghost var settled: seq<Settlement>

    /**
     * The cursor follows the chain of the source: the settled promises are the
     * `finally` chain over the batches' own outcomes, and the cursor is the last.
     */
    ghost predicate CursorChain()
      reads this`current, this`outcomes, this`settled
    {
      && settled == ChainAsWritten(Fulfilled([]), outcomes)
      && current == After(Fulfilled([]), settled)
    }

    /** `new Itako(readers, transformers, options)`: the store is a copy of options. */
    constructor (readers: seq<Reader>, transformers: seq<Transformer>, options: map<string, Value>)
      ensures this.readers == readers && this.transformers == transformers
      ensures this.options == options && pending == []
      ensures current == Fulfilled([]) && outcomes == [] && CursorChain()
    {
      this.readers := readers;
      this.transformers := transformers;
      this.options := options;
      pending := [];
      current := Fulfilled([]);
      outcomes := [];
      settled := [];
    }

    /**
     * `getOption(path, default)`: rejects a path that is neither a string nor
     * an array; otherwise the value stored at the path, or the default when
     * nothing (or undefined) is stored there.
     */
    function GetOption(path: PathArg, default: Value): (r: Result<Value, string>)
      reads this
      ensures r.Success? <==> (path.StringArg? || path.ArrayArg?)
      ensures r.Failure? ==> r.error == PathError
      ensures r.Success? && Find(options, ValidatePath(path).value) == Undefined ==> r.value == default
      ensures r.Success? && Find(options, ValidatePath(path).value) != Undefined ==>
        r.value == Find(options, ValidatePath(path).value)
    {
      match ValidatePath(path)
      case Success(keys) => Success(Get(options, keys, default))
      case Failure(e) => Failure(e)
    }

    /**
     * `setOption(path, value)`: rejects a bad path and leaves the store alone;
     * otherwise writes value at the path and hands back the engine, after
     * which `getOption` on the same path yields value (or the default, when
     * value is undefined) and every diverging path reads as before.
     */
    method SetOption(path: PathArg, value: Value) returns (r: Result<Itako, string>)
      modifies this`options
      ensures r.Success? <==> (path.StringArg? || path.ArrayArg?)
      ensures r.Failure? ==> r.error == PathError && options == old(options)
      ensures r.Success? ==> r.value == this && options == Put(old(options), ValidatePath(path).value, value)
      ensures r.Success? && |ValidatePath(path).value| >= 1 ==>
        forall d :: GetOption(path, d) == Success(if value == Undefined then d else value)
      ensures r.Success? ==> forall other :: Diverge(ValidatePath(path).value, other) ==>
        Find(options, other) == Find(old(options), other)
    {
      match ValidatePath(path)
      case Failure(e) =>
        r := Failure(e);
      case Success(keys) =>
        options := Put(options, keys, value);
        if |keys| >= 1 {
          FindPut(old(options), keys, value);
        }
        forall other | Diverge(keys, other)
          ensures Find(options, other) == Find(old(options), other)
        {
          FindPutOther(old(options), keys, other, value);
        }
        r := Success(this);
    }

    /** `setOptions(partial)`: a top-level merge in which partial's keys win. */
    method SetOptions(partial: map<string, Value>) returns (self: Itako)
      modifies this`options
      ensures self == this
      ensures options == old(options) + partial
      ensures forall k :: k in partial ==> k in options && options[k] == partial[k]
      ensures forall k :: k !in partial ==> (k in options <==> k in old(options))
      ensures forall k :: k !in partial && k in old(options) ==> options[k] == old(options)[k]
    {
      options := options + partial;
      self := this;
    }

    /** `getOptions()`: a new object with the store's top-level entries. */
    method GetOptions() returns (copy: OptionsCopy)
      ensures fresh(copy)
      ensures copy.entries == options
    {
      copy := new OptionsCopy(options);
    }

    /** `transform(source, opts)` over this engine's store and transformers. */
    function Transform(source: string, opts: map<string, Value>): seq<Token>
      reads this
    {
      TransformPipeline.Transform(options, transformers, source, opts)
    }

    /**
     * `readToken(token)`: the reduction over the reader list. Once a reader
     * has claimed, the remaining readers are skipped.
     */
    method ReadToken(token: Token) returns (d: Dispatch)
      ensures d == DispatchToken(readers, options, token)
    {
      var acc := token;
      var claimer: Option<nat> := None;
      var invoked: seq<nat> := [];
      var i := 0;
      assert Continue(readers, options, 0, None, token, []) == DispatchToken(readers, options, token);
      while i < |readers|
        invariant 0 <= i <= |readers|
        invariant Continue(readers, options, i, claimer, acc, invoked) == DispatchToken(readers, options, token)
      {
        claimer, acc, invoked := ReadStep(i, claimer, acc, invoked);
        i := i + 1;
      }
      if claimer.None? {
        assert invoked + [] == invoked;
        assert Continue(readers, options, i, claimer, acc, invoked) == Dispatch(claimer, acc, invoked);
      }
      d := Dispatch(claimer, acc, invoked);
    }

    /**
     * One step of `readToken`'s reduce over the readers: once a reader has
     * claimed, the rest pass the result through; a disabled reader is passed
     * over; otherwise reader i reads, and a claim tags the token with the reader.
     */
    method ReadStep(i: nat, claimer: Option<nat>, acc: Token, invoked: seq<nat>)
      returns (nextClaimer: Option<nat>, nextAcc: Token, nextInvoked: seq<nat>)
      requires i < |readers|
      ensures Continue(readers, options, i + 1, nextClaimer, nextAcc, nextInvoked)
        == Continue(readers, options, i, claimer, acc, invoked)
    {
      nextClaimer, nextAcc, nextInvoked := claimer, acc, invoked;
      if claimer.Some? {
        return;
      }
      var reader := readers[i];
      var settings := PluginSettings(options, "readers", reader.name);
      if settings.disable {
        DispatchSkips(readers, options, i, acc);
        return;
      }
      var result := reader.read(acc, settings.options);
      match result {
        case Claimed =>
          DispatchClaims(readers, options, i, acc, invoked);
          nextAcc := SetMeta(acc, "reader", ReaderRef(i));
          nextClaimer := Some(i);
        case Declined(next) =>
          DispatchDeclines(readers, options, i, acc, invoked, next);
          nextAcc := next;
      }
      nextInvoked := invoked + [i];
    }

    /**
     * `readSerial(tokens)`: `before-read`, then each token dispatched in
     * turn; the first unclaimed token rejects the run, otherwise `after-read`.
     */
    method ReadSerial(tokens: seq<Token>) returns (run: SerialRun)
      ensures run == ReadSerialSpec(readers, options, tokens)
    {
      var done: seq<Token> := [];
      var events: seq<Event> := [];
      var k := 0;
      assert Resume([], [], WalkFrom(readers, options, tokens, 0)) == WalkFrom(readers, options, tokens, 0);
      while k < |tokens|
        invariant 0 <= k <= |tokens|
        invariant Resume(done, events, WalkFrom(readers, options, tokens, k)) == WalkFrom(readers, options, tokens, 0)
      {
        var d := ReadToken(tokens[k]);
        WalkStep(readers, options, tokens, k, d);
        if d.claimer.None? {
          run := SerialRun(Failure(UnexpectedToken(d.token)), [BeforeRead] + (events + DispatchTrace(k, d)));
          assert done + [] == done;
          return;
        }
        ResumeStep(done, events, d.token, DispatchTrace(k, d), WalkFrom(readers, options, tokens, k + 1));
        done := done + [d.token];
        events := events + DispatchTrace(k, d);
        k := k + 1;
      }
      assert done + [] == done && events + [] == events;
      run := SerialRun(Success(done), [BeforeRead] + events + [AfterRead]);
    }

    /**
     * `preload(tokens)`: for each token, the first enabled reader with a
     * `preload` that takes it is recorded in `meta.preloader` and a `preload`
     * event follows; the other readers are not asked about that token.
     */
    method Preload(tokens: seq<Token>) returns (tagged: seq<Token>, trace: seq<Event>)
      ensures tagged == PreloadAll(readers, options, tokens)
      ensures trace == PreloadTrace(readers, options, tokens, |tokens|)
    {
      tagged := [];
      trace := [];
      var k := 0;
      while k < |tokens|
        invariant 0 <= k <= |tokens|
        invariant tagged == PreloadAll(readers, options, tokens[..k])
        invariant trace == PreloadTrace(readers, options, tokens, k)
      {
        var token := tokens[k];
        var preloader := FindPreloader(token);
        var out := if preloader.Some? then SetMeta(token, "preloader", ReaderRef(preloader.value)) else token;
        PreloadAllSnoc(readers, options, tokens, k);
        tagged := tagged + [out];
        trace := trace + (if preloader.Some? then [Preloaded(k, preloader.value)] else []);
        k := k + 1;
      }
      assert tokens[..|tokens|] == tokens;
    }

    /**
     * The inner loop of `preload` for one token: the first enabled reader with
     * a `preload` that accepts the token.
     */
    method FindPreloader(token: Token) returns (preloader: Option<nat>)
      ensures preloader == PreloaderFrom(readers, options, token, 0)
    {
      preloader := None;
      var i := 0;
      while i < |readers|
        invariant 0 <= i <= |readers|
        invariant PreloaderFrom(readers, options, token, 0) == PreloaderFrom(readers, options, token, i)
      {
        var reader := readers[i];
        var settings := PluginSettings(options, "readers", reader.name);
        PreloaderStep(readers, options, token, i);
        if settings.disable {
          i := i + 1;
          continue;
        }
        if reader.preload.None? {
          i := i + 1;
          continue;
        }
        if reader.preload.value(token, settings.options) {
          preloader := Some(i);
          return;
        }
        i := i + 1;
      }
    }

    /**
     * `read(source, transformOptions)`: the tokens of the source (a text is
     * transformed with the store's `transform` entries overridden by
     * transformOptions), preloaded when `read.preload` is truthy; with
     * `read.serial` truthy the batch is chained behind the cursor, otherwise
     * its `readSerial` starts at once.
     */
    method Read(source: Source, transformOptions: map<string, Value>) returns (call: ReadCall)
      modifies this`pending
      ensures call.preloads == PreloadEvents(source, transformOptions)
      ensures SerialMode() ==>
        call == Queued(|old(pending)|, call.preloads) && pending == old(pending) + [Batch(source, transformOptions)]
      ensures !SerialMode() ==>
        call == Started(ReadSerialSpec(readers, options, Batch(source, transformOptions)), call.preloads) && pending == old(pending)
    {
      var tokens := if source.TokenList? then source.tokens
        else Transform(source.text, Entries(Get(options, ["transform"], Obj(map[]))) + transformOptions);
      var readOptions := Get(options, ["read"], Obj(map[]));
      var preloads: seq<Event> := [];
      if Truthy(Field(readOptions, "preload")) {
        tokens, preloads := Preload(tokens);
      }
      if Truthy(Field(readOptions, "serial")) {
        call := Queued(|pending|, preloads);
        pending := pending + [tokens];
      } else {
        var run := ReadSerial(tokens);
        call := Started(run, preloads);
      }
    }

    /** Whether the store's `read.serial` is truthy. */
    predicate SerialMode()
      reads this
    {
      Truthy(Field(Get(options, ["read"], Obj(map[])), "serial"))
    }

    /** Whether the store's `read.preload` is truthy. */
    predicate PreloadMode()
      reads this
    {
      Truthy(Field(Get(options, ["read"], Obj(map[])), "preload"))
    }

    /** The tokens of a read's source: a token list as given, a text transformed. */
    function TokensOf(source: Source, transformOptions: map<string, Value>): seq<Token>
      reads this
    {
      match source
      case TokenList(ts) => ts
      case Text(s) => Transform(s, Entries(Get(options, ["transform"], Obj(map[]))) + transformOptions)
    }

    /** The batch a read hands to `readSerial`: its tokens, after the preload pass when enabled. */
    function Batch(source: Source, transformOptions: map<string, Value>): seq<Token>
      reads this
    {
      var ts := TokensOf(source, transformOptions);
      if PreloadMode() then PreloadAll(readers, options, ts) else ts
    }

    /** The `preload` events of a read: none unless the preload pass runs. */
    function PreloadEvents(source: Source, transformOptions: map<string, Value>): seq<Event>
      reads this
    {
      var ts := TokensOf(source, transformOptions);
      if PreloadMode() then PreloadTrace(readers, options, ts, |ts|) else []
    }

    /**
     * The cursor reaches the oldest waiting batch: its `readSerial` runs
     * against the store as it is now, and the read's promise settles as
     * `current.finally(run).then(...)` does: with the batch's own rejection,
     * otherwise with a rejection of the cursor, otherwise with the batch's
     * tokens. That promise becomes the cursor; the batch leaves the queue.
     * The run's events come back in `trace`.
     */
    method Settle() returns (r: Option<Settlement>, trace: seq<Event>)
      requires CursorChain()
      modifies this`pending, this`current, this`outcomes, this`settled
      ensures CursorChain()
      ensures old(pending) == [] ==>
        r == None && trace == [] && pending == [] && current == old(current) && outcomes == old(outcomes)
      ensures old(pending) != [] ==>
        var run := ReadSerialSpec(readers, options, old(pending)[0]);
        var own := Outcome(run);
        && pending == old(pending)[1..]
        && trace == run.trace
        && r == Some(ChainStep(old(current), own))
        && current == r.value
        && outcomes == old(outcomes) + [own]
        && settled == old(settled) + [r.value]
    {
      if pending == [] {
        r, trace := None, [];
      } else {
        var batch := pending[0];
        pending := pending[1..];
        var run := ReadSerial(batch);
        trace := run.trace;
        var own := Outcome(run);
        ChainAsWrittenSnoc(Fulfilled([]), outcomes, own);
        current := ChainStep(current, own);
        outcomes := outcomes + [own];
        settled := settled + [current];
        r := Some(current);
      }
    }

    /**
     * The corrected cursor: the oldest waiting batch runs and its read
     * settles with the batch's own outcome, whatever earlier reads did.
     * The run's events come back in `trace`.
     */
    method SettleCorrected() returns (r: Option<Settlement>, trace: seq<Event>)
      modifies this`pending
      ensures old(pending) == [] ==> r == None && trace == [] && pending == []
      ensures old(pending) != [] ==>
        var run := ReadSerialSpec(readers, options, old(pending)[0]);
        && pending == old(pending)[1..]
        && trace == run.trace
        && r == Some(Outcome(run))
    {
      if pending == [] {
        r, trace := None, [];
      } else {
        var batch := pending[0];
        pending := pending[1..];
        var run := ReadSerial(batch);
        trace := run.trace;
        r := Some(Outcome(run));
      }
    }
  }
}
