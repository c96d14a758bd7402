/**
 * How the promises of successive serial `read` calls settle. Each serial call
 * chains its batch after the cursor with `finally` and makes the result the new
 * cursor. As written, the rejection of an earlier batch passes through every
 * later `finally`, so once one serial batch fails, every later serial read
 * rejects: with its own error when its own batch fails, otherwise with the
 * latest earlier rejection, even when its own tokens are all read. The
 * corrected chain keeps the cursor itself settled-successful, so every read
 * settles with its own outcome.
 */
module SerialCursor {
  import opened Tokens

  /** How a promise settles. */
  datatype Settlement = Fulfilled(tokens: seq<Token>) | Rejected(reason: string)

  /**
   * `prev.finally(() => readSerial(tokens)).then(() => tokens)`: a rejection of
   * the batch's own run wins; otherwise a rejection of prev passes through;
   * otherwise the batch's own result.
   */
  function ChainStep(prev: Settlement, own: Settlement): (r: Settlement)
    ensures r.Rejected? <==> (prev.Rejected? || own.Rejected?)
    ensures r.Fulfilled? ==> r == own
    ensures prev.Fulfilled? ==> r == own
    ensures r.Rejected? ==> r == own || r == prev
    ensures own.Rejected? ==> r == own
  {
    if own.Rejected? then own else if prev.Rejected? then prev else own
  }

  /** The cursor after the settlements so far: the last of them, or the starting cursor. */
  function After(cursor: Settlement, settled: seq<Settlement>): Settlement {
    if settled == [] then cursor else settled[|settled| - 1]
  }

  /**
   * The settlements of successive serial reads as written: after each call the
   * cursor is the promise the call returned.
   */
  function ChainAsWritten(cursor: Settlement, own: seq<Settlement>): (r: seq<Settlement>)
    ensures |r| == |own|
    ensures forall i :: 0 <= i < |own| ==> r[i] == ChainStep(After(cursor, r[..i]), own[i])
    decreases |own|
  {
    if own == [] then []
    else
      var s := ChainStep(cursor, own[0]);
      [s] + ChainAsWritten(s, own[1..])
  }

  /**
   * One more serial read as written: its promise is the chain step from the
   * cursor that the earlier reads left behind.
   */
  lemma {:induction false} ChainAsWrittenSnoc(cursor: Settlement, own: seq<Settlement>, x: Settlement)
    ensures ChainAsWritten(cursor, own + [x])
      == ChainAsWritten(cursor, own) + [ChainStep(After(cursor, ChainAsWritten(cursor, own)), x)]
    decreases |own|
  {
    if own == [] {
      assert own + [x] == [x];
      assert ([x])[1..] == [];
    } else {
      var s := ChainStep(cursor, own[0]);
      assert (own + [x])[0] == own[0];
      assert (own + [x])[1..] == own[1..] + [x];
      ChainAsWrittenSnoc(s, own[1..], x);
      assert After(s, ChainAsWritten(s, own[1..])) == After(cursor, ChainAsWritten(cursor, own));
    }
  }

  /**
   * The corrected chain: the cursor becomes the call's promise with its
   * rejection caught, so the next batch always runs after a fulfilled cursor.
   */
  function ChainCorrected(cursor: Settlement, own: seq<Settlement>): (r: seq<Settlement>)
    ensures |r| == |own|
    decreases |own|
  {
    if own == [] then []
    else
      var s := ChainStep(cursor, own[0]);
      [s] + ChainCorrected(Fulfilled([]), own[1..])
  }

  /** As written, a rejection sticks: every later serial read rejects too. */
  lemma {:induction false} RejectionSticks(cursor: Settlement, own: seq<Settlement>, m: nat, n: nat)
    requires m <= n < |own|
    requires ChainAsWritten(cursor, own)[m].Rejected?
    ensures ChainAsWritten(cursor, own)[n].Rejected?
    decreases n
  {
    if n > m {
      RejectionSticks(cursor, own, m, n - 1);
      StepRejects(cursor, own, n);
    }
  }

  /** As written, position n rejects when position n - 1 does. */
  lemma {:induction false} StepRejects(cursor: Settlement, own: seq<Settlement>, n: nat)
    requires 0 < n < |own|
    requires ChainAsWritten(cursor, own)[n - 1].Rejected?
    ensures ChainAsWritten(cursor, own)[n].Rejected?
    decreases n
  {
    var r := ChainAsWritten(cursor, own);
    assert After(cursor, r[..n]) == r[n - 1];
  }

  /**
   * The discrepancy: a first serial read whose token is unclaimed, then a
   * second whose token is read; the second call rejects with the first call's error.
   */
  lemma StaleRejection(ok: seq<Token>)
    ensures ChainAsWritten(Fulfilled([]), [Rejected("unexpected token \"text:bad\""), Fulfilled(ok)])[1]
      == Rejected("unexpected token \"text:bad\"")
  {
    var own := [Rejected("unexpected token \"text:bad\""), Fulfilled(ok)];
    assert own[1..] == [Fulfilled(ok)];
  }

  /**
   * As written, a serial read whose own batch is fulfilled, after the read at
   * position m rejected and every read between them fulfilled, rejects with
   * the reason of read m: the latest earlier rejection.
   */
  lemma {:induction false} LatestRejection(cursor: Settlement, own: seq<Settlement>, m: nat, n: nat)
    requires m <= n < |own|
    requires own[m].Rejected?
    requires forall j :: m < j <= n ==> own[j].Fulfilled?
    ensures ChainAsWritten(cursor, own)[n] == own[m]
    decreases n
  {
    var r := ChainAsWritten(cursor, own);
    if n > m {
      LatestRejection(cursor, own, m, n - 1);
      assert After(cursor, r[..n]) == r[n - 1];
    }
  }

  /** Corrected: from a fulfilled cursor every serial read settles with its own outcome. */
  lemma {:induction false} CorrectedSettlesOwn(cursor: Settlement, own: seq<Settlement>)
    requires cursor.Fulfilled?
    ensures ChainCorrected(cursor, own) == own
    decreases |own|
  {
    if own != [] {
      CorrectedSettlesOwn(Fulfilled([]), own[1..]);
      assert own == [own[0]] + own[1..];
    }
  }
}
