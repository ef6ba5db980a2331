/** Exponential back-off with jitter, over reals: the browser's draw is any number in [0, 1]. */
module Backoff {
  import opened Outbox

  const STEPS_MS: seq<int> := [1000, 2000, 4000, 8000, 16000, 30000, 60000]
  const MIN_DELAY_MS := 500

  function Max(a: int, b: int): int {
    if a < b then b else a
  }

  function Min(a: int, b: int): int {
    if a < b then a else b
  }

  function StepMs(attempts: int): int {
    STEPS_MS[Max(0, Min(attempts, |STEPS_MS| - 1))]
  }

  /** Rounds half up, as the browser does. */
  function Round(x: real): int {
    (x + 0.5).Floor
  }

  function Jittered(attempts: int, draw: real): int {
    var base := StepMs(attempts) as real;
    Round(base + base * 0.2 * (draw * 2.0 - 1.0))
  }

  function NextRetryDelayMs(attempts: int, draw: real): int {
    Max(MIN_DELAY_MS, Jittered(attempts, draw))
  }

  /** The steps in numbers: one second after the first failure, doubling to sixteen, then thirty and
      sixty. */
  function Seconds(failures: nat): nat {
    match failures
    case 0 => 1
    case 1 => 2
    case 2 => 4
    case 3 => 8
    case 4 => 16
    case 5 => 30
    case _ => 60
  }

  /** A delay is its step, moved by the draw from four fifths to six fifths of it, to the nearest
      millisecond. */
  lemma DelayInNumbers(failures: nat, draw: real)
    requires 0.0 <= draw <= 1.0
    ensures var exact := Seconds(failures) as real * (800.0 + 400.0 * draw);
            exact - 0.5 <= NextRetryDelayMs(failures, draw) as real <= exact + 0.5
  {
    DelayBand(failures, draw);
    var base := StepMs(failures) as real;
    assert StepMs(failures) == 1000 * Seconds(failures);
    assert base + base * 0.2 * (draw * 2.0 - 1.0) == Seconds(failures) as real * (800.0 + 400.0 * draw) by {
      LinearInDraw(Seconds(failures) as real, draw);
    }
  }

  lemma LinearInDraw(s: real, draw: real)
    ensures 1000.0 * s + 1000.0 * s * 0.2 * (draw * 2.0 - 1.0) == s * (800.0 + 400.0 * draw)
  {
    assert 1000.0 * s * 0.2 == 200.0 * s;
    assert 200.0 * s * (draw * 2.0 - 1.0) == 400.0 * (s * draw) - 200.0 * s;
  }

  /** Every delay stays within a fifth of its step, and the floor never takes effect. */
  lemma DelayBand(attempts: int, draw: real)
    requires 0.0 <= draw <= 1.0
    ensures 8 * StepMs(attempts) <= 10 * NextRetryDelayMs(attempts, draw) <= 12 * StepMs(attempts)
    ensures NextRetryDelayMs(attempts, draw) == Jittered(attempts, draw) > MIN_DELAY_MS
  {
    var step := StepMs(attempts);
    var base := step as real;
    var x := base + base * 0.2 * (draw * 2.0 - 1.0);
    assert step % 5 == 0;
    var low, high := step / 5 * 4, step / 5 * 6;
    assert low as real <= x <= high as real by {
      ScaledDraw(base * 0.2, draw * 2.0 - 1.0);
      assert base == (step / 5) as real * 5.0;
    }
  }

  lemma ScaledDraw(width: real, t: real)
    requires 0.0 <= width && -1.0 <= t <= 1.0
    ensures -width <= width * t <= width
  {
  }

  /** The bands of the first seven failures are apart, so the delays grow strictly. */
  lemma DelaysGrow(i: nat, j: nat, x: real, y: real)
    requires i < j < |STEPS_MS| && 0.0 <= x <= 1.0 && 0.0 <= y <= 1.0
    ensures NextRetryDelayMs(i, x) < NextRetryDelayMs(j, y)
  {
    DelayBand(i, x);
    DelayBand(j, y);
    assert 12 * STEPS_MS[i] < 8 * STEPS_MS[j];
  }

  /** One network failure of an item: when it happened and the jitter drawn for it. */
  datatype Failure = Failure(now: int, draw: real, message: string)

  /** An item's life as a run of attempts that all end in a network failure. */
  function AfterFailures(item: Item, run: seq<Failure>): Item {
    if run == [] then item
    else
      var before := AfterFailures(item, run[..|run| - 1]);
      var f := run[|run| - 1];
      var syncing := ApplyOutboxEvent(before, StartSyncing, f.now, 0);
      ApplyOutboxEvent(syncing, NetworkError(f.message), f.now, NextRetryDelayMs(syncing.attempts, f.draw))
  }

  ghost predicate DrawsInRange(run: seq<Failure>) {
    forall i :: 0 <= i < |run| ==> 0.0 <= run[i].draw <= 1.0
  }

  function DelayAt(item: Item, run: seq<Failure>, i: nat): int
    requires i < |run|
  {
    AfterFailures(item, run[..i + 1]).nextRetryAt - run[i].now
  }

  /** After k failures the counter reads k more, and the item still waits to be resent. */
  lemma {:induction false} FailuresAreCounted(item: Item, run: seq<Failure>)
    ensures var after := AfterFailures(item, run);
            && after.attempts == item.attempts + |run|
            && after.id == item.id && BirthOf(after) == BirthOf(item)
            && (run != [] ==> IsRetryable(after.status))
  {
    if run != [] {
      FailuresAreCounted(item, run[..|run| - 1]);
    }
  }

  lemma DelayIsStep(item: Item, run: seq<Failure>, i: nat)
    requires i < |run|
    ensures DelayAt(item, run, i) == NextRetryDelayMs(item.attempts + i, run[i].draw)
  {
    assert run[..i + 1][..i] == run[..i];
    FailuresAreCounted(item, run[..i]);
  }

  /**
   * A run of failures of a fresh item, whatever jitter is drawn: the first seven waits
   * grow strictly, the later ones stay between 48 and 72 seconds.
   */
  lemma RetryRun(item: Item, run: seq<Failure>)
    requires item.attempts == 0 && DrawsInRange(run)
    ensures forall i, j :: 0 <= i < j < |run| && j < 7 ==> DelayAt(item, run, i) < DelayAt(item, run, j)
    ensures forall i :: 6 <= i < |run| ==> 48000 <= DelayAt(item, run, i) <= 72000
    ensures forall i :: 0 <= i < |run| ==> 800 <= DelayAt(item, run, i)
  {
    forall i | 0 <= i < |run|
      ensures 800 <= DelayAt(item, run, i)
      ensures 6 <= i ==> 48000 <= DelayAt(item, run, i) <= 72000
    {
      DelayIsStep(item, run, i);
      DelayBand(i, run[i].draw);
    }
    forall i, j | 0 <= i < j < |run| && j < 7
      ensures DelayAt(item, run, i) < DelayAt(item, run, j)
    {
      DelayIsStep(item, run, i);
      DelayIsStep(item, run, j);
      DelaysGrow(i, j, run[i].draw, run[j].draw);
    }
  }
}
