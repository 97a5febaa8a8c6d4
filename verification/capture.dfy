/** Manual snapshot naming (src/capture.rs): each call names the next file
    `./screenshot/screenshot-<counter>.jpg` and advances a per-system `u32`
    counter that starts at 0. The disk write itself is external. */
module Capture {
  import opened Wrappers
  import opened Resources
  import Decimal

  const U32Modulus: nat := 0x1_0000_0000

  type U32 = x: nat | x < U32Modulus

  const PathPrefix: string := "./screenshot/screenshot-"
  const PathSuffix: string := ".jpg"

  /** A screenshot request for a window, and the counter the system keeps afterwards. */
  datatype Snapshot = Snapshot(window: Entity, path: string, nextCounter: U32)

  function SnapshotPath(counter: U32): string {
    PathPrefix + Decimal.Show(counter) + PathSuffix
  }

  /** Recovers the counter a snapshot path was named with, if it has the shape
      of one. */
  function SnapshotIndex(path: string): Option<nat> {
    if |path| > |PathPrefix| + |PathSuffix|
       && path[..|PathPrefix|] == PathPrefix
       && path[|path| - |PathSuffix|..] == PathSuffix
       && Decimal.AllDigits(path[|PathPrefix|..|path| - |PathSuffix|])
    then Some(Decimal.Parse(path[|PathPrefix|..|path| - |PathSuffix|]))
    else None
  }

  lemma SnapshotIndexOfPath(counter: U32)
    ensures SnapshotIndex(SnapshotPath(counter)) == Some(counter)
  {
    var digits := Decimal.Show(counter);
    var p := SnapshotPath(counter);
    assert p[..|PathPrefix|] == PathPrefix;
    assert p[|p| - |PathSuffix|..] == PathSuffix;
    assert p[|PathPrefix|..|p| - |PathSuffix|] == digits;
    Decimal.ParseShow(counter);
  }

  /** The counter is a `u32`: it wraps to 0 after 2^32 - 1 (release-mode
      arithmetic). */
  function TakeSnapshot(counter: U32, operationWindow: OperationWindowRelatedEntities): (r: Snapshot)
    requires operationWindow.window.Some?
    ensures r.window == operationWindow.window.value
    ensures r.path == PathPrefix + Decimal.Show(counter) + PathSuffix
    ensures SnapshotIndex(r.path) == Some(counter)
    ensures counter + 1 < U32Modulus ==> r.nextCounter == counter + 1
    ensures counter + 1 == U32Modulus ==> r.nextCounter == 0
  {
    SnapshotIndexOfPath(counter);
    Snapshot(operationWindow.window.value, SnapshotPath(counter), (counter + 1) % U32Modulus)
  }

  /** The paths of `n` consecutive calls starting from `counter`. */
  function SnapshotRun(counter: U32, n: nat, operationWindow: OperationWindowRelatedEntities): (paths: seq<string>)
    requires operationWindow.window.Some?
    requires counter + n <= U32Modulus
    ensures |paths| == n
    decreases n
  {
    if n == 0 then []
    else
      var s := TakeSnapshot(counter, operationWindow);
      [s.path] + SnapshotRun(s.nextCounter, n - 1, operationWindow)
  }

  lemma {:induction false} SnapshotRunIndices(counter: U32, n: nat, operationWindow: OperationWindowRelatedEntities)
    requires operationWindow.window.Some?
    requires counter + n <= U32Modulus
    ensures forall i :: 0 <= i < n ==>
              SnapshotIndex(SnapshotRun(counter, n, operationWindow)[i]) == Some(counter + i)
    decreases n
  {
    if n > 0 {
      var s := TakeSnapshot(counter, operationWindow);
      if n > 1 {
        SnapshotRunIndices(s.nextCounter, n - 1, operationWindow);
      }
    }
  }

  /** Consecutive calls never reuse a file name while the counter does not wrap. */
  lemma SnapshotRunDistinct(counter: U32, n: nat, operationWindow: OperationWindowRelatedEntities)
    requires operationWindow.window.Some?
    requires counter + n <= U32Modulus
    ensures forall i, j :: 0 <= i < j < n ==>
              SnapshotRun(counter, n, operationWindow)[i] != SnapshotRun(counter, n, operationWindow)[j]
  {
    SnapshotRunIndices(counter, n, operationWindow);
  }

  /** `Local<u32>` starts at 0, so the first file is screenshot-0. */
  lemma FirstSnapshotPath(operationWindow: OperationWindowRelatedEntities)
    requires operationWindow.window.Some?
    ensures TakeSnapshot(0, operationWindow).path == "./screenshot/screenshot-0.jpg"
    ensures TakeSnapshot(0, operationWindow).nextCounter == 1
  {
  }
}
