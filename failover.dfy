/**
 * Round-robin endpoint rotation and the bounded failover loop shared by GetTransaction and
 * GetLedgerEntries (internal/rpc/client.go), stated independently of the client object.
 */
module RpcFailover {
  import opened Wrappers

  /** The index rotateURL moves to from index i among n URLs: the next one, wrapping to the first. */
  function NextIndex(i: nat, n: nat): (j: nat)
    requires n > 0
    ensures j < n
    ensures i < n - 1 ==> j == i + 1
    ensures i == n - 1 ==> j == 0
  {
    (i + 1) % n
  }

  /** The index reached from `start` after k successive rotations among n URLs. */
  function RotatedIndex(start: nat, n: nat, k: nat): (j: nat)
    requires n > 0
    ensures k > 0 || start < n ==> j < n
  {
    if k == 0 then start else NextIndex(RotatedIndex(start, n, k - 1), n)
  }

  /** From an in-range index, fewer than n rotations step forward k places, wrapping once at most. */
  lemma {:induction false} RotatedIndexClosed(start: nat, n: nat, k: nat)
    requires start < n && k < n
    ensures RotatedIndex(start, n, k) == if start + k < n then start + k else start + k - n
  {
    if k > 0 {
      RotatedIndexClosed(start, n, k - 1);
    }
  }

  /**
   * The URL the k-th attempt of a failover loop talks to: the current URL `first` on the
   * first attempt, afterwards the URL the k-th rotation from `start` selects.
   */
  function AttemptURL(urls: seq<string>, start: nat, first: string, k: nat): string
  {
    if k == 0 || |urls| == 0 then first else urls[RotatedIndex(start, |urls|, k)]
  }

  /**
   * The outcome of the failover loop over n URLs whose k-th attempt yields attempt(k):
   * with no URL, no attempt and the `exhausted` error; otherwise `tries` attempts (at most
   * n, so at most n - 1 rotations), all but the last failed, and the result is the last
   * attempt's, which is a failure only when every one of the n attempts was made.
   */
  ghost predicate Failover<T, E>(attempt: nat -> Result<T, E>, n: nat, tries: nat, r: Result<T, E>, exhausted: E)
  {
    if n == 0 then tries == 0 && r == Err(exhausted)
    else
      && 1 <= tries <= n
      && (forall k :: 0 <= k < tries - 1 ==> attempt(k).Err?)
      && r == attempt(tries - 1)
      && (r.Err? ==> tries == n)
  }

  /** The failover contract leaves no choice: it fixes both the number of attempts and the result. */
  lemma FailoverDeterministic<T, E>(attempt: nat -> Result<T, E>, n: nat, exhausted: E,
                                    t1: nat, r1: Result<T, E>, t2: nat, r2: Result<T, E>)
    requires Failover(attempt, n, t1, r1, exhausted)
    requires Failover(attempt, n, t2, r2, exhausted)
    ensures t1 == t2 && r1 == r2
  {
  }

  /**
   * The loop succeeds exactly when one of the first n attempts succeeds, and then with the
   * first success; it fails with the n-th attempt's error when all n fail.
   */
  lemma FailoverOutcome<T, E>(attempt: nat -> Result<T, E>, n: nat, tries: nat, r: Result<T, E>, exhausted: E)
    requires Failover(attempt, n, tries, r, exhausted)
    ensures r.Ok? <==> exists k :: 0 <= k < n && attempt(k).Ok?
    ensures r.Ok? ==> exists k :: 0 <= k < n && r == attempt(k) && forall j :: 0 <= j < k ==> attempt(j).Err?
    ensures r.Err? && n > 0 ==> r == attempt(n - 1) && forall k :: 0 <= k < n ==> attempt(k).Err?
  {
    if r.Ok? {
      assert attempt(tries - 1).Ok?;
    }
  }

  /** Starting from an in-range index, n consecutive attempts select n distinct indices. */
  lemma RoundRobinInjective(start: nat, n: nat, k1: nat, k2: nat)
    requires start < n && k1 < n && k2 < n && k1 != k2
    ensures RotatedIndex(start, n, k1) != RotatedIndex(start, n, k2)
  {
    RotatedIndexClosed(start, n, k1);
    RotatedIndexClosed(start, n, k2);
  }

  /** The attempt (counted from zero) at which a rotation starting at `start` reaches index j. */
  function RoundRobinAttempt(start: nat, n: nat, j: nat): (k: nat)
    requires start < n && j < n
    ensures k < n && RotatedIndex(start, n, k) == j
  {
    var k := if start <= j then j - start else j + n - start;
    RotatedIndexClosed(start, n, k);
    k
  }

  /**
   * From a consistent state (`first` is the URL at `start`), the n attempts of one failover
   * loop talk to every URL of the list, each list position exactly once: URL j is the one
   * of attempt RoundRobinAttempt(start, n, j), and distinct attempts use distinct positions.
   */
  lemma AttemptsVisitEveryURL(urls: seq<string>, start: nat)
    requires start < |urls|
    ensures forall k :: 0 <= k < |urls| ==> AttemptURL(urls, start, urls[start], k) == urls[RotatedIndex(start, |urls|, k)]
    ensures forall j :: 0 <= j < |urls| ==> AttemptURL(urls, start, urls[start], RoundRobinAttempt(start, |urls|, j)) == urls[j]
    ensures forall k1, k2 :: 0 <= k1 < k2 < |urls| ==> RotatedIndex(start, |urls|, k1) != RotatedIndex(start, |urls|, k2)
  {
    forall j | 0 <= j < |urls|
      ensures AttemptURL(urls, start, urls[start], RoundRobinAttempt(start, |urls|, j)) == urls[j]
    {
      var k := RoundRobinAttempt(start, |urls|, j);
      assert RotatedIndex(start, |urls|, k) == j;
    }
    forall k1, k2 | 0 <= k1 < k2 < |urls|
      ensures RotatedIndex(start, |urls|, k1) != RotatedIndex(start, |urls|, k2)
    {
      RoundRobinInjective(start, |urls|, k1, k2);
    }
  }
}
