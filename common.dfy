/** Small value helpers shared by the scoring engine's modules. */
module Common {

  datatype Option<+T> = None | Some(value: T)

  /** Math.abs over reals. */
  function Abs(x: real): (r: real)
    ensures r >= 0.0
    ensures r == x || r == -x
  {
    if x < 0.0 then -x else x
  }

  /** Math.min over integers. */
  function MinInt(a: int, b: int): (r: int)
    ensures r <= a && r <= b
    ensures r == a || r == b
  {
    if a <= b then a else b
  }

  /** Math.min(1, x) over reals. */
  function MinOne(x: real): (r: real)
    ensures r <= 1.0 && r <= x
    ensures r == 1.0 || r == x
  {
    if x <= 1.0 then x else 1.0
  }

  /** Math.max over reals. */
  function MaxReal(a: real, b: real): (r: real)
    ensures r >= a && r >= b
    ensures r == a || r == b
  {
    if a >= b then a else b
  }

  /** Math.max(0, Math.min(1, x)): the single clamp the scorer applies at the end. */
  function Clamp01(x: real): (r: real)
    ensures 0.0 <= r <= 1.0
    ensures 0.0 <= x <= 1.0 ==> r == x
    ensures x < 0.0 ==> r == 0.0
    ensures x > 1.0 ==> r == 1.0
  {
    if x < 0.0 then 0.0 else if x > 1.0 then 1.0 else x
  }

  /**
   * `if (s.length > n) s = s.slice(-n)`: the newest `n` entries of a history
   * that was just appended to.
   */
  function KeepLast<T>(s: seq<T>, n: nat): (r: seq<T>)
    ensures |r| <= n && |r| <= |s|
    ensures |s| <= n ==> r == s
    ensures |s| > n ==> |r| == n
    ensures r == s[|s| - |r|..]
  {
    if |s| > n then s[|s| - n..] else s
  }

  /** What is kept was in the history, and the newest entry is always kept. */
  lemma KeepLastMembers<T>(s: seq<T>, n: nat)
    ensures forall x | x in KeepLast(s, n) :: x in s
    ensures n > 0 && |s| > 0 ==> s[|s| - 1] in KeepLast(s, n)
  {
    var r := KeepLast(s, n);
    forall x | x in r ensures x in s {
      var i :| 0 <= i < |r| && r[i] == x;
      assert s[|s| - |r| + i] == x;
    }
    if n > 0 && |s| > 0 {
      assert r[|r| - 1] == s[|s| - 1];
    }
  }
}
