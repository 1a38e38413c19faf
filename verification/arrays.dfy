/** The Array.prototype built-ins the core uses, over sequences. */
module Arrays {

  /** Array.prototype.indexOf: the index of the first element equal to v, or -1 when there is none. */
  function IndexOf<T(==)>(s: seq<T>, v: T): (r: int)
    ensures -1 <= r < |s|
    ensures r == -1 <==> v !in s
    ensures 0 <= r ==> s[r] == v && v !in s[..r]
  {
    if |s| == 0 then -1
    else if s[0] == v then 0
    else
      var k := IndexOf(s[1..], v);
      assert s == [s[0]] + s[1..];
      assert 0 <= k ==> s[..k + 1] == [s[0]] + s[1..][..k];
      if k == -1 then -1 else k + 1
  }

  /** Where Array.prototype.splice starts: a negative start counts back from the end; the result is clamped to [0, len]. */
  function SpliceStart(len: nat, start: int): (k: nat)
    ensures k <= len
    ensures 0 <= start <= len ==> k == start
    ensures start < 0 && 0 <= len + start ==> k == len + start
  {
    if start < 0 then (if len + start < 0 then 0 else len + start)
    else if start < len then start
    else len
  }

  /** Array.prototype.splice(start, 1) done for its effect: the array it leaves behind. */
  function SpliceOne<T>(s: seq<T>, start: int): (r: seq<T>)
    ensures |r| == if SpliceStart(|s|, start) < |s| then |s| - 1 else |s|
    ensures forall i :: 0 <= i < |r| ==> r[i] == if i < SpliceStart(|s|, start) then s[i] else s[i + 1]
    ensures multiset(r) <= multiset(s)
  {
    var k := SpliceStart(|s|, start);
    if k < |s| then
      assert s == s[..k] + [s[k]] + s[k + 1..];
      s[..k] + s[k + 1..]
    else s
  }
}
