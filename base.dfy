/** Small building blocks shared by the page models: an optional value and
    the whitespace trimming that the forms apply to their text fields. */
module Base {

  /** A value that may be absent (`null` in the application). */
  datatype Option<T> = None | Some(value: T)

  /** The characters that ECMAScript's `String.prototype.trim` removes:
      the WhiteSpace and LineTerminator code points. */
  predicate IsTrimmable(c: char) {
    || c == ' ' || '\t' <= c <= '\r' || c == '\U{00A0}' || c == '\U{1680}'
    || '\U{2000}' <= c <= '\U{200A}' || c == '\U{2028}' || c == '\U{2029}'
    || c == '\U{202F}' || c == '\U{205F}' || c == '\U{3000}' || c == '\U{FEFF}'
  }

  /** True when every character of `s` is removed by trimming. */
  predicate AllTrimmable(s: string) {
    forall i :: 0 <= i < |s| ==> IsTrimmable(s[i])
  }

  /** The index of the first character at or after `i` that trimming keeps
      (`|s|` when there is none). */
  function SkipStart(s: string, i: nat): (k: nat)
    requires i <= |s|
    ensures i <= k <= |s|
    ensures forall j :: i <= j < k ==> IsTrimmable(s[j])
    ensures k < |s| ==> !IsTrimmable(s[k])
    decreases |s| - i
  {
    if i < |s| && IsTrimmable(s[i]) then SkipStart(s, i + 1) else i
  }

  /** The end of `s[lo..hi]` once its trailing whitespace is dropped. */
  function SkipEnd(s: string, lo: nat, hi: nat): (k: nat)
    requires lo <= hi <= |s|
    ensures lo <= k <= hi
    ensures forall j :: k <= j < hi ==> IsTrimmable(s[j])
    ensures lo < k ==> !IsTrimmable(s[k - 1])
  {
    if lo < hi && IsTrimmable(s[hi - 1]) then SkipEnd(s, lo, hi - 1) else hi
  }

  /** `s.trim()`: a middle piece of `s` with only whitespace cut off before
      and after it. What is left has whitespace at neither end, and it is
      empty exactly when `s` is all whitespace. */
  function Trim(s: string): (r: string)
    ensures |r| <= |s|
    ensures exists a, b :: 0 <= a <= b <= |s| && r == s[a..b] && AllTrimmable(s[..a]) && AllTrimmable(s[b..])
    ensures r != [] ==> !IsTrimmable(r[0]) && !IsTrimmable(r[|r| - 1])
    ensures r == [] <==> AllTrimmable(s)
  {
    var a := SkipStart(s, 0);
    var b := SkipEnd(s, a, |s|);
    assert a == b ==> forall j :: 0 <= j < |s| ==> IsTrimmable(s[j]);
    assert AllTrimmable(s[..a]) && AllTrimmable(s[b..]);
    s[a..b]
  }

  /** Trimming twice is trimming once. */
  lemma TrimIdempotent(s: string)
    ensures Trim(Trim(s)) == Trim(s)
  {
    TrimKeeps(Trim(s));
  }

  /** A string with no whitespace at either end is left as it is. */
  lemma TrimKeeps(s: string)
    requires s == [] || (!IsTrimmable(s[0]) && !IsTrimmable(s[|s| - 1]))
    ensures Trim(s) == s
  {
    if s != [] {
      TrimUnique(s, 0, |s|);
    }
  }

  /** Trimming is determined by its contract: cutting whitespace-only pieces
      off both ends of `s` so that what is left has whitespace at neither end
      (or is empty because `s` is all whitespace) gives exactly `Trim(s)`. */
  lemma TrimUnique(s: string, a: nat, b: nat)
    requires a <= b <= |s|
    requires AllTrimmable(s[..a]) && AllTrimmable(s[b..])
    requires a == b || (!IsTrimmable(s[a]) && !IsTrimmable(s[b - 1]))
    requires a == b ==> AllTrimmable(s)
    ensures Trim(s) == s[a..b]
  {
    if a < b {
      var k := SkipStart(s, 0);
      assert forall j :: 0 <= j < a ==> s[..a][j] == s[j];
      assert k == a;
      assert forall j :: b <= j < |s| ==> s[b..][j - b] == s[j];
      assert SkipEnd(s, a, |s|) == b;
    }
  }
}
