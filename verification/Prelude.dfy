/** Values shared by every machine: optional values, JavaScript trimming, failures of a network call. */
module Prelude {

  datatype Option<+T> = None | Some(value: T)

  /** The numeric status of a failed call; a lost connection carries no status. */
  datatype Failure = Failure(status: Option<int>, retryable: bool)

  /** The characters removed by String.prototype.trim. */
  predicate IsSpace(c: char) {
    var n := c as int;
    || 0x09 <= n <= 0x0D || n == 0x20 || n == 0xA0 || n == 0x1680
    || 0x2000 <= n <= 0x200A || n == 0x2028 || n == 0x2029 || n == 0x202F
    || n == 0x205F || n == 0x3000 || n == 0xFEFF
  }

  /** The white space and line terminators of ECMAScript, one by one. */
  lemma SpacesOneByOne(c: char)
    ensures IsSpace(c) <==>
      c as int in {9, 10, 11, 12, 13, 32, 160, 5760, 8192, 8193, 8194, 8195, 8196, 8197, 8198, 8199, 8200, 8201, 8202,
                   8232, 8233, 8239, 8287, 12288, 65279}
  {}

  /** The first position from `i` on that holds a visible character, or the end. */
  function FirstVisible(s: string, i: nat): (r: nat)
    requires i <= |s|
    ensures i <= r <= |s| && (r < |s| ==> !IsSpace(s[r]))
    ensures forall j :: i <= j < r ==> IsSpace(s[j])
    decreases |s| - i
  {
    if i < |s| && IsSpace(s[i]) then FirstVisible(s, i + 1) else i
  }

  /** One past the last visible character before `i`, or 0. */
  function EndOfVisible(s: string, i: nat): (r: nat)
    requires i <= |s|
    ensures r <= i && (r > 0 ==> !IsSpace(s[r - 1]))
    ensures forall j :: r <= j < i ==> IsSpace(s[j])
  {
    if i > 0 && IsSpace(s[i - 1]) then EndOfVisible(s, i - 1) else i
  }

  function Trim(s: string): string {
    var start, end := FirstVisible(s, 0), EndOfVisible(s, |s|);
    if start <= end then s[start..end] else ""
  }

  /** `t` is the part of s between two positions, outside which s is blank. */
  predicate IsPartWithin(s: string, t: string, start: nat, end: nat) {
    && start <= end <= |s| && t == s[start..end]
    && (forall i :: 0 <= i < start ==> IsSpace(s[i])) && forall i :: end <= i < |s| ==> IsSpace(s[i])
  }

  /** A trimmed text is what remains between the outer blanks; it starts and ends with a visible character, and is empty
      only for blank texts. */
  lemma TrimStripsBothEnds(s: string)
    ensures exists start, end :: IsPartWithin(s, Trim(s), start, end)
    ensures Trim(s) != "" ==> !IsSpace(Trim(s)[0]) && !IsSpace(Trim(s)[|Trim(s)| - 1])
    ensures Trim(s) == "" <==> forall i :: 0 <= i < |s| ==> IsSpace(s[i])
    ensures Trim(Trim(s)) == Trim(s)
  {
    var start, end := FirstVisible(s, 0), EndOfVisible(s, |s|);
    var t := Trim(s);
    assert start <= end ==> IsPartWithin(s, t, start, end);
    assert start > end ==> IsPartWithin(s, t, |s|, |s|);
    if t != "" {
      assert t[0] == s[start] && t[|t| - 1] == s[end - 1];
      assert FirstVisible(t, 0) == 0 && EndOfVisible(t, |t|) == |t|;
    }
  }

  /** `id?.trim() || null` */
  function NormalizeId(id: Option<string>): (r: Option<string>)
    ensures r.Some? ==> r.value != "" && id.Some? && r.value == Trim(id.value)
    ensures r.None? <==> id.None? || forall i :: 0 <= i < |id.value| ==> IsSpace(id.value[i])
  {
    if id.None? then None
    else
      TrimStripsBothEnds(id.value);
      if Trim(id.value) == "" then None else Some(Trim(id.value))
  }
}
