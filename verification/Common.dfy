/** Small shared vocabulary: optional values and text utilities. */
module Common {

  datatype Option<+T> = None | Some(value: T)

  /** Index of the first occurrence of `c` in `s`, or |s| when there is none. */
  function IndexOf(s: string, c: char): (i: nat)
    ensures i <= |s|
    ensures c !in s[..i]
    ensures i < |s| ==> s[i] == c
  {
    if s == [] || s[0] == c then 0
    else
      var r := IndexOf(s[1..], c);
      assert s[..1 + r] == [s[0]] + s[1..][..r];
      1 + r
  }

  /** The first occurrence is right after a part that has none. */
  lemma {:induction false} IndexOfAt(s: string, rest: string, c: char)
    requires c !in s && (rest == [] || rest[0] == c)
    ensures IndexOf(s + rest, c) == |s|
  {
    if s != [] {
      assert (s + rest)[1..] == s[1..] + rest;
      IndexOfAt(s[1..], rest, c);
    }
  }
}
