/**
 * The few JavaScript string operations the components rely on, with their
 * JavaScript meaning: truthiness of an optional string, `a || b`,
 * `startsWith`, `includes`, `substring(0, n)` and `Array.prototype.join`.
 */
module JsText {
  import opened Wrappers

  /** Truthiness of an optional string field: defined and not the empty string. */
  predicate Truthy(s: Option<string>) {
    s.Some? && s.value != ""
  }

  /** `a || fallback` for an optional string `a`. */
  function OrElse(a: Option<string>, fallback: string): string {
    if Truthy(a) then a.value else fallback
  }

  /** `s.startsWith(p)`. */
  predicate StartsWith(s: string, p: string) {
    |p| <= |s| && s[..|p|] == p
  }

  /** `s.substring(0, n)`: the first `n` characters, or all of `s` when it is shorter. */
  function Prefix(s: string, n: nat): (r: string)
    ensures |r| == if |s| <= n then |s| else n
    ensures r <= s
  {
    if |s| <= n then s else s[..n]
  }

  /** `sub` occurs in `s` starting at index `i`. */
  predicate OccursAt(s: string, sub: string, i: nat) {
    i + |sub| <= |s| && s[i..i + |sub|] == sub
  }

  /** `s.includes(sub)`, scanning start positions from the left. */
  function Includes(s: string, sub: string): (r: bool)
    ensures r <==> exists i: nat :: OccursAt(s, sub, i)
    decreases |s|
  {
    if StartsWith(s, sub) then
      assert OccursAt(s, sub, 0);
      true
    else if |s| <= |sub| then
      assert forall i: nat :: OccursAt(s, sub, i) ==> i == 0;
      false
    else
      var r := Includes(s[1..], sub);
      assert forall j: nat :: OccursAt(s[1..], sub, j) <==> OccursAt(s, sub, j + 1) by {
        forall j: nat ensures OccursAt(s[1..], sub, j) <==> OccursAt(s, sub, j + 1) {
          if j + 1 + |sub| <= |s| {
            assert s[1..][j..j + |sub|] == s[j + 1..j + 1 + |sub|];
          }
        }
      }
      assert r ==> exists i: nat :: OccursAt(s, sub, i) by {
        if r {
          var j: nat :| OccursAt(s[1..], sub, j);
          assert OccursAt(s, sub, j + 1);
        }
      }
      assert (exists i: nat :: OccursAt(s, sub, i)) ==> r by {
        if i: nat :| OccursAt(s, sub, i) {
          assert i != 0;
          assert OccursAt(s[1..], sub, i - 1);
        }
      }
      r
  }

  /** `parts.join(sep)`. */
  function Join(parts: seq<string>, sep: string): (r: string)
    ensures |parts| == 1 ==> r == parts[0]
    ensures sep != "" ==> (r == "" <==> |parts| == 0 || (|parts| == 1 && parts[0] == ""))
  {
    if |parts| == 0 then ""
    else if |parts| == 1 then parts[0]
    else parts[0] + sep + Join(parts[1..], sep)
  }
}
