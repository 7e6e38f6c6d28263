/**
 * The PHP string built-ins the hierarchical key namespace relies on:
 * `str_replace` with one search string, `explode` and `implode`.
 */
module PhpStrings {

  /**
   * `str_replace(search, rep, s)`: scans `s` left to right and replaces every
   * non-overlapping occurrence of `search` by `rep`; an empty `search` leaves
   * `s` as it is. For a one-character `search` that `rep` does not contain,
   * the result no longer contains that character, and a string without it is
   * returned unchanged.
   */
  function ReplaceAll(s: string, search: string, rep: string): (r: string)
    ensures |search| == 1 && search[0] !in rep ==> search[0] !in r
    ensures |search| == 1 && search[0] !in s ==> r == s
    decreases |s|
  {
    if |search| == 0 || |s| < |search| then s
    else if s[..|search|] == search then rep + ReplaceAll(s[|search|..], search, rep)
    else [s[0]] + ReplaceAll(s[1..], search, rep)
  }

  /** `implode(d, parts)`: the parts joined with `d` between neighbours. */
  function Implode(d: string, parts: seq<string>): string
  {
    if |parts| == 0 then ""
    else if |parts| == 1 then parts[0]
    else parts[0] + d + Implode(d, parts[1..])
  }

  /**
   * `explode(d, s)` for a non-empty delimiter: splits `s` at every
   * non-overlapping occurrence of `d`, found left to right. There is always at
   * least one part, joining the parts back gives `s`, and for a one-character
   * delimiter no part contains it.
   */
  function Explode(d: string, s: string): (parts: seq<string>)
    requires |d| > 0
    ensures |parts| >= 1
    ensures Implode(d, parts) == s
    ensures |d| == 1 ==> forall i :: 0 <= i < |parts| ==> d[0] !in parts[i]
    decreases |s|
  {
    if |s| < |d| then [s]
    else if s[..|d|] == d then
      var rest := Explode(d, s[|d|..]);
      assert s == d + s[|d|..];
      [""] + rest
    else
      var rest := Explode(d, s[1..]);
      var parts := [[s[0]] + rest[0]] + rest[1..];
      assert parts[1..] == rest[1..];
      assert s == [s[0]] + s[1..];
      parts
  }

  /** Joining one more part appends the delimiter and that part. */
  lemma {:induction false} ImplodeSnoc(d: string, parts: seq<string>, last: string)
    requires |parts| >= 1
    ensures Implode(d, parts + [last]) == Implode(d, parts) + d + last
    decreases |parts|
  {
    if |parts| > 1 {
      assert (parts + [last])[1..] == parts[1..] + [last];
      ImplodeSnoc(d, parts[1..], last);
    }
  }

  /** Joining two or more parts puts a delimiter into the result. */
  lemma ImplodeContainsDelimiter(d: string, parts: seq<string>)
    requires |d| == 1 && |parts| >= 2
    ensures d[0] in Implode(d, parts)
  {
    var s := Implode(d, parts);
    assert s[|parts[0]|] == d[0];
  }

  /** A string without the (one-character) delimiter explodes into itself. */
  lemma {:induction false} ExplodeWithoutDelimiter(d: string, s: string)
    requires |d| == 1 && d[0] !in s
    ensures Explode(d, s) == [s]
  {
    var parts := Explode(d, s);
    if |parts| >= 2 {
      ImplodeContainsDelimiter(d, parts);
      assert false;
    }
  }

  /**
   * Exploding `a + d + b`, where `b` holds no delimiter, gives the parts of
   * `a` followed by `b`: the delimiter added last is the last one split at.
   */
  lemma {:induction false} ExplodeAppend(d: string, a: string, b: string)
    requires |d| == 1 && d[0] !in b
    ensures Explode(d, a + d + b) == Explode(d, a) + [b]
    decreases |a|
  {
    var s := a + d + b;
    if |a| == 0 {
      assert s == d + b && s[..1] == d && s[1..] == b;
      ExplodeWithoutDelimiter(d, b);
    } else if a[0] == d[0] {
      assert s[..1] == d && a[..1] == d;
      assert s[1..] == a[1..] + d + b;
      ExplodeAppend(d, a[1..], b);
    } else {
      assert s[..1] != d && a[..1] != d;
      assert s[1..] == a[1..] + d + b;
      ExplodeAppend(d, a[1..], b);
    }
  }

  /**
   * What `explode` followed by removing the last part computes: the string is
   * the remaining parts joined, the delimiter, and the last part.
   */
  lemma SplitLast(d: string, s: string)
    requires |d| > 0
    ensures var parts := Explode(d, s);
            |parts| > 1 ==> s == Implode(d, parts[..|parts| - 1]) + d + parts[|parts| - 1]
  {
    var parts := Explode(d, s);
    if |parts| > 1 {
      assert parts == parts[..|parts| - 1] + [parts[|parts| - 1]];
      ImplodeSnoc(d, parts[..|parts| - 1], parts[|parts| - 1]);
    }
  }

  /**
   * For a one-character `search` and `rep`, `str_replace` maps every
   * character on its own: occurrences of `search` become `rep`, the rest stay.
   */
  lemma {:induction false} ReplaceSingleCharacter(s: string, search: string, rep: string)
    requires |search| == 1 && |rep| == 1
    ensures |ReplaceAll(s, search, rep)| == |s|
    ensures forall i :: 0 <= i < |s| ==>
              ReplaceAll(s, search, rep)[i] == if s[i] == search[0] then rep[0] else s[i]
    decreases |s|
  {
    if |s| > 0 {
      ReplaceSingleCharacter(s[1..], search, rep);
      assert s[..1] == search <==> s[0] == search[0];
    }
  }
}
