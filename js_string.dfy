/**
  The JavaScript string built-ins the core relies on (`startsWith`, `includes`,
  `toLowerCase`, `split(',')[1]`), over Dafny strings (`seq<char>`).
*/
module JsString {

  import opened Wrappers

  /** `s.startsWith(prefix)`. */
  predicate StartsWith(s: string, prefix: string)
  {
    |prefix| <= |s| && s[..|prefix|] == prefix
  }

  /** `needle` occurs in `hay` starting at index `i`. */
  ghost predicate OccursAt(hay: string, needle: string, i: int)
  {
    0 <= i && i + |needle| <= |hay| && hay[i..i + |needle|] == needle
  }

  /** `hay.includes(needle)`: true exactly when `needle` occurs somewhere in `hay`. */
  function Includes(hay: string, needle: string): (r: bool)
    ensures r <==> exists i :: OccursAt(hay, needle, i)
    decreases |hay|
  {
    if StartsWith(hay, needle) then
      assert OccursAt(hay, needle, 0);
      true
    else if hay == [] then
      false
    else
      var r := Includes(hay[1..], needle);
      assert r ==> exists i :: OccursAt(hay, needle, i) by {
        if r {
          var i :| OccursAt(hay[1..], needle, i);
          assert hay[1..][i..i + |needle|] == hay[i + 1..i + 1 + |needle|];
          assert OccursAt(hay, needle, i + 1);
        }
      }
      assert (exists i :: OccursAt(hay, needle, i)) ==> r by {
        if i :| OccursAt(hay, needle, i) {
          assert i != 0;
          assert hay[1..][i - 1..i - 1 + |needle|] == hay[i..i + |needle|];
          assert OccursAt(hay[1..], needle, i - 1);
        }
      }
      r
  }

  /** The empty string is included in every string (`"abc".includes("")`). */
  lemma IncludesEmpty(hay: string)
    ensures Includes(hay, "")
  {
    assert OccursAt(hay, "", 0);
  }

  /** ASCII lower-casing of one character. */
  function LowerChar(c: char): (d: char)
  {
    if 'A' <= c <= 'Z' then (c as int + 32) as char else c
  }

  /** `s.toLowerCase()`, restricted to ASCII letters. */
  function ToLower(s: string): (r: string)
    ensures |r| == |s|
    ensures forall i :: 0 <= i < |s| ==> r[i] == LowerChar(s[i])
  {
    if s == [] then [] else [LowerChar(s[0])] + ToLower(s[1..])
  }

  /** The characters of `s` before its first comma (all of `s` when it has none). */
  function UpToComma(s: string): (r: string)
    ensures StartsWith(s, r)
    ensures ',' !in r
    ensures |r| < |s| ==> s[|r|] == ','
  {
    if s == [] || s[0] == ',' then [] else [s[0]] + UpToComma(s[1..])
  }

  /**
    `s.split(',')[1]`: the field between the first comma and the next one (or the
    end), and `None` (JavaScript's `undefined`) when `s` has no comma.
  */
  function SecondField(s: string): (r: Option<string>)
    ensures r.None? <==> ',' !in s
    ensures r.Some? ==> ',' !in r.value
  {
    if s == [] then None
    else if s[0] == ',' then Some(UpToComma(s[1..]))
    else SecondField(s[1..])
  }

  /**
    Splitting inverts joining: for comma-free fields `a` and `b`, the second
    field of `a + "," + b` (followed by nothing or by further fields) is `b`.
  */
  lemma {:induction false} SecondFieldOfJoin(a: string, b: string, rest: string)
    requires ',' !in a && ',' !in b
    requires rest == [] || rest[0] == ','
    ensures SecondField(a + [','] + b + rest) == Some(b)
  {
    if a == [] {
      assert a + [','] + b + rest == [','] + (b + rest);
      UpToCommaOfField(b, rest);
    } else {
      assert (a + [','] + b + rest)[1..] == a[1..] + [','] + b + rest;
      SecondFieldOfJoin(a[1..], b, rest);
    }
  }

  /** `UpToComma` stops exactly at the end of a comma-free field. */
  lemma {:induction false} UpToCommaOfField(b: string, rest: string)
    requires ',' !in b
    requires rest == [] || rest[0] == ','
    ensures UpToComma(b + rest) == b
  {
    if b != [] {
      assert (b + rest)[1..] == b[1..] + rest;
      UpToCommaOfField(b[1..], rest);
    }
  }
}
