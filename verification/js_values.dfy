/**
 * The JavaScript values and string operations the core relies on:
 * truthiness, property access on parsed JSON, `String.prototype.includes`,
 * `String.prototype.substring` and `String.prototype.replace` with a
 * one-character string pattern.
 */
module JsValues {

  /**
   * A value as it reaches this layer: response payloads, identifiers and
   * query parameters. `undefined` and `null` are both `Null`; numbers are
   * the integral ones the backend sends.
   */
  datatype Json =
    | Null
    | Bool(b: bool)
    | Num(n: int)
    | Str(s: string)
    | Arr(items: seq<Json>)
    | Obj(fields: map<string, Json>)

  /** JavaScript truthiness: `null`, `false`, `0` and `""` are falsy. */
  predicate Truthy(v: Json) {
    match v
    case Null => false
    case Bool(b) => b
    case Num(n) => n != 0
    case Str(s) => s != ""
    case Arr(_) => true
    case Obj(_) => true
  }

  /** Property access `v.key`: only an object that has the key yields a value. */
  function Field(v: Json, key: string): Json {
    if v.Obj? && key in v.fields then v.fields[key] else Null
  }

  /** `sub` occurs in `s` starting at position `i`. */
  predicate OccursAt(s: string, sub: string, i: int) {
    0 <= i && i + |sub| <= |s| && s[i..i + |sub|] == sub
  }

  /** `s.includes(sub)`: compare at the start, else search the rest. */
  function Includes(s: string, sub: string): bool
    decreases |s|
  {
    if |sub| > |s| then false
    else if s[..|sub|] == sub then true
    else Includes(s[1..], sub)
  }

  /** `includes` answers whether `sub` occurs anywhere in `s`. */
  lemma {:induction false} IncludesSpec(s: string, sub: string)
    ensures Includes(s, sub) <==> exists i :: OccursAt(s, sub, i)
    decreases |s|
  {
    if |sub| > |s| {
    } else if s[..|sub|] == sub {
      assert OccursAt(s, sub, 0);
    } else {
      var tail := s[1..];
      IncludesSpec(tail, sub);
      if Includes(tail, sub) {
        var j :| OccursAt(tail, sub, j);
        assert tail[j..j + |sub|] == s[j + 1..j + 1 + |sub|];
        assert OccursAt(s, sub, j + 1);
      } else {
        assert !OccursAt(s, sub, 0);
        forall i | 1 <= i && OccursAt(s, sub, i) ensures OccursAt(tail, sub, i - 1) {
          assert tail[i - 1..i - 1 + |sub|] == s[i..i + |sub|];
        }
      }
    }
  }

  /** A string includes itself. */
  lemma IncludesItself(s: string)
    ensures Includes(s, s)
  {
  }

  /** A pattern longer than the string cannot occur in it. */
  lemma IncludesTooLong(s: string, sub: string)
    requires |sub| > |s|
    ensures !Includes(s, sub)
  {
  }

  /** A pattern whose first character never appears in `s` does not occur in it. */
  lemma IncludesMissingFirst(s: string, sub: string)
    requires sub != [] && sub[0] !in s
    ensures !Includes(s, sub)
  {
    IncludesSpec(s, sub);
  }

  function Min(a: int, b: int): int { if a <= b then a else b }

  function Max(a: int, b: int): int { if a <= b then b else a }

  /**
   * `s.substring(start, end)`: both bounds are clamped to `0..|s|` and
   * swapped when they come in the wrong order.
   */
  function Substring(s: string, start: int, end: int): string {
    var a := Min(Max(start, 0), |s|);
    var b := Min(Max(end, 0), |s|);
    s[Min(a, b)..Max(a, b)]
  }

  /** With bounds in order, `substring` is the slice between them, cut off at the end of the string. */
  lemma SubstringClamps(s: string, start: int, end: int)
    requires 0 <= start <= end
    ensures Substring(s, start, end) == s[Min(start, |s|)..Min(end, |s|)]
  {
  }

  /** `s.indexOf(c)`: the first position of `c`, or -1. */
  function IndexOf(s: string, c: char): (i: int)
    ensures -1 <= i < |s|
  {
    if s == [] then -1
    else if s[0] == c then 0
    else
      var j := IndexOf(s[1..], c);
      if j == -1 then -1 else j + 1
  }

  /** `indexOf` finds the first occurrence, and -1 exactly when there is none. */
  lemma {:induction false} IndexOfSpec(s: string, c: char)
    ensures var i := IndexOf(s, c);
      && -1 <= i < |s|
      && (i == -1 <==> c !in s)
      && (0 <= i ==> s[i] == c && c !in s[..i])
  {
    if s != [] && s[0] != c {
      IndexOfSpec(s[1..], c);
      assert s == [s[0]] + s[1..];
      var j := IndexOf(s[1..], c);
      if j != -1 {
        assert s[..j + 1] == [s[0]] + s[1..][..j];
      }
    }
  }

  /** `s.replace(c, '')` for a one-character pattern. */
  function ReplaceFirst(s: string, c: char): string {
    if s == [] then s
    else if s[0] == c then s[1..]
    else [s[0]] + ReplaceFirst(s[1..], c)
  }

  /** `replace` with a string pattern removes only the first occurrence of `c`, and nothing when there is none. */
  lemma {:induction false} ReplaceFirstSpec(s: string, c: char)
    ensures var i := IndexOf(s, c);
      ReplaceFirst(s, c) == if i < 0 then s else s[..i] + s[i + 1..]
  {
    if s != [] && s[0] != c {
      ReplaceFirstSpec(s[1..], c);
      IndexOfSpec(s[1..], c);
      assert s == [s[0]] + s[1..];
      var j := IndexOf(s[1..], c);
      if j >= 0 {
        assert s[..j + 1] == [s[0]] + s[1..][..j];
        assert s[j + 2..] == s[1..][j + 1..];
      }
    }
  }
}
