/**
 * The few JavaScript string operations the authentication middleware relies on:
 * `String.prototype.startsWith`, `String.prototype.split` with a one-character
 * separator, reading an array element by index (which yields `undefined` past
 * the end) and the truthiness of a possibly missing string.
 */
module JsString {
  import opened Wrappers

  /** `s.startsWith(prefix)`: a case-sensitive, character-by-character comparison. */
  function StartsWith(s: string, prefix: string): (b: bool)
    ensures b <==> prefix <= s
    decreases |prefix|
  {
    if prefix == [] then true
    else s != [] && s[0] == prefix[0] && StartsWith(s[1..], prefix[1..])
  }

  /** `parts.join(sep)`: the inverse of `Split`. */
  function Join(parts: seq<string>, sep: char): string
    requires |parts| >= 1
    decreases |parts|
  {
    if |parts| == 1 then parts[0] else parts[0] + [sep] + Join(parts[1..], sep)
  }

  /**
   * `s.split(sep)` for a one-character separator: the maximal separator-free
   * fields of `s`, in order. There is always at least one field (`"".split(' ')`
   * is `[""]`), two adjacent separators give an empty field between them, and
   * joining the fields back with the separator gives `s` again.
   */
  function Split(s: string, sep: char): (parts: seq<string>)
    ensures |parts| >= 1
    ensures forall i :: 0 <= i < |parts| ==> sep !in parts[i]
    ensures Join(parts, sep) == s
    decreases |s|
  {
    if s == [] then [""]
    else
      var rest := Split(s[1..], sep);
      if s[0] == sep then
        assert ([""] + rest)[1..] == rest;
        [""] + rest
      else
        var parts := [[s[0]] + rest[0]] + rest[1..];
        assert parts[1..] == rest[1..];
        assert s == [s[0]] + s[1..];
        parts
  }

  /** A string without the separator is a single field. */
  lemma {:induction false} SplitSingleField(p: string, sep: char)
    requires sep !in p
    ensures Split(p, sep) == [p]
    decreases |p|
  {
    if p != [] {
      assert sep !in p[1..] by {
        forall i | 0 <= i < |p[1..]| ensures p[1..][i] != sep { assert p[1..][i] == p[i + 1]; }
      }
      SplitSingleField(p[1..], sep);
      assert [p[0]] + p[1..] == p;
    }
  }

  /** A separator-free field followed by the separator is split off as the first field. */
  lemma {:induction false} SplitFirstField(p: string, sep: char, s: string)
    requires sep !in p
    ensures Split(p + [sep] + s, sep) == [p] + Split(s, sep)
    decreases |p|
  {
    var whole := p + [sep] + s;
    if p == [] {
      assert whole[0] == sep && whole[1..] == s;
    } else {
      assert sep !in p[1..] by {
        forall i | 0 <= i < |p[1..]| ensures p[1..][i] != sep { assert p[1..][i] == p[i + 1]; }
      }
      assert whole[0] == p[0] && whole[1..] == p[1..] + [sep] + s;
      SplitFirstField(p[1..], sep, s);
      assert [p[0]] + p[1..] == p;
    }
  }

  /** `Split` undoes `Join` on separator-free fields: the two are inverse. */
  lemma {:induction false} SplitJoin(parts: seq<string>, sep: char)
    requires |parts| >= 1
    requires forall i :: 0 <= i < |parts| ==> sep !in parts[i]
    ensures Split(Join(parts, sep), sep) == parts
    decreases |parts|
  {
    if |parts| == 1 {
      SplitSingleField(parts[0], sep);
    } else {
      SplitJoin(parts[1..], sep);
      SplitFirstField(parts[0], sep, Join(parts[1..], sep));
      assert [parts[0]] + parts[1..] == parts;
    }
  }

  /** `xs[i]` on a JavaScript array: `undefined` past the end. */
  function Element(xs: seq<string>, i: nat): Option<string> {
    if i < |xs| then Some(xs[i]) else None
  }

  /** Whether a possibly missing string is truthy: present and not empty. */
  predicate Truthy(s: Option<string>) {
    s.Some? && s.value != ""
  }
}
