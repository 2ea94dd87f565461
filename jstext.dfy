/**
 * The JavaScript string built-ins the bot and the middleware rely on:
 * `split` on one character, `split(/ +/)`, `trim`, `toLowerCase`,
 * `startsWith`, `endsWith` and `Array.prototype.join`.
 */
module JsText {
  import opened Wrappers

  /** A possibly-undefined string in a template literal or a `+` concatenation. */
  function Interpolate(v: Option<string>): (r: string)
    ensures v.Some? ==> r == v.value
    ensures v.None? ==> r == "undefined"
  {
    match v
    case Some(s) => s
    case None => "undefined"
  }

  predicate StartsWith(s: string, prefix: string) {
    |prefix| <= |s| && s[..|prefix|] == prefix
  }

  predicate EndsWith(s: string, suffix: string) {
    |suffix| <= |s| && s[|s| - |suffix|..] == suffix
  }

  /** `parts.join(sep)` */
  function Join(parts: seq<string>, sep: string): string {
    if |parts| == 0 then ""
    else if |parts| == 1 then parts[0]
    else parts[0] + sep + Join(parts[1..], sep)
  }

  /** `s.split(c)` for a one-character separator: the fields between occurrences of `c`. */
  function Split(s: string, c: char): (parts: seq<string>)
    ensures |parts| >= 1
  {
    if |s| == 0 then [""]
    else if s[0] == c then [""] + Split(s[1..], c)
    else
      var rest := Split(s[1..], c);
      [[s[0]] + rest[0]] + rest[1..]
  }

  /** No field of `s.split(c)` contains the separator. */
  lemma {:induction false} SplitFieldsFree(s: string, c: char)
    ensures forall k :: 0 <= k < |Split(s, c)| ==> c !in Split(s, c)[k]
  {
    if |s| > 0 {
      SplitFieldsFree(s[1..], c);
      if s[0] != c {
        var rest := Split(s[1..], c);
        assert c !in rest[0];
        assert Split(s, c)[0] == [s[0]] + rest[0];
      }
    }
  }

  /** Joining the fields of `s.split(c)` with `c` gives back `s`. */
  lemma {:induction false} SplitThenJoin(s: string, c: char)
    ensures Join(Split(s, c), [c]) == s
  {
    if |s| > 0 {
      var rest := Split(s[1..], c);
      SplitThenJoin(s[1..], c);
      if s[0] == c {
        assert Split(s, c) == [""] + rest;
        assert ([""] + rest)[1..] == rest;
      } else if |rest| == 1 {
        assert Split(s, c) == [[s[0]] + rest[0]];
      } else {
        var parts := Split(s, c);
        assert parts[1..] == rest[1..];
        assert Join(rest, [c]) == rest[0] + [c] + Join(rest[1..], [c]);
        assert Join(parts, [c]) == ([s[0]] + rest[0]) + [c] + Join(rest[1..], [c]);
        assert s == [s[0]] + s[1..];
      }
    }
  }

  /** A string without the separator splits into itself alone. */
  lemma {:induction false} SplitWithoutSeparator(s: string, c: char)
    requires c !in s
    ensures Split(s, c) == [s]
  {
    if |s| > 0 {
      SplitWithoutSeparator(s[1..], c);
      assert [s[0]] + s[1..] == s;
    }
  }

  /** A field free of the separator, then the separator, splits off as the first field. */
  lemma {:induction false} SplitFirstField(field: string, c: char, rest: string)
    requires c !in field
    ensures Split(field + [c] + rest, c) == [field] + Split(rest, c)
  {
    var s := field + [c] + rest;
    if field == [] {
      assert s[1..] == rest;
    } else {
      assert s[0] == field[0];
      assert s[1..] == field[1..] + [c] + rest;
      SplitFirstField(field[1..], c, rest);
      assert [field[0]] + field[1..] == field;
    }
  }

  /** Three separator-free fields joined by the separator split back into those three. */
  lemma ThreeFields(a: string, b: string, d: string, c: char)
    requires c !in a && c !in b && c !in d
    ensures Split(a + [c] + b + [c] + d, c) == [a, b, d]
  {
    var tail := b + [c] + d;
    calc {
      Split(a + [c] + b + [c] + d, c);
      == { assert a + [c] + b + [c] + d == a + [c] + tail; }
      Split(a + [c] + tail, c);
      == { SplitFirstField(a, c, tail); }
      [a] + Split(tail, c);
      == { SplitFirstField(b, c, d); }
      [a] + ([b] + Split(d, c));
      == { SplitWithoutSeparator(d, c); }
      [a] + ([b] + [d]);
      ==
      [a, b, d];
    }
  }

  /** Splitting fields joined with a separator none of them contains gives the fields back. */
  lemma {:induction false} JoinThenSplit(parts: seq<string>, c: char)
    requires |parts| >= 1
    requires forall k :: 0 <= k < |parts| ==> c !in parts[k]
    ensures Split(Join(parts, [c]), c) == parts
  {
    if |parts| == 1 {
      SplitWithoutSeparator(parts[0], c);
    } else {
      JoinThenSplit(parts[1..], c);
      SplitFirstField(parts[0], c, Join(parts[1..], [c]));
      assert [parts[0]] + parts[1..] == parts;
    }
  }

  /** The first position of `c` in `s`. */
  function IndexOf(s: string, c: char): (i: nat)
    requires c in s
    ensures i < |s| && s[i] == c
    ensures forall k :: 0 <= k < i ==> s[k] != c
  {
    if s[0] == c then 0 else 1 + IndexOf(s[1..], c)
  }

  /** `s` without its leading run of the character `c`. */
  function DropLeading(s: string, c: char): (r: string)
    ensures |r| <= |s| && r == s[|s| - |r|..]
    ensures forall k :: 0 <= k < |s| - |r| ==> s[k] == c
    ensures r == [] || r[0] != c
  {
    if |s| > 0 && s[0] == c then DropLeading(s[1..], c) else s
  }

  /** `s.split(/ +/)`: the fields between maximal runs of spaces. */
  function SplitOnSpaceRuns(s: string): (parts: seq<string>)
    ensures |parts| >= 1
    decreases |s|
  {
    if ' ' !in s then [s]
    else
      var i := IndexOf(s, ' ');
      [s[..i]] + SplitOnSpaceRuns(DropLeading(s[i..], ' '))
  }

  /** No field of `s.split(/ +/)` contains a space. */
  lemma {:induction false} SpaceRunFieldsFree(s: string)
    ensures forall k :: 0 <= k < |SplitOnSpaceRuns(s)| ==> ' ' !in SplitOnSpaceRuns(s)[k]
    decreases |s|
  {
    if ' ' in s {
      var i := IndexOf(s, ' ');
      SpaceRunFieldsFree(DropLeading(s[i..], ' '));
    }
  }

  /**
   * When `s` neither starts nor ends with a space (as after `trim`) and is not
   * empty, every field of `s.split(/ +/)` is non-empty.
   */
  lemma {:induction false} SpaceRunFieldsNonEmpty(s: string)
    requires s != [] && s[0] != ' ' && s[|s| - 1] != ' '
    ensures forall k :: 0 <= k < |SplitOnSpaceRuns(s)| ==> SplitOnSpaceRuns(s)[k] != []
    decreases |s|
  {
    if ' ' in s {
      var i := IndexOf(s, ' ');
      var rest := DropLeading(s[i..], ' ');
      assert s[i..][|s| - 1 - i] != ' ';
      assert rest[|rest| - 1] == s[|s| - 1];
      SpaceRunFieldsNonEmpty(rest);
    }
  }

  /** No two spaces in a row. */
  predicate SingleSpaced(s: string) {
    forall k :: 0 <= k < |s| - 1 ==> !DoubleSpaceAt(s, k)
  }

  predicate DoubleSpaceAt(s: string, k: nat)
    requires k < |s| - 1
  {
    s[k] == ' ' && s[k + 1] == ' '
  }

  /** A space not followed by another is a run of one. */
  lemma DropSingleSpace(s: string, i: nat)
    requires i < |s| && s[i] == ' ' && (i + 1 < |s| ==> s[i + 1] != ' ')
    ensures DropLeading(s[i..], ' ') == s[i + 1..]
  {
    assert s[i..][1..] == s[i + 1..];
  }

  /** A string is what precedes position `i`, the character there, and what follows. */
  lemma Reassemble(s: string, i: nat)
    requires i < |s|
    ensures s[..i] + [s[i]] + s[i + 1..] == s
  {
    assert s == s[..i] + s[i..];
    assert s[i..] == [s[i]] + s[i + 1..];
  }

  lemma JoinCons(head: string, tail: seq<string>, sep: string)
    requires |tail| >= 1
    ensures Join([head] + tail, sep) == head + sep + Join(tail, sep)
  {
    assert ([head] + tail)[1..] == tail;
  }

  lemma SplitAtSpace(s: string)
    requires ' ' in s
    ensures SplitOnSpaceRuns(s) == [s[..IndexOf(s, ' ')]] + SplitOnSpaceRuns(DropLeading(s[IndexOf(s, ' ')..], ' '))
  {
  }

  lemma RestSingleSpaced(s: string, i: nat)
    requires SingleSpaced(s) && i < |s|
    ensures SingleSpaced(s[i + 1..])
  {
    var rest := s[i + 1..];
    forall k | 0 <= k < |rest| - 1 ensures !DoubleSpaceAt(rest, k) {
      assert !DoubleSpaceAt(s, i + 1 + k);
    }
  }

  lemma {:induction false} SpaceRunsThenJoin(s: string)
    requires SingleSpaced(s)
    ensures Join(SplitOnSpaceRuns(s), " ") == s
    decreases |s|
  {
    if ' ' in s {
      var i := IndexOf(s, ' ');
      var rest := s[i + 1..];
      assert i + 1 < |s| ==> !DoubleSpaceAt(s, i);
      DropSingleSpace(s, i);
      RestSingleSpaced(s, i);
      SpaceRunsThenJoin(rest);
      var tail := SplitOnSpaceRuns(rest);
      calc {
        Join(SplitOnSpaceRuns(s), " ");
        == { SplitAtSpace(s); }
        Join([s[..i]] + tail, " ");
        == { JoinCons(s[..i], tail, " "); }
        s[..i] + " " + Join(tail, " ");
        ==
        s[..i] + [s[i]] + s[i + 1..];
        == { Reassemble(s, i); }
        s;
      }
    }
  }

  /** The characters `String.prototype.trim` removes: white space and line terminators. */
  predicate IsJsWhitespace(ch: char) {
    ch == '\t' || ch == '\n' || ch == '\U{B}' || ch == '\U{C}' || ch == '\r' || ch == ' '
    || ch == '\U{A0}' || ch == '\U{1680}' || ('\U{2000}' <= ch <= '\U{200A}')
    || ch == '\U{2028}' || ch == '\U{2029}' || ch == '\U{202F}' || ch == '\U{205F}'
    || ch == '\U{3000}' || ch == '\U{FEFF}'
  }

  function TrimStart(s: string): (r: string)
    ensures |r| <= |s| && r == s[|s| - |r|..]
    ensures forall k :: 0 <= k < |s| - |r| ==> IsJsWhitespace(s[k])
    ensures r == [] || !IsJsWhitespace(r[0])
  {
    if |s| > 0 && IsJsWhitespace(s[0]) then TrimStart(s[1..]) else s
  }

  function TrimEnd(s: string): (r: string)
    ensures |r| <= |s| && r == s[..|r|]
    ensures forall k :: |r| <= k < |s| ==> IsJsWhitespace(s[k])
    ensures r == [] || !IsJsWhitespace(r[|r| - 1])
  {
    if |s| > 0 && IsJsWhitespace(s[|s| - 1]) then TrimEnd(s[..|s| - 1]) else s
  }

  /** `s.trim()`: `s` without leading and trailing white space. */
  function Trim(s: string): (r: string)
    ensures r == [] || (!IsJsWhitespace(r[0]) && !IsJsWhitespace(r[|r| - 1]))
    ensures |r| <= |s|
  {
    TrimEnd(TrimStart(s))
  }

  function LowerChar(ch: char): char {
    if 'A' <= ch <= 'Z' then (ch as int + 32) as char else ch
  }

  /** `s.toLowerCase()`, restricted to the ASCII letters. */
  function ToLower(s: string): (r: string)
    ensures |r| == |s|
    ensures forall k :: 0 <= k < |s| ==> r[k] == LowerChar(s[k])
  {
    seq(|s|, k requires 0 <= k < |s| => LowerChar(s[k]))
  }
}
