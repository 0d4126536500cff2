/** The handful of Python string operations the tool relies on: substring
    tests, `str.endswith`, `str.split()` with no separator, `int(word)` and
    `str(n)`. Only ASCII whitespace and ASCII digits are considered. */
module Text {
  import opened Common

  predicate IsSpace(c: char) {
    c == ' ' || c == '\t' || c == '\n' || c == '\r' || c == '\U{B}' || c == '\U{C}' || '\U{1C}' <= c <= '\U{1F}'
  }

  predicate IsDigit(c: char) {
    '0' <= c <= '9'
  }

  predicate StartsWith(s: string, prefix: string) {
    |prefix| <= |s| && s[..|prefix|] == prefix
  }

  /** `pattern in s` */
  predicate Contains(s: string, pattern: string)
    decreases |s|
  {
    StartsWith(s, pattern) || (s != [] && Contains(s[1..], pattern))
  }

  /** `s.endswith(suffix)` */
  predicate EndsWith(s: string, suffix: string) {
    |suffix| <= |s| && s[|s| - |suffix|..] == suffix
  }

  /** Length of the run of whitespace at the start of `s`. */
  function SpaceRun(s: string): (n: nat)
    ensures n <= |s|
    ensures n < |s| ==> !IsSpace(s[n])
  {
    if s == [] || !IsSpace(s[0]) then 0 else 1 + SpaceRun(s[1..])
  }

  /** Length of the run of non-whitespace at the start of `s`. */
  function WordRun(s: string): (n: nat)
    ensures n <= |s|
    ensures n < |s| ==> IsSpace(s[n])
  {
    if s == [] || IsSpace(s[0]) then 0 else 1 + WordRun(s[1..])
  }

  /** The runs hold what their names say. */
  lemma {:induction false} RunsClassify(s: string)
    ensures forall i | 0 <= i < SpaceRun(s) :: IsSpace(s[i])
    ensures forall i | 0 <= i < WordRun(s) :: !IsSpace(s[i])
    decreases |s|
  {
    if s != [] {
      RunsClassify(s[1..]);
      assert forall i | 1 <= i < |s| :: s[i] == s[1..][i - 1];
    }
  }

  /** A word of `str.split()`: non-empty and free of whitespace. */
  predicate IsWord(w: string) {
    w != [] && forall i | 0 <= i < |w| :: !IsSpace(w[i])
  }

  /** `s.split()`: the maximal runs of non-whitespace, in order. */
  function Words(s: string): seq<string>
    decreases |s|
  {
    var start := SpaceRun(s);
    if start == |s| then []
    else
      var stop := start + WordRun(s[start..]);
      [s[start..stop]] + Words(s[stop..])
  }

  /** A word followed by nothing or by whitespace is one whole run. */
  lemma {:induction false} WordRunOfWord(w: string, rest: string)
    requires forall i | 0 <= i < |w| :: !IsSpace(w[i])
    requires rest == [] || IsSpace(rest[0])
    ensures WordRun(w + rest) == |w|
    decreases |w|
  {
    if w != [] {
      assert (w + rest)[1..] == w[1..] + rest;
      WordRunOfWord(w[1..], rest);
    }
  }

  /** Every word of a split is non-empty and free of whitespace. */
  lemma {:induction false} WordsAreWords(s: string)
    ensures forall k | 0 <= k < |Words(s)| :: IsWord(Words(s)[k])
    decreases |s|
  {
    var start := SpaceRun(s);
    if start < |s| {
      var stop := start + WordRun(s[start..]);
      var word := s[start..stop];
      assert IsWord(word) by {
        RunsClassify(s[start..]);
        assert word == s[start..][..stop - start];
      }
      var rest := Words(s[stop..]);
      WordsFirst(s, start, stop);
      WordsAreWords(s[stop..]);
      WordsCons(word, rest);
    }
  }

  /** The words after the first are the rest's. */
  lemma {:induction false} WordsCons(word: string, rest: seq<string>)
    requires IsWord(word) && forall k | 0 <= k < |rest| :: IsWord(rest[k])
    ensures forall k | 0 <= k < |[word] + rest| :: IsWord(([word] + rest)[k])
  {
    assert forall k | 1 <= k < |[word] + rest| :: ([word] + rest)[k] == rest[k - 1];
  }

  /** The first step of `Words` on a string with a word in it. */
  lemma {:induction false} WordsFirst(s: string, start: nat, stop: nat)
    requires start == SpaceRun(s) && start < |s|
    requires stop == start + WordRun(s[start..])
    ensures Words(s) == [s[start..stop]] + Words(s[stop..])
  {
  }

  /** Slicing after a leading character is slicing the rest. */
  lemma {:induction false} SliceAfterHead(c: char, t: string, i: nat, j: nat)
    requires i <= j <= |t|
    ensures ([c] + t)[i + 1..j + 1] == t[i..j]
    ensures ([c] + t)[i + 1..] == t[i..]
  {
  }

  /** Leading whitespace does not change the words. */
  lemma {:induction false} WordsSkipSpace(c: char, t: string)
    requires IsSpace(c)
    ensures Words([c] + t) == Words(t)
  {
    var u := [c] + t;
    assert SpaceRun(u) == SpaceRun(t) + 1 by {
      assert u[1..] == t;
    }
    var start := SpaceRun(t);
    if start < |t| {
      var stop := start + WordRun(t[start..]);
      SliceAfterHead(c, t, start, stop);
      SliceAfterHead(c, t, stop, stop);
      WordsFirst(u, start + 1, stop + 1);
      WordsFirst(t, start, stop);
    } else {
      assert SpaceRun(u) == |u|;
    }
  }

  /** A word followed by nothing or by whitespace is the first word. */
  lemma {:induction false} WordsOfWordThen(w: string, rest: string)
    requires IsWord(w)
    requires rest == [] || IsSpace(rest[0])
    ensures Words(w + rest) == [w] + Words(rest)
  {
    var s := w + rest;
    assert s[0] == w[0];
    assert SpaceRun(s) == 0;
    WordRunOfWord(w, rest);
    assert s[0..|w|] == w;
    assert s[|w|..] == rest;
  }

  /** Splitting words joined by whitespace gives the words back. */
  lemma {:induction false} WordsOfJoin(words: seq<string>, sep: char)
    requires |words| >= 1 && IsSpace(sep)
    requires forall k | 0 <= k < |words| :: IsWord(words[k])
    ensures Words(JoinOn(words, sep)) == words
    decreases |words|
  {
    var head := words[0];
    if |words| == 1 {
      WordsOfWordThen(head, []);
      assert head + [] == head;
    } else {
      var tail := words[1..];
      assert forall k | 0 <= k < |tail| :: tail[k] == words[k + 1];
      WordsOfJoin(tail, sep);
      WordsOfJoinCons(head, tail, sep);
      assert words == [head] + tail;
    }
  }

  /** One more word in front of a join is one more word in front of its split. */
  lemma {:induction false} WordsOfJoinCons(head: string, tail: seq<string>, sep: char)
    requires IsWord(head) && IsSpace(sep) && |tail| >= 1
    requires Words(JoinOn(tail, sep)) == tail
    ensures Words(JoinOn([head] + tail, sep)) == [head] + tail
  {
    var words := [head] + tail;
    var rest := JoinOn(tail, sep);
    assert words[1..] == tail;
    assert JoinOn(words, sep) == head + ([sep] + rest);
    WordsSkipSpace(sep, rest);
    WordsOfWordThen(head, [sep] + rest);
  }

  function DigitValue(c: char): nat
    requires IsDigit(c)
  {
    c as nat - '0' as nat
  }

  predicate AllDigits(s: string) {
    forall i | 0 <= i < |s| :: IsDigit(s[i])
  }

  function DigitsValue(s: string): nat
    requires AllDigits(s)
  {
    if s == [] then 0 else 10 * DigitsValue(s[..|s| - 1]) + DigitValue(s[|s| - 1])
  }

  /** `int(word)` on a word of `str.split()`: an optional sign followed by
      at least one decimal digit; anything else raises (here: None). */
  function ParseInt(word: string): Option<int> {
    if word != [] && (word[0] == '+' || word[0] == '-') then
      var digits := word[1..];
      if digits != [] && AllDigits(digits) then
        var magnitude: int := DigitsValue(digits);
        Some(if word[0] == '-' then -magnitude else magnitude)
      else None
    else if word != [] && AllDigits(word) then Some(DigitsValue(word))
    else None
  }

  function DigitChar(d: nat): (c: char)
    requires d < 10
    ensures IsDigit(c) && DigitValue(c) == d
  {
    ('0' as nat + d) as char
  }

  function NatToString(n: nat): (s: string)
    ensures s != [] && AllDigits(s)
  {
    if n < 10 then [DigitChar(n)] else NatToString(n / 10) + [DigitChar(n % 10)]
  }

  /** `str(n)` for an integer. */
  function IntToString(n: int): string {
    if n < 0 then "-" + NatToString(-n) else NatToString(n)
  }

  /** The decimal digits of `n` read back as `n`. */
  lemma {:induction false} DigitsValueOfNatToString(n: nat)
    ensures DigitsValue(NatToString(n)) == n
  {
    if n >= 10 {
      var s := NatToString(n);
      assert s[..|s| - 1] == NatToString(n / 10);
      DigitsValueOfNatToString(n / 10);
    }
  }

  /** `int(str(n)) == n`. */
  lemma {:induction false} ParseIntToString(n: int)
    ensures ParseInt(IntToString(n)) == Some(n)
  {
    if n < 0 {
      var word := IntToString(n);
      assert word[1..] == NatToString(-n);
      DigitsValueOfNatToString(-n);
    } else {
      DigitsValueOfNatToString(n);
    }
  }
  /** The index of the first `sep` in `s`, or `|s|` when there is none. */
  function FieldRun(s: string, sep: char): (n: nat)
    ensures n <= |s|
    ensures forall i | 0 <= i < n :: s[i] != sep
    ensures n < |s| ==> s[n] == sep
  {
    if s == [] || s[0] == sep then 0 else 1 + FieldRun(s[1..], sep)
  }

  /** `s.split(sep)` with an explicit one-character separator: every
      separator ends a field, so empty fields are kept and there is always
      one more field than separators. */
  function SplitOn(s: string, sep: char): (fields: seq<string>)
    ensures |fields| >= 1
    ensures forall k | 0 <= k < |fields| :: sep !in fields[k]
    decreases |s|
  {
    var n := FieldRun(s, sep);
    if n == |s| then [s] else [s[..n]] + SplitOn(s[n + 1..], sep)
  }

  /** `sep.join(fields)` */
  function JoinOn(fields: seq<string>, sep: char): string
    requires |fields| >= 1
  {
    if |fields| == 1 then fields[0] else fields[0] + [sep] + JoinOn(fields[1..], sep)
  }

  /** Joining the fields back with the separator gives the original text. */
  lemma {:induction false} JoinSplitOn(s: string, sep: char)
    ensures JoinOn(SplitOn(s, sep), sep) == s
    decreases |s|
  {
    var n := FieldRun(s, sep);
    if n < |s| {
      var rest := s[n + 1..];
      var fields := SplitOn(s, sep);
      assert fields == [s[..n]] + SplitOn(rest, sep);
      assert fields[1..] == SplitOn(rest, sep);
      JoinSplitOn(rest, sep);
      assert JoinOn(fields, sep) == s[..n] + [sep] + rest;
      assert s == s[..n] + [sep] + rest;
    }
  }

  /** Fields free of the separator are recovered from their join. */
  lemma {:induction false} SplitJoinOn(fields: seq<string>, sep: char)
    requires |fields| >= 1
    requires forall k | 0 <= k < |fields| :: sep !in fields[k]
    ensures SplitOn(JoinOn(fields, sep), sep) == fields
  {
    var head := fields[0];
    if |fields| == 1 {
      FieldRunOfField(head, [], sep);
      assert head + [] == head;
    } else {
      var rest := JoinOn(fields[1..], sep);
      var s := head + ([sep] + rest);
      assert JoinOn(fields, sep) == s;
      FieldRunOfField(head, [sep] + rest, sep);
      assert s[|head| + 1..] == rest;
      SplitJoinOn(fields[1..], sep);
      assert SplitOn(s, sep) == [head] + fields[1..];
      assert fields == [head] + fields[1..];
    }
  }

  /** A separator-free field followed by nothing or by a separator ends
      exactly where it ends. */
  lemma {:induction false} FieldRunOfField(field: string, rest: string, sep: char)
    requires sep !in field
    requires rest == [] || rest[0] == sep
    ensures FieldRun(field + rest, sep) == |field|
    ensures (field + rest)[..|field|] == field
    decreases |field|
  {
    if field != [] {
      FieldRunOfField(field[1..], rest, sep);
      assert (field + rest)[1..] == field[1..] + rest;
    }
  }
}
