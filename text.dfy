/**
 * String helpers with the semantics of the JavaScript built-ins the update engine relies on:
 * `trim`, `startsWith`, `split` on one character, `new Set` de-duplication (first occurrence
 * kept, insertion order preserved), `filter`, and `.length` counted in UTF-16 code units.
 */
module Text {
  import opened Wrappers

  /** The ECMAScript WhiteSpace and LineTerminator code points: what `trim` removes and `\s` matches. */
  predicate IsSpace(c: char) {
    || c == '\t' || c == '\n' || c == '\U{000B}' || c == '\U{000C}' || c == '\r' || c == ' '
    || c == '\U{00A0}' || c == '\U{1680}' || ('\U{2000}' <= c <= '\U{200A}')
    || c == '\U{2028}' || c == '\U{2029}' || c == '\U{202F}' || c == '\U{205F}'
    || c == '\U{3000}' || c == '\U{FEFF}'
  }

  /** The ECMAScript LineTerminator code points: what a regular-expression `.` never matches. */
  predicate IsLineTerminator(c: char) {
    c == '\n' || c == '\r' || c == '\U{2028}' || c == '\U{2029}'
  }

  predicate StartsWith(s: string, prefix: string) {
    |prefix| <= |s| && s[..|prefix|] == prefix
  }

  /** A string starts with whatever it was built from first. */
  lemma StartsWithConcat(prefix: string, rest: string)
    ensures StartsWith(prefix + rest, prefix)
  {
    assert (prefix + rest)[..|prefix|] == prefix;
  }

  /** `p` is an initial segment of `s`. */
  predicate IsPrefix<T(==)>(p: seq<T>, s: seq<T>) {
    |p| <= |s| && p == s[..|p|]
  }

  predicate EndsWith(s: string, suffix: string) {
    |suffix| <= |s| && s[|s| - |suffix|..] == suffix
  }

  /** `s.trimStart()`: the suffix of `s` left after its leading white space. */
  function TrimStart(s: string): (r: string)
    ensures |r| <= |s| && r == s[|s| - |r|..]
    ensures r == [] || !IsSpace(r[0])
  {
    if s != [] && IsSpace(s[0]) then TrimStart(s[1..]) else s
  }

  /** `s.trimEnd()`: the prefix of `s` left after its trailing white space. */
  function TrimEnd(s: string): (r: string)
    ensures |r| <= |s| && r == s[..|r|]
    ensures r == [] || !IsSpace(r[|r| - 1])
  {
    if s != [] && IsSpace(s[|s| - 1]) then TrimEnd(s[..|s| - 1]) else s
  }

  /** Everything `trimStart` drops is white space. */
  lemma {:induction false} TrimStartDropsSpace(s: string)
    ensures forall i :: 0 <= i < |s| - |TrimStart(s)| ==> IsSpace(s[i])
    decreases |s|
  {
    if s != [] && IsSpace(s[0]) {
      TrimStartDropsSpace(s[1..]);
      forall i | 1 <= i < |s| - |TrimStart(s)|
        ensures IsSpace(s[i])
      {
        assert s[i] == s[1..][i - 1];
      }
    }
  }

  /** Everything `trimEnd` drops is white space. */
  lemma {:induction false} TrimEndDropsSpace(s: string)
    ensures forall i :: |TrimEnd(s)| <= i < |s| ==> IsSpace(s[i])
    decreases |s|
  {
    if s != [] && IsSpace(s[|s| - 1]) {
      var init := s[..|s| - 1];
      TrimEndDropsSpace(init);
      forall i | |TrimEnd(s)| <= i < |s| - 1
        ensures IsSpace(s[i])
      {
        assert s[i] == init[i];
      }
    }
  }

  /** `s.trim()`. */
  function Trim(s: string): (r: string)
    ensures r == [] || (!IsSpace(r[0]) && !IsSpace(r[|r| - 1]))
    ensures |r| <= |s|
  {
    TrimEnd(TrimStart(s))
  }

  /** A string trims to nothing exactly when it is all white space. */
  lemma TrimEmpty(s: string)
    ensures Trim(s) == [] <==> forall i :: 0 <= i < |s| ==> IsSpace(s[i])
  {
    TrimStartDropsSpace(s);
    var t := TrimStart(s);
    TrimEndDropsSpace(t);
    if Trim(s) == [] {
      // the trimmed start cannot begin with a space, yet trims to nothing at its end
      assert t == [];
    }
  }

  /** A string that neither starts nor ends with white space is its own trim. */
  lemma TrimUnchanged(s: string)
    requires s == [] || (!IsSpace(s[0]) && !IsSpace(s[|s| - 1]))
    ensures Trim(s) == s
  {
  }

  /** `s.replace(/\.git$/, '')`: drop one trailing `.git`. */
  function StripGitSuffix(s: string): (r: string)
    ensures EndsWith(s, ".git") ==> r + ".git" == s
    ensures !EndsWith(s, ".git") ==> r == s
  {
    if EndsWith(s, ".git") then s[..|s| - 4] else s
  }

  /** A name with `.git` appended loses exactly that suffix. */
  lemma StripGitSuffixOf(name: string)
    ensures StripGitSuffix(name + ".git") == name
  {
    var s := name + ".git";
    assert s[|s| - 4..] == ".git";
    assert s[..|s| - 4] == name;
  }

  /** The position of the first `c` in `s`. */
  function IndexOf(s: string, c: char): (i: nat)
    requires c in s
    ensures i < |s| && s[i] == c && c !in s[..i]
  {
    if s[0] == c then 0 else 1 + IndexOf(s[1..], c)
  }

  /** A position holding `c` with no `c` before it is the first occurrence. */
  lemma IndexOfAt(s: string, c: char, i: nat)
    requires i < |s| && s[i] == c && c !in s[..i]
    ensures c in s && IndexOf(s, c) == i
  {
    assert s[i] in s;
    var j := IndexOf(s, c);
    assert forall k :: 0 <= k < i ==> s[..i][k] == s[k];
    assert forall k :: 0 <= k < j ==> s[..j][k] == s[k];
  }

  /** `parts.join(sep)` for a one-character separator. */
  function Join(parts: seq<string>, sep: char): string {
    if |parts| == 0 then ""
    else if |parts| == 1 then parts[0]
    else parts[0] + [sep] + Join(parts[1..], sep)
  }

  /** `s.split(sep)` for a one-character separator: never empty, and the pieces are free of `sep`. */
  function Split(s: string, sep: char): (r: seq<string>)
    ensures |r| >= 1
    decreases |s|
  {
    if sep !in s then [s]
    else
      var i := IndexOf(s, sep);
      [s[..i]] + Split(s[i + 1..], sep)
  }

  /** The pieces of a split are free of the separator. */
  lemma {:induction false} SplitPiecesFree(s: string, sep: char)
    ensures forall k :: 0 <= k < |Split(s, sep)| ==> sep !in Split(s, sep)[k]
    decreases |s|
  {
    if sep in s {
      var i := IndexOf(s, sep);
      SplitPiecesFree(s[i + 1..], sep);
      var r := Split(s, sep);
      forall k | 1 <= k < |r|
        ensures sep !in r[k]
      {
        assert r[k] == Split(s[i + 1..], sep)[k - 1];
      }
    }
  }

  /** Joining the pieces of a split with the separator gives the string back. */
  lemma {:induction false} JoinSplit(s: string, sep: char)
    ensures Join(Split(s, sep), sep) == s
    decreases |s|
  {
    if sep in s {
      var i := IndexOf(s, sep);
      JoinSplit(s[i + 1..], sep);
      SplitAround(s, i);
    }
  }

  /** A sequence is the part before position `i`, the element there, and the part after. */
  lemma SplitAround<T>(s: seq<T>, i: nat)
    requires i < |s|
    ensures s == s[..i] + [s[i]] + s[i + 1..]
  {
    assert s[..i] + [s[i]] == s[..i + 1];
  }

  /** Splitting a join of separator-free pieces gives the pieces back. */
  lemma {:induction false} SplitJoin(parts: seq<string>, sep: char)
    requires |parts| >= 1
    requires forall k :: 0 <= k < |parts| ==> sep !in parts[k]
    ensures Split(Join(parts, sep), sep) == parts
  {
    if |parts| > 1 {
      var s := Join(parts, sep);
      var rest := Join(parts[1..], sep);
      assert s == parts[0] + [sep] + rest;
      assert IndexOf(s, sep) == |parts[0]| by {
        assert s[|parts[0]|] == sep;
        assert s[..|parts[0]|] == parts[0];
      }
      assert s[..|parts[0]|] == parts[0];
      assert s[|parts[0]| + 1..] == rest;
      SplitJoin(parts[1..], sep);
    }
  }

  /** Two separator-free pieces joined by the separator split back into those two pieces. */
  lemma SplitAtSeparator(a: string, b: string, sep: char)
    requires sep !in a && sep !in b
    ensures Split(a + [sep] + b, sep) == [a, b]
  {
    var s := a + [sep] + b;
    assert s[..|a|] == a;
    IndexOfAt(s, sep, |a|);
    assert s[|a| + 1..] == b;
  }

  predicate NoDup<T(==)>(s: seq<T>) {
    forall i, j :: 0 <= i < j < |s| ==> s[i] != s[j]
  }

  /** A list without repeated elements has as many distinct elements as entries. */
  lemma {:induction false} NoDupCard<T(!new)>(s: seq<T>)
    requires NoDup(s)
    ensures |set x | x in s| == |s|
  {
    if s != [] {
      var rest := s[1..];
      assert NoDup(rest);
      NoDupCard(rest);
      assert (set x | x in s) == {s[0]} + (set x | x in rest);
      assert s[0] !in (set x | x in rest);
    }
  }

  /** `Array.from(new Set(s))`: the distinct elements of `s`, each at its first occurrence, in order. */
  function Dedupe<T(==,!new)>(s: seq<T>): (r: seq<T>)
    ensures |r| <= |s|
  {
    if s == [] then []
    else
      var d := Dedupe(s[..|s| - 1]);
      if s[|s| - 1] in d then d else d + [s[|s| - 1]]
  }

  /** De-duplication keeps exactly the elements of its input, each once. */
  lemma {:induction false} DedupeKeepsElements<T(!new)>(s: seq<T>)
    ensures forall x :: x in Dedupe(s) <==> x in s
    ensures NoDup(Dedupe(s))
  {
    if s != [] {
      var init := s[..|s| - 1];
      DedupeKeepsElements(init);
      assert s == init + [s[|s| - 1]];
    }
  }

  /** A list without repeated elements is left as it is by de-duplication. */
  lemma {:induction false} DedupeNoDup<T(!new)>(s: seq<T>)
    requires NoDup(s)
    ensures Dedupe(s) == s
  {
    if s != [] {
      var init := s[..|s| - 1];
      assert NoDup(init);
      DedupeNoDup(init);
      assert s[|s| - 1] !in init;
      assert init + [s[|s| - 1]] == s;
    }
  }

  /** A line with something other than white space on it. */
  predicate NotBlank(line: string) {
    Trim(line) != ""
  }

  /** A non-empty line without surrounding white space: what a trimmed, non-blank line looks like. */
  predicate IsCleanLine(x: string) {
    x != [] && !IsSpace(x[0]) && !IsSpace(x[|x| - 1]) && '\n' !in x
  }

  /** `s.split('\n').map(l => l.trim()).filter(l => l.length > 0)`. */
  function NonBlankLines(s: string): seq<string> {
    NonBlankOf(Split(s, '\n'))
  }

  /** The entries of `parts` that are not all white space, unchanged and in order. */
  function KeptLines(parts: seq<string>): seq<string> {
    if parts == [] then []
    else (if NotBlank(parts[0]) then [parts[0]] else []) + KeptLines(parts[1..])
  }

  /** The kept entries are entries of `parts`, none of them blank. */
  lemma {:induction false} KeptLinesSub(parts: seq<string>)
    ensures forall x :: x in KeptLines(parts) ==> x in parts && NotBlank(x)
  {
    if parts != [] {
      KeptLinesSub(parts[1..]);
    }
  }

  /** When no entry is blank, all of them are kept. */
  lemma {:induction false} KeptLinesAll(parts: seq<string>)
    requires forall k :: 0 <= k < |parts| ==> NotBlank(parts[k])
    ensures KeptLines(parts) == parts
  {
    if parts != [] {
      var tail := parts[1..];
      assert forall k :: 0 <= k < |tail| ==> NotBlank(tail[k]) by {
        forall k | 0 <= k < |tail| ensures NotBlank(tail[k]) {
          assert tail[k] == parts[k + 1];
        }
      }
      KeptLinesAll(tail);
      assert NotBlank(parts[0]);
      assert parts == [parts[0]] + tail;
    }
  }

  /** The trimmed forms of the entries of `parts` that are not all white space, in order. */
  function NonBlankOf(parts: seq<string>): seq<string> {
    if parts == [] then []
    else (if Trim(parts[0]) != "" then [Trim(parts[0])] else []) + NonBlankOf(parts[1..])
  }

  /** The empty string has no non-blank line. */
  lemma NonBlankLinesOfEmpty()
    ensures NonBlankLines("") == []
  {
    assert Split("", '\n') == [""];
    assert Trim("") == "";
    assert NonBlankOf([""]) == NonBlankOf([]);
  }

  /** Every line `NonBlankLines` keeps is non-empty, free of surrounding white space and of line breaks. */
  lemma NonBlankLinesClean(s: string)
    ensures forall x :: x in NonBlankLines(s) ==> IsCleanLine(x)
  {
    SplitPiecesFree(s, '\n');
    NonBlankOfClean(Split(s, '\n'));
  }

  lemma {:induction false} NonBlankOfClean(parts: seq<string>)
    requires forall k :: 0 <= k < |parts| ==> '\n' !in parts[k]
    ensures forall x :: x in NonBlankOf(parts) ==> IsCleanLine(x)
  {
    if parts != [] {
      NonBlankOfClean(parts[1..]);
      assert '\n' !in TrimEnd(TrimStart(parts[0]));
    }
  }

  predicate IsDigit(c: char) {
    '0' <= c <= '9'
  }

  /** The longest prefix of `s` made of decimal digits. */
  function DigitPrefix(s: string): (r: string)
    ensures |r| <= |s| && r == s[..|r|]
    ensures |r| == |s| || !IsDigit(s[|r|])
  {
    if s != [] && IsDigit(s[0]) then [s[0]] + DigitPrefix(s[1..]) else []
  }

  /** The number a string of decimal digits denotes, by place value. */
  function DigitsValue(ds: string): int
  {
    if ds == [] then 0
    else 10 * DigitsValue(ds[..|ds| - 1]) + (ds[|ds| - 1] as int - '0' as int)
  }

  /**
   * `Number.parseInt(s, 10)`: leading white space skipped, an optional sign, then the longest
   * run of decimal digits; None (NaN) when there is no digit.
   */
  function ParseDecimal(s: string): (r: Option<int>)
  {
    var t := TrimStart(s);
    var negative := t != [] && t[0] == '-';
    var body := if t != [] && (t[0] == '-' || t[0] == '+') then t[1..] else t;
    var ds := DigitPrefix(body);
    if ds == [] then None
    else
      var v := DigitsValue(ds);
      Some(if negative then -v else v)
  }

  /** The decimal spelling of a natural number, without leading zeros. */
  function DecimalString(n: nat): (r: string)
    ensures r != []
  {
    var d := ['0' + (n % 10) as char];
    if n < 10 then d else DecimalString(n / 10) + d
  }

  /** A decimal spelling is made of decimal digits only. */
  lemma {:induction false} DecimalStringDigits(n: nat)
    ensures forall k :: 0 <= k < |DecimalString(n)| ==> IsDigit(DecimalString(n)[k])
  {
    if n >= 10 {
      DecimalStringDigits(n / 10);
    }
  }

  /** The digits of a decimal spelling denote the number spelled. */
  lemma {:induction false} DecimalStringValue(n: nat)
    ensures DigitsValue(DecimalString(n)) == n
  {
    var r := DecimalString(n);
    if n >= 10 {
      DecimalStringValue(n / 10);
      assert r[..|r| - 1] == DecimalString(n / 10);
    }
  }

  /** A digit run is its own longest digit prefix, whatever follows it (if that is not a digit). */
  lemma {:induction false} DigitPrefixOfDigits(ds: string, rest: string)
    requires forall k :: 0 <= k < |ds| ==> IsDigit(ds[k])
    requires rest == [] || !IsDigit(rest[0])
    ensures DigitPrefix(ds + rest) == ds
  {
    if ds != [] {
      assert (ds + rest)[1..] == ds[1..] + rest;
      DigitPrefixOfDigits(ds[1..], rest);
    }
  }

  /** `Number.parseInt` reads back the decimal spelling of a natural number, ignoring a non-digit tail. */
  lemma ParseDecimalString(n: nat, rest: string)
    requires rest == [] || !IsDigit(rest[0])
    ensures ParseDecimal(DecimalString(n) + rest) == Some(n)
  {
    var d := DecimalString(n);
    DecimalStringDigits(n);
    assert (d + rest)[0] == d[0];
    DigitPrefixOfDigits(d, rest);
    ParseUnsigned(d + rest);
    DecimalStringValue(n);
  }

  /** A string that starts with a digit parses to the value of its leading digit run. */
  lemma ParseUnsigned(s: string)
    requires s != [] && IsDigit(s[0])
    ensures DigitPrefix(s) != []
    ensures ParseDecimal(s) == Some(DigitsValue(DigitPrefix(s)))
  {
    assert !IsSpace(s[0]);
    TrimStartKeeps(s);
    assert DigitPrefix(s) == [s[0]] + DigitPrefix(s[1..]);
  }

  /** A string that does not start with white space is its own `trimStart`. */
  lemma TrimStartKeeps(s: string)
    requires s == [] || !IsSpace(s[0])
    ensures TrimStart(s) == s
  {
  }

  /** The decimal spelling of a number parses back to that number. */
  lemma ParseDecimalOf(n: nat)
    ensures ParseDecimal(DecimalString(n)) == Some(n)
  {
    ParseDecimalString(n, []);
    assert DecimalString(n) + [] == DecimalString(n);
  }

  /** `s.length` in JavaScript: astral code points take two UTF-16 code units. */
  function Utf16Length(s: string): (n: nat)
    ensures |s| <= n <= 2 * |s|
  {
    if s == [] then 0
    else (if s[0] as int >= 0x1_0000 then 2 else 1) + Utf16Length(s[1..])
  }
}
