/** The Python `str` operations the modelled code relies on: `strip`, `lower`,
    `split`, `split(sep, maxsplit=1)`, `endswith`, and `+=` accumulation. */
module Text {
  import opened Wrappers

  /** Python's `str.isspace` for one character (the whitespace and
      line-break characters of the Unicode database that `str.strip()` removes). */
  predicate IsSpace(c: char) {
    || c == ' ' || c == '\t' || c == '\n' || c == '\r' || c == '\U{000B}' || c == '\U{000C}'
    || ('\U{001C}' <= c <= '\U{001F}') || c == '\U{0085}' || c == '\U{00A0}' || c == '\U{1680}'
    || ('\U{2000}' <= c <= '\U{200A}') || c == '\U{2028}' || c == '\U{2029}'
    || c == '\U{202F}' || c == '\U{205F}' || c == '\U{3000}'
  }

  predicate AllSpace(s: string) {
    forall i :: 0 <= i < |s| ==> IsSpace(s[i])
  }

  /** Python's `str.strip()` with no argument: `s` without its leading and
      trailing whitespace. */
  function Strip(s: string): (r: string)
    ensures |r| <= |s|
    decreases |s|
  {
    if |s| > 0 && IsSpace(s[0]) then Strip(s[1..])
    else if |s| > 0 && IsSpace(s[|s| - 1]) then Strip(s[..|s| - 1])
    else s
  }

  /** `Strip` is characterised by its edge property: a slice of `s` between
      whitespace-only margins that neither starts nor ends with whitespace is
      the stripped string, and an all-whitespace string strips to empty. */
  lemma {:induction false} StripUnique(s: string, i: nat, j: nat)
    requires i <= j <= |s|
    requires AllSpace(s[..i]) && AllSpace(s[j..])
    requires i == j || (!IsSpace(s[i]) && !IsSpace(s[j - 1]))
    ensures i < j ==> Strip(s) == s[i..j]
    ensures i == j ==> Strip(s) == []
    decreases |s|
  {
    if i == j {
      MarginsCover(s, i);
      StripEmptyIffAllSpace(s);
    } else if IsSpace(s[0]) {
      NarrowFront(s, i, j);
      StripUnique(s[1..], i - 1, j - 1);
    } else if IsSpace(s[|s| - 1]) {
      NarrowBack(s, i, j);
      StripUnique(s[..|s| - 1], i, j);
    } else {
      assert s[i..j] == s;
    }
  }

  /** Two whitespace-only pieces that meet make an all-whitespace string. */
  lemma MarginsCover(s: string, i: nat)
    requires i <= |s| && AllSpace(s[..i]) && AllSpace(s[i..])
    ensures AllSpace(s)
  {
    forall k | 0 <= k < |s| ensures IsSpace(s[k]) {
      if k < i {
        assert s[..i][k] == s[k];
      } else {
        assert s[i..][k - i] == s[k];
      }
    }
  }

  /** Margins of `s` shrink into margins of `s[1..]` when the left one is
      not empty. */
  lemma NarrowFront(s: string, i: nat, j: nat)
    requires 1 <= i <= j <= |s| && AllSpace(s[..i]) && AllSpace(s[j..])
    ensures AllSpace(s[1..][..i - 1]) && AllSpace(s[1..][j - 1..])
    ensures s[1..][i - 1..j - 1] == s[i..j]
  {
    var head := s[1..][..i - 1];
    forall k | 0 <= k < |head| ensures IsSpace(head[k]) {
      assert head[k] == s[..i][k + 1];
    }
    assert s[1..][j - 1..] == s[j..];
  }

  /** Margins of `s` shrink into margins of `s[..|s| - 1]` when the right
      one is not empty. */
  lemma NarrowBack(s: string, i: nat, j: nat)
    requires i <= j <= |s| - 1 && AllSpace(s[..i]) && AllSpace(s[j..])
    ensures AllSpace(s[..|s| - 1][..i]) && AllSpace(s[..|s| - 1][j..])
    ensures s[..|s| - 1][i..j] == s[i..j]
  {
    var t := s[..|s| - 1];
    assert t[..i] == s[..i];
    assert forall k :: 0 <= k < |t| - j ==> t[j..][k] == s[j..][k];
  }

  /** What `Strip` keeps neither starts nor ends with whitespace. */
  lemma {:induction false} StripEdges(s: string)
    ensures Strip(s) == [] || (!IsSpace(Strip(s)[0]) && !IsSpace(Strip(s)[|Strip(s)| - 1]))
    decreases |s|
  {
    if |s| > 0 && IsSpace(s[0]) {
      StripEdges(s[1..]);
    } else if |s| > 0 && IsSpace(s[|s| - 1]) {
      StripEdges(s[..|s| - 1]);
    }
  }

  /** What `Strip` keeps is a slice of `s` whose margins are whitespace only. */
  lemma StripIsTrimmedSlice(s: string)
    ensures exists i, j :: 0 <= i <= j <= |s| && Strip(s) == s[i..j] && AllSpace(s[..i]) && AllSpace(s[j..])
  {
    var i, j := StripBounds(s);
  }

  /** The margins `Strip` removes, found alongside it. */
  lemma {:induction false} StripBounds(s: string) returns (i: nat, j: nat)
    ensures i <= j <= |s| && Strip(s) == s[i..j] && AllSpace(s[..i]) && AllSpace(s[j..])
    decreases |s|
  {
    if |s| > 0 && IsSpace(s[0]) {
      var i', j' := StripBounds(s[1..]);
      WidenFront(s, i', j');
      i, j := i' + 1, j' + 1;
    } else if |s| > 0 && IsSpace(s[|s| - 1]) {
      i, j := StripBounds(s[..|s| - 1]);
      WidenBack(s, i, j);
    } else {
      i, j := 0, |s|;
      assert s[0..|s|] == s;
    }
  }

  /** Whitespace-only margins of `s[1..]` grow into margins of `s` when
      `s[0]` is whitespace. */
  lemma WidenFront(s: string, i: nat, j: nat)
    requires |s| > 0 && IsSpace(s[0]) && i <= j <= |s| - 1
    requires AllSpace(s[1..][..i]) && AllSpace(s[1..][j..])
    ensures s[1..][i..j] == s[i + 1..j + 1]
    ensures AllSpace(s[..i + 1]) && AllSpace(s[j + 1..])
  {
    var t := s[1..];
    var head := s[..i + 1];
    assert head[0] == s[0];
    assert forall k :: 1 <= k < |head| ==> head[k] == t[..i][k - 1];
    assert AllSpace(head);
    assert s[j + 1..] == t[j..];
    assert t[i..j] == s[i + 1..j + 1];
  }

  /** Whitespace-only margins of `s[..|s| - 1]` grow into margins of `s`
      when the last character of `s` is whitespace. */
  lemma WidenBack(s: string, i: nat, j: nat)
    requires |s| > 0 && IsSpace(s[|s| - 1]) && i <= j <= |s| - 1
    requires AllSpace(s[..|s| - 1][..i]) && AllSpace(s[..|s| - 1][j..])
    ensures s[..|s| - 1][i..j] == s[i..j]
    ensures AllSpace(s[..i]) && AllSpace(s[j..])
  {
    var t := s[..|s| - 1];
    assert s[..i] == t[..i];
    assert forall k :: 0 <= k < |t| - j ==> s[j..][k] == t[j..][k];
  }

  /** Nothing is left exactly when `s` is all whitespace. */
  lemma {:induction false} StripEmptyIffAllSpace(s: string)
    ensures Strip(s) == [] <==> AllSpace(s)
    decreases |s|
  {
    if |s| > 0 && IsSpace(s[0]) {
      StripEmptyIffAllSpace(s[1..]);
      assert forall k :: 0 <= k < |s| - 1 ==> s[1..][k] == s[k + 1];
      assert AllSpace(s) <==> AllSpace(s[1..]);
    } else if |s| > 0 && IsSpace(s[|s| - 1]) {
      StripEmptyIffAllSpace(s[..|s| - 1]);
      assert forall k :: 0 <= k < |s| - 1 ==> s[..|s| - 1][k] == s[k];
      assert AllSpace(s) <==> AllSpace(s[..|s| - 1]);
    }
  }

  /** A string with non-whitespace edges is its own stripped form. */
  lemma StripKeepsTrimmed(s: string)
    requires s != [] && !IsSpace(s[0]) && !IsSpace(s[|s| - 1])
    ensures Strip(s) == s
  {
  }

  /** Stripping is idempotent. */
  lemma StripIdempotent(s: string)
    ensures Strip(Strip(s)) == Strip(s)
  {
    StripEdges(s);
  }

  /** ASCII-only model of `str.lower()`. Of the non-ASCII characters only
      the Kelvin sign lower-cases into ASCII (to `k`), so comparing the
      result with ASCII words free of `k` agrees with Python. */
  function LowerChar(c: char): char {
    if 'A' <= c <= 'Z' then (c as int + 32) as char else c
  }

  function Lower(s: string): (r: string)
    ensures |r| == |s|
    ensures forall i :: 0 <= i < |s| ==> r[i] == LowerChar(s[i])
  {
    seq(|s|, i requires 0 <= i < |s| => LowerChar(s[i]))
  }

  /** Lower-casing twice is lower-casing once, and strings without upper-case
      ASCII letters are left as they are. */
  lemma LowerIdempotent(s: string)
    ensures Lower(Lower(s)) == Lower(s)
    ensures (forall i :: 0 <= i < |s| ==> !('A' <= s[i] <= 'Z')) ==> Lower(s) == s
  {
  }

  /** Characters `repr` writes as themselves inside the quote `q`: every
      printable character other than `q` and the backslash. Of the
      non-ASCII characters only U+0080 to U+00A0 and U+00AD are treated as
      non-printable. */
  predicate Plain(c: char, q: char) {
    var k := c as int;
    c != q && c != '\\' && 0x20 <= k && !(0x7f <= k <= 0xa0) && k != 0xad
  }

  function HexDigit(k: nat): char
    requires k < 16
  {
    "0123456789abcdef"[k]
  }

  /** How `repr` writes one character inside the quote `q`: a backslash
      before `q` and the backslash, the named escapes for tab, newline and
      carriage return, `\xHH` for the other non-printable characters. */
  function EscapeChar(c: char, q: char): (r: string)
    ensures Plain(c, q) <==> r == [c]
    ensures !Plain(c, q) ==> |r| >= 2 && r[0] == '\\'
  {
    var k := c as int;
    if c == q || c == '\\' then ['\\', c]
    else if c == '\t' then "\\t"
    else if c == '\n' then "\\n"
    else if c == '\r' then "\\r"
    else if k < 0x20 || 0x7f <= k <= 0xa0 || k == 0xad then ['\\', 'x', HexDigit(k / 16), HexDigit(k % 16)]
    else [c]
  }

  /** The characters of `s` as `repr` writes them between the quotes `q`.
      Nothing is escaped exactly when the text comes out as long as it went in. */
  function Escape(s: string, q: char): (r: string)
    ensures |r| >= |s|
    ensures |r| == |s| <==> forall i :: 0 <= i < |s| ==> Plain(s[i], q)
    ensures (forall i :: 0 <= i < |s| ==> Plain(s[i], q)) ==> r == s
  {
    if |s| == 0 then ""
    else
      var rest := s[1..];
      assert forall i :: 1 <= i < |s| ==> s[i] == rest[i - 1];
      EscapeChar(s[0], q) + Escape(rest, q)
  }

  /** Python's `repr` of a string: double quotes when the text holds a
      single quote and no double quote, single quotes otherwise. */
  function Repr(s: string): (r: string)
    ensures |r| >= 2 && r[0] == r[|r| - 1]
    ensures r[0] == '"' <==> '\'' in s && '"' !in s
    ensures r[0] == '\'' <==> !('\'' in s && '"' !in s)
    ensures (forall i :: 0 <= i < |s| ==> Plain(s[i], r[0])) <==> r == [r[0]] + s + [r[0]]
  {
    var q := if '\'' in s && '"' !in s then '"' else '\'';
    var e := Escape(s, q);
    assert ([q] + e + [q])[0] == q;
    [q] + e + [q]
  }

  /** The `%.200R` conversion: the repr cut to its first `width` characters. */
  function TruncatedRepr(s: string, width: nat): (r: string)
    ensures |r| <= width
    ensures |Repr(s)| <= width ==> r == Repr(s)
    ensures StartsWith(Repr(s), r)
  {
    var full := Repr(s);
    if |full| <= width then full else full[..width]
  }

  /** Index of the first occurrence of `c` in `s`. */
  function IndexOf(s: string, c: char): (r: Option<nat>)
    ensures r.None? <==> c !in s
    ensures r.Some? ==> r.value < |s| && s[r.value] == c && c !in s[..r.value]
  {
    if |s| == 0 then None
    else if s[0] == c then Some(0)
    else match IndexOf(s[1..], c)
      case None => None
      case Some(i) =>
        assert s[..i + 1] == [s[0]] + s[1..][..i];
        Some(i + 1)
  }

  /** Python's `s.split(sep, maxsplit=1)` unpacked into two names: `None` when
      `sep` does not occur (the unpacking then raises), else the text before and
      after the first occurrence. */
  function SplitOnce(s: string, sep: char): (r: Option<(string, string)>)
    ensures r.None? <==> sep !in s
    ensures r.Some? ==> sep !in r.value.0 && s == r.value.0 + [sep] + r.value.1
  {
    match IndexOf(s, sep)
    case None => None
    case Some(i) =>
      assert s == s[..i] + [sep] + s[i + 1..];
      Some((s[..i], s[i + 1..]))
  }

  /** The first occurrence decides: a separator-free head before `sep` is
      exactly what `SplitOnce` returns. */
  lemma SplitOnceUnique(head: string, sep: char, tail: string)
    requires sep !in head
    ensures SplitOnce(head + [sep] + tail, sep) == Some((head, tail))
  {
    var s := head + [sep] + tail;
    var r := SplitOnce(s, sep).value;
    assert forall k :: 0 <= k < |head| ==> s[k] == head[k];
    assert s[|head|] == sep;
    assert forall k :: 0 <= k < |r.0| ==> s[k] == r.0[k];
    assert r.0 == s[..|head|] == head;
    assert r.1 == s[|head| + 1..] == tail;
  }

  /** Python's `s.split(sep)` for a one-character separator: the text up to
      each occurrence, then what follows the last. */
  function Split(s: string, sep: char): (r: seq<string>)
    ensures |r| >= 1
    ensures forall k :: 0 <= k < |r| ==> sep !in r[k]
    decreases |s|
  {
    match SplitOnce(s, sep)
    case None => [s]
    case Some((head, tail)) => [head] + Split(tail, sep)
  }

  /** Python's `sep.join(parts)` for a one-character separator. */
  function Join(parts: seq<string>, sep: char): string
    requires |parts| >= 1
  {
    if |parts| == 1 then parts[0] else parts[0] + [sep] + Join(parts[1..], sep)
  }

  /** Splitting loses nothing: joining the pieces back gives the original string. */
  lemma {:induction false} SplitJoin(s: string, sep: char)
    ensures Join(Split(s, sep), sep) == s
    decreases |s|
  {
    match SplitOnce(s, sep)
    case None =>
    case Some((head, tail)) =>
      var rest := Split(tail, sep);
      assert Split(s, sep) == [head] + rest;
      assert Join([head] + rest, sep) == head + [sep] + Join(rest, sep);
      SplitJoin(tail, sep);
  }

  /** Joining pieces free of the separator and splitting again gives the pieces back. */
  lemma {:induction false} JoinSplit(parts: seq<string>, sep: char)
    requires |parts| >= 1
    requires forall k :: 0 <= k < |parts| ==> sep !in parts[k]
    ensures Split(Join(parts, sep), sep) == parts
    decreases |parts|
  {
    if |parts| > 1 {
      var rest := Join(parts[1..], sep);
      assert Join(parts, sep) == parts[0] + [sep] + rest;
      SplitOnceUnique(parts[0], sep, rest);
      JoinSplit(parts[1..], sep);
      assert parts == [parts[0]] + parts[1..];
    }
  }

  predicate StartsWith(s: string, prefix: string) {
    |prefix| <= |s| && s[..|prefix|] == prefix
  }

  predicate EndsWith(s: string, suffix: string) {
    |suffix| <= |s| && s[|s| - |suffix|..] == suffix
  }

  /** The string built by `acc = ""; for c in chunks: acc += c`. */
  function Concat(chunks: seq<string>): string {
    if |chunks| == 0 then "" else Concat(chunks[..|chunks| - 1]) + chunks[|chunks| - 1]
  }

  /** Concatenation distributes over joining chunk lists. */
  lemma {:induction false} ConcatAppend(a: seq<string>, b: seq<string>)
    ensures Concat(a + b) == Concat(a) + Concat(b)
    decreases |b|
  {
    if |b| == 0 {
      assert a + b == a;
    } else {
      var b' := b[..|b| - 1];
      assert (a + b)[..|a + b| - 1] == a + b';
      ConcatAppend(a, b');
    }
  }

  /** The length of the concatenation is the sum of the chunk lengths. */
  function TotalLength(chunks: seq<string>): nat {
    if |chunks| == 0 then 0 else TotalLength(chunks[..|chunks| - 1]) + |chunks[|chunks| - 1]|
  }

  lemma {:induction false} ConcatLength(chunks: seq<string>)
    ensures |Concat(chunks)| == TotalLength(chunks)
  {
    if |chunks| > 0 {
      ConcatLength(chunks[..|chunks| - 1]);
    }
  }
}
