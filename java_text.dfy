/**
 * The parts of java.lang.String that the app's logic relies on, stated over
 * Dafny strings: `contains`, `toLowerCase` (ASCII letters only), `trim`,
 * `split("/")` with Java's removal of trailing empty strings, and the decimal
 * rendering of `String.valueOf(long)` / `StringBuilder.append(int)`.
 */
module JavaText {

  /** A Java reference that may be null. */
  datatype Option<+T> = None | Some(value: T) {
    function GetOr(default: T): T {
      if Some? then value else default
    }
  }

  // ---------------------------------------------------------------- contains

  /** `t` occurs in `s` starting at index `i`. */
  predicate OccursAt(s: string, t: string, i: int) {
    0 <= i && i + |t| <= |s| && s[i..i + |t|] == t
  }

  /** `s.contains(t)`. */
  predicate Contains(s: string, t: string) {
    exists i | 0 <= i <= |s| - |t| :: OccursAt(s, t, i)
  }

  lemma ContainsAt(s: string, t: string, i: int)
    requires OccursAt(s, t, i)
    ensures Contains(s, t)
  {
  }

  /** If one character of `t` never appears in `s`, then `t` does not occur in `s`. */
  lemma NotContainsByChar(s: string, t: string, k: nat)
    requires k < |t| && t[k] !in s
    ensures !Contains(s, t)
  {
    forall i | 0 <= i <= |s| - |t|
      ensures !OccursAt(s, t, i)
    {
      assert s[i..i + |t|][k] == s[i + k];
      assert s[i + k] in s;
    }
  }

  /** Every string contains the empty string and itself. */
  lemma ContainsSelf(s: string)
    ensures Contains(s, s) && Contains(s, "")
  {
    assert OccursAt(s, s, 0);
    assert OccursAt(s, "", 0);
  }

  /** An occurrence inside a part is an occurrence inside the whole. */
  lemma ContainsInConcat(a: string, b: string, c: string, t: string)
    requires Contains(b, t)
    ensures Contains(a + b + c, t)
  {
    var i :| 0 <= i <= |b| - |t| && OccursAt(b, t, i);
    var s := a + b + c;
    assert s[|a| + i..|a| + i + |t|] == b[i..i + |t|];
    assert OccursAt(s, t, |a| + i);
  }

  /** What a StringBuilder holds after appending `parts` in order. */
  function Concat(parts: seq<string>): string {
    if parts == [] then "" else parts[0] + Concat(parts[1..])
  }

  lemma {:induction false} ConcatSplit(parts: seq<string>, i: nat)
    requires i < |parts|
    ensures Concat(parts) == Concat(parts[..i]) + parts[i] + Concat(parts[i + 1..])
  {
    if i > 0 {
      ConcatSplit(parts[1..], i - 1);
      assert parts[1..][..i - 1] == parts[1..i];
      assert parts[1..][i..] == parts[i + 1..];
      assert Concat(parts[..i]) == parts[0] + Concat(parts[1..i]) by {
        assert parts[..i][1..] == parts[1..i];
      }
    } else {
      assert parts[1..] == parts[i + 1..];
    }
  }

  /** Every appended piece occurs in the built string. */
  /** The last part closes the concatenation. */
  lemma ConcatLast(parts: seq<string>)
    requires parts != []
    ensures Concat(parts) == Concat(parts[..|parts| - 1]) + parts[|parts| - 1]
  {
    ConcatSplit(parts, |parts| - 1);
    assert parts[|parts|..] == [];
  }

  lemma ConcatContains(parts: seq<string>, i: nat)
    requires i < |parts|
    ensures Contains(Concat(parts), parts[i])
  {
    ConcatSplit(parts, i);
    ContainsSelf(parts[i]);
    ContainsInConcat(Concat(parts[..i]), parts[i], Concat(parts[i + 1..]), parts[i]);
  }

  /** A string holding `t + u` holds `t`. */
  lemma ContainsPrefixOf(s: string, t: string, u: string)
    requires Contains(s, t + u)
    ensures Contains(s, t)
  {
    var i :| 0 <= i <= |s| - |t + u| && OccursAt(s, t + u, i);
    assert s[i..i + |t|] == (t + u)[..|t|];
    assert OccursAt(s, t, i);
  }

  // ------------------------------------------------------------- toLowerCase

  function LowerChar(c: char): (r: char)
    ensures 'A' <= c <= 'Z' ==> r as int == c as int + 32
    ensures !('A' <= c <= 'Z') ==> r == c
  {
    if 'A' <= c <= 'Z' then (c as int + 32) as char else c
  }

  /** `s.toLowerCase()` restricted to ASCII letters; every other character is kept. */
  function ToLower(s: string): (r: string)
    ensures |r| == |s|
    ensures forall i :: 0 <= i < |s| ==> r[i] == LowerChar(s[i])
  {
    seq(|s|, i requires 0 <= i < |s| => LowerChar(s[i]))
  }

  /** Lower-casing is idempotent. */
  lemma ToLowerIdempotent(s: string)
    ensures ToLower(ToLower(s)) == ToLower(s)
  {
  }

  /** A string with no upper-case ASCII letter is its own lower-case form. */
  lemma ToLowerNoUpper(s: string)
    requires forall i :: 0 <= i < |s| ==> !('A' <= s[i] <= 'Z')
    ensures ToLower(s) == s
  {
  }

  /** Lower-casing keeps occurrences: if `t` occurs in `s`, `ToLower(t)` occurs in `ToLower(s)`. */
  lemma ContainsToLower(s: string, t: string)
    requires Contains(s, t)
    ensures Contains(ToLower(s), ToLower(t))
  {
    var i :| 0 <= i <= |s| - |t| && OccursAt(s, t, i);
    ToLowerSlice(s, i, i + |t|);
    assert OccursAt(ToLower(s), ToLower(t), i);
  }

  /** Lower-casing commutes with taking a slice. */
  lemma ToLowerSlice(s: string, i: int, j: int)
    requires 0 <= i <= j <= |s|
    ensures ToLower(s)[i..j] == ToLower(s[i..j])
  {
  }

  /** How the app's reports render an on/off setting: "启用" (enabled) or "禁用" (disabled). */
  function EnabledText(b: bool): string {
    if b then "启用" else "禁用"
  }

  // -------------------------------------------------------------------- trim

  /** Characters `String.trim` removes: every code point up to and including U+0020. */
  predicate IsTrimmable(c: char) {
    c <= ' '
  }

  function TrimStart(s: string): (r: string)
    ensures |r| <= |s| && r == s[|s| - |r|..]
    ensures r == [] || !IsTrimmable(r[0])
    ensures forall i :: 0 <= i < |s| - |r| ==> IsTrimmable(s[i])
  {
    if |s| > 0 && IsTrimmable(s[0]) then TrimStart(s[1..]) else s
  }

  function TrimEnd(s: string): (r: string)
    ensures |r| <= |s| && r == s[..|r|]
    ensures r == [] || !IsTrimmable(r[|r| - 1])
    ensures forall i :: |r| <= i < |s| ==> IsTrimmable(s[i])
  {
    if |s| > 0 && IsTrimmable(s[|s| - 1]) then TrimEnd(s[..|s| - 1]) else s
  }

  /** `r` sits at index `i` of `s` with only trimmable characters before and after it. */
  predicate TrimmedAt(s: string, r: string, i: int) {
    0 <= i && i + |r| <= |s| && s[i..i + |r|] == r
    && (forall j :: 0 <= j < i ==> IsTrimmable(s[j]))
    && (forall j :: i + |r| <= j < |s| ==> IsTrimmable(s[j]))
  }

  /** `s.trim()`: the infix of `s` left after removing the trimmable characters at both ends. */
  function Trim(s: string): (r: string)
    ensures r == [] || (!IsTrimmable(r[0]) && !IsTrimmable(r[|r| - 1]))
    ensures Contains(s, r)
  {
    var a := TrimStart(s);
    var r := TrimEnd(a);
    var i := |s| - |a|;
    assert a == s[i..] && r == a[..|r|];
    assert s[i..i + |r|] == r;
    assert OccursAt(s, r, i);
    r
  }

  /** Trimming leaves nothing exactly when every character is trimmable. */
  lemma TrimEmptyIffAllTrimmable(s: string)
    ensures Trim(s) == [] <==> forall j :: 0 <= j < |s| ==> IsTrimmable(s[j])
  {
    TrimRemovesOnlyEnds(s);
    var a := TrimStart(s);
    var i := |s| - |a|;
    assert a == s[i..];
    if Trim(s) != [] {
      assert Trim(s) == a[..|Trim(s)|];
      assert !IsTrimmable(s[i]);
    }
  }

  /** Trim removes characters only at the two ends, and only trimmable ones. */
  lemma TrimRemovesOnlyEnds(s: string)
    ensures exists i :: TrimmedAt(s, Trim(s), i)
  {
    var a := TrimStart(s);
    var r := TrimEnd(a);
    var i := |s| - |a|;
    assert r == Trim(s);
    assert a == s[i..] && r == a[..|r|];
    assert s[i..i + |r|] == r;
    assert forall j :: i + |r| <= j < |s| ==> s[j] == a[j - i];
    assert TrimmedAt(s, r, i);
  }

  lemma {:induction false} TrimStartFixed(s: string)
    requires s == [] || !IsTrimmable(s[0])
    ensures TrimStart(s) == s
  {
  }

  lemma {:induction false} TrimEndFixed(s: string)
    requires s == [] || !IsTrimmable(s[|s| - 1])
    ensures TrimEnd(s) == s
  {
  }

  /** Trimming twice is trimming once. */
  lemma TrimIdempotent(s: string)
    ensures Trim(Trim(s)) == Trim(s)
  {
    var r := Trim(s);
    TrimStartFixed(r);
    TrimEndFixed(r);
  }

  // ------------------------------------------------------------- split("/")

  /** Splitting at every occurrence of `c`, keeping all pieces (split with a negative limit). */
  function SplitAll(s: string, c: char): (parts: seq<string>)
    ensures |parts| >= 1
    ensures forall j :: 0 <= j < |parts| ==> c !in parts[j]
    decreases |s|
  {
    if s == [] then [""]
    else if s[0] == c then [""] + SplitAll(s[1..], c)
    else
      var rest := SplitAll(s[1..], c);
      [[s[0]] + rest[0]] + rest[1..]
  }

  /** Joining pieces with `c` between them (the inverse of SplitAll). */
  function Join(parts: seq<string>, c: char): string
    requires |parts| >= 1
  {
    if |parts| == 1 then parts[0] else parts[0] + [c] + Join(parts[1..], c)
  }

  lemma {:induction false} JoinSplitAll(s: string, c: char)
    ensures Join(SplitAll(s, c), c) == s
    decreases |s|
  {
    if s == [] {
    } else if s[0] == c {
      JoinSplitAll(s[1..], c);
      assert s == [c] + s[1..];
    } else {
      var rest := SplitAll(s[1..], c);
      JoinSplitAll(s[1..], c);
      if |rest| == 1 {
      } else {
        assert rest == [rest[0]] + rest[1..];
        assert Join(rest, c) == rest[0] + [c] + Join(rest[1..], c);
        assert s == [s[0]] + s[1..];
      }
    }
  }

  /** Joining pieces whose first piece is not empty starts with that piece's first character. */
  lemma JoinFirstChar(parts: seq<string>, c: char)
    requires |parts| >= 1 && parts[0] != []
    ensures Join(parts, c) == [parts[0][0]] + Join([parts[0][1..]] + parts[1..], c)
  {
    var p := parts[0];
    var tail := [p[1..]] + parts[1..];
    assert tail[1..] == parts[1..];
    assert p == [p[0]] + p[1..];
  }

  lemma {:induction false} SplitAllJoin(parts: seq<string>, c: char)
    requires |parts| >= 1
    requires forall j :: 0 <= j < |parts| ==> c !in parts[j]
    ensures SplitAll(Join(parts, c), c) == parts
    decreases |parts|, |parts[0]|
  {
    var p := parts[0];
    if p == [] {
      if |parts| > 1 {
        SplitAllJoin(parts[1..], c);
        assert Join(parts, c) == [c] + Join(parts[1..], c);
        assert parts == [""] + parts[1..];
      }
    } else {
      var tail := [p[1..]] + parts[1..];
      assert tail[1..] == parts[1..];
      SplitAllJoin(tail, c);
      var s := Join(parts, c);
      JoinFirstChar(parts, c);
      assert s[0] == p[0] != c;
      assert s[1..] == Join(tail, c);
      assert SplitAll(s, c) == [[p[0]] + tail[0]] + tail[1..];
      assert [p[0]] + p[1..] == p;
      assert parts == [p] + parts[1..];
    }
  }

  /** Java's `split` with limit 0 drops every trailing empty string. */
  function DropTrailingEmpty(parts: seq<string>): (r: seq<string>)
    ensures |r| <= |parts| && r == parts[..|r|]
    ensures r == [] || r[|r| - 1] != ""
    ensures forall j :: |r| <= j < |parts| ==> parts[j] == ""
  {
    if |parts| > 0 && parts[|parts| - 1] == "" then DropTrailingEmpty(parts[..|parts| - 1]) else parts
  }

  /** `s.split(String.valueOf(c))` for a separator that is not a regular-expression metacharacter. */
  function JavaSplit(s: string, c: char): seq<string> {
    if c !in s then [s] else DropTrailingEmpty(SplitAll(s, c))
  }

  function Repeat(c: char, m: nat): (r: string)
    ensures |r| == m && forall i :: 0 <= i < m ==> r[i] == c
  {
    if m == 0 then [] else [c] + Repeat(c, m - 1)
  }

  /**
   * `split` yields exactly two pieces [h, k] iff the string is h, the separator,
   * a non-empty k, and any number of trailing separators.
   */
  predicate TwoPieceShape(s: string, c: char, h: string, k: string, m: nat) {
    c !in h && c !in k && k != "" && s == h + [c] + k + Repeat(c, m)
  }

  lemma {:induction false} SplitTwoPieces(h: string, k: string, c: char, m: nat)
    requires c !in h && c !in k && k != ""
    ensures JavaSplit(h + [c] + k + Repeat(c, m), c) == [h, k]
  {
    var s := h + [c] + k + Repeat(c, m);
    assert s[|h|] == c;
    var parts := [h, k] + seq(m, _ => "");
    forall j | 0 <= j < |parts| ensures c !in parts[j] {
    }
    JoinTrailing(h, k, c, m);
    SplitAllJoin(parts, c);
    assert DropTrailingEmpty(parts) == [h, k] by {
      DropEmptyTail([h, k], m);
    }
  }

  lemma {:induction false} JoinTrailing(h: string, k: string, c: char, m: nat)
    ensures Join([h, k] + seq(m, _ => ""), c) == h + [c] + k + Repeat(c, m)
  {
    JoinEmptyTail(k, c, m);
    var parts := [h, k] + seq(m, _ => "");
    assert parts[1..] == [k] + seq(m, _ => "");
  }

  lemma {:induction false} JoinEmptyTail(k: string, c: char, m: nat)
    ensures Join([k] + seq(m, _ => ""), c) == k + Repeat(c, m)
    decreases m
  {
    if m > 0 {
      var parts := [k] + seq(m, _ => "");
      JoinEmptyTail("", c, m - 1);
      assert parts[1..] == [""] + seq(m - 1, _ => "");
      JoinEmptyOnly(c, m - 1);
      assert Repeat(c, m) == [c] + Repeat(c, m - 1);
    }
  }

  lemma {:induction false} JoinEmptyOnly(c: char, m: nat)
    ensures Join([""] + seq(m, _ => ""), c) == Repeat(c, m)
  {
    if m > 0 {
      var parts := [""] + seq(m, _ => "");
      assert parts[1..] == [""] + seq(m - 1, _ => "");
      JoinEmptyOnly(c, m - 1);
    }
  }

  lemma {:induction false} DropEmptyTail(p: seq<string>, m: nat)
    requires |p| > 0 && p[|p| - 1] != ""
    ensures DropTrailingEmpty(p + seq(m, _ => "")) == p
  {
    if m > 0 {
      var q := p + seq(m, _ => "");
      assert q[..|q| - 1] == p + seq(m - 1, _ => "");
      DropEmptyTail(p, m - 1);
    }
  }

  /** The converse: two pieces from `split` always come from a string of that shape. */
  lemma SplitTwoPiecesShape(s: string, c: char)
    requires |JavaSplit(s, c)| == 2
    ensures var p := JavaSplit(s, c); exists m: nat :: TwoPieceShape(s, c, p[0], p[1], m)
  {
    assert c in s;
    var all := SplitAll(s, c);
    var p := DropTrailingEmpty(all);
    var m: nat := |all| - 2;
    assert all == p + seq(m, _ => "");
    JoinSplitAll(s, c);
    JoinTrailing(p[0], p[1], c, m);
    assert TwoPieceShape(s, c, p[0], p[1], m);
  }

  // ----------------------------------------------------------------- decimal

  function DigitChar(d: nat): char
    requires d < 10
  {
    "0123456789"[d]
  }

  function DigitValue(ch: char): int {
    ch as int - '0' as int
  }

  predicate IsDigit(ch: char) {
    '0' <= ch <= '9'
  }

  /** Decimal digits of a natural number, without leading zeros. */
  function NatToDecimal(n: nat): (r: string)
    ensures 1 <= |r| && (forall i :: 0 <= i < |r| ==> IsDigit(r[i]))
    ensures |r| > 1 ==> r[0] != '0'
  {
    if n < 10 then [DigitChar(n)] else NatToDecimal(n / 10) + [DigitChar(n % 10)]
  }

  /** `String.valueOf(long)`: a minus sign for negative values, then the digits. */
  function IntToDecimal(n: int): string {
    if n < 0 then "-" + NatToDecimal(-n) else NatToDecimal(n)
  }

  function ParseDecimal(s: string): int {
    if s == [] then 0 else ParseDecimal(s[..|s| - 1]) * 10 + DigitValue(s[|s| - 1])
  }

  function ParseSigned(s: string): int {
    if |s| > 0 && s[0] == '-' then -ParseDecimal(s[1..]) else ParseDecimal(s)
  }

  lemma DigitCharValue(d: nat)
    requires d < 10
    ensures DigitValue(DigitChar(d)) == d
  {
    var digits := "0123456789";
    assert forall j :: 0 <= j < 10 ==> digits[j] as int == '0' as int + j;
  }

  lemma {:induction false} ParseNatToDecimal(n: nat)
    ensures ParseDecimal(NatToDecimal(n)) == n
  {
    if n < 10 {
      DigitCharValue(n);
    } else {
      var s := NatToDecimal(n);
      ParseNatToDecimal(n / 10);
      DigitCharValue(n % 10);
      assert s[..|s| - 1] == NatToDecimal(n / 10) && s[|s| - 1] == DigitChar(n % 10);
      assert ParseDecimal(s) == n / 10 * 10 + n % 10;
    }
  }

  /** Decimal rendering is undone by parsing: `Long.parseLong(String.valueOf(n)) == n`. */
  lemma ParseIntToDecimal(n: int)
    ensures ParseSigned(IntToDecimal(n)) == n
  {
    ParseNatToDecimal(if n < 0 then -n else n);
    if n < 0 {
      assert IntToDecimal(n)[1..] == NatToDecimal(-n);
    }
  }
}
