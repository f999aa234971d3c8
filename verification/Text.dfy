/** The parts of Go's `strings` and `strconv` packages that the service relies on,
    over sequences of code points. */
module Text {
  import opened Wrappers

  // ---- Trimming -------------------------------------------------------------

  /** unicode.IsSpace */
  predicate IsSpace(c: char) {
    || '\t' <= c <= '\r'
    || c == ' ' || c == '\U{85}' || c == '\U{A0}' || c == '\U{1680}'
    || '\U{2000}' <= c <= '\U{200A}'
    || c == '\U{2028}' || c == '\U{2029}' || c == '\U{202F}' || c == '\U{205F}' || c == '\U{3000}'
  }

  function TrimLeft(s: string): string {
    if s != "" && IsSpace(s[0]) then TrimLeft(s[1..]) else s
  }

  function TrimRight(s: string): string {
    if s != "" && IsSpace(s[|s| - 1]) then TrimRight(s[..|s| - 1]) else s
  }

  function TrimSpace(s: string): string {
    TrimRight(TrimLeft(s))
  }

  /** Neither end of the text is a space. */
  predicate Trimmed(s: string) {
    s == "" || (!IsSpace(s[0]) && !IsSpace(s[|s| - 1]))
  }

  lemma {:induction false} TrimRightKeepsHead(s: string)
    requires s != "" && !IsSpace(s[0])
    ensures TrimRight(s) != "" && TrimRight(s)[0] == s[0]
    ensures Trimmed(TrimRight(s))
    decreases |s|
  {
    if IsSpace(s[|s| - 1]) {
      TrimRightKeepsHead(s[..|s| - 1]);
    }
  }

  lemma {:induction false} TrimLeftHead(s: string)
    ensures TrimLeft(s) == "" || !IsSpace(TrimLeft(s)[0])
    decreases |s|
  {
    if s != "" && IsSpace(s[0]) {
      TrimLeftHead(s[1..]);
    }
  }

  /** TrimSpace leaves exactly the trimmed texts alone, and always yields one. */
  lemma TrimSpaceTrims(s: string)
    ensures Trimmed(TrimSpace(s))
    ensures TrimSpace(s) == s <==> Trimmed(s)
  {
    TrimLeftHead(s);
    if TrimLeft(s) != "" {
      TrimRightKeepsHead(TrimLeft(s));
    }
  }

  predicate AllSpaces(s: string) {
    forall i :: 0 <= i < |s| ==> IsSpace(s[i])
  }

  lemma {:induction false} TrimLeftCuts(s: string)
    ensures exists a :: AllSpaces(a) && s == a + TrimLeft(s)
    decreases |s|
  {
    if s != "" && IsSpace(s[0]) {
      TrimLeftCuts(s[1..]);
      var a :| AllSpaces(a) && s[1..] == a + TrimLeft(s[1..]);
      assert AllSpaces([s[0]] + a) && s == ([s[0]] + a) + TrimLeft(s);
    } else {
      assert AllSpaces("") && s == "" + TrimLeft(s);
    }
  }

  lemma {:induction false} TrimRightCuts(s: string)
    ensures exists b :: AllSpaces(b) && s == TrimRight(s) + b
    decreases |s|
  {
    if s != "" && IsSpace(s[|s| - 1]) {
      TrimRightCuts(s[..|s| - 1]);
      var b :| AllSpaces(b) && s[..|s| - 1] == TrimRight(s[..|s| - 1]) + b;
      assert AllSpaces(b + [s[|s| - 1]]) && s == TrimRight(s) + (b + [s[|s| - 1]]);
    } else {
      assert AllSpaces("") && s == TrimRight(s) + "";
    }
  }

  /** Trimming cuts off spaces at both ends and nothing else. */
  lemma TrimSpaceCuts(s: string)
    ensures exists a, b :: AllSpaces(a) && AllSpaces(b) && s == a + TrimSpace(s) + b
  {
    TrimLeftCuts(s);
    TrimRightCuts(TrimLeft(s));
    var a :| AllSpaces(a) && s == a + TrimLeft(s);
    var b :| AllSpaces(b) && TrimLeft(s) == TrimSpace(s) + b;
    assert s == a + TrimSpace(s) + b;
  }

  // ---- Prefixes, searching, splitting and joining -----------------------------

  predicate HasPrefix(s: string, prefix: string) {
    |prefix| <= |s| && s[..|prefix|] == prefix
  }

  function TrimPrefix(s: string, prefix: string): string {
    if HasPrefix(s, prefix) then s[|prefix|..] else s
  }

  /** The leftmost position at which `sep` occurs in `s`. */
  function Index(s: string, sep: string): (r: Option<nat>)
    ensures r.Some? ==> r.value + |sep| <= |s| && s[r.value..r.value + |sep|] == sep
    ensures r.Some? && sep != "" ==> s[r.value] == sep[0] // an occurrence starts with sep's first character
  {
    if |s| < |sep| then None
    else if s[..|sep|] == sep then Some(0)
    else if s == "" then None
    else match Index(s[1..], sep)
      case None => None
      case Some(k) =>
        assert s[k + 1..k + 1 + |sep|] == s[1..][k..k + |sep|];
        Some(k + 1)
  }

  predicate Contains(s: string, sep: string) {
    Index(s, sep).Some?
  }

  function Split(s: string, sep: string): (r: seq<string>)
    requires sep != ""
    ensures |r| >= 1
    decreases |s|
  {
    match Index(s, sep)
    case None => [s]
    case Some(k) => [s[..k]] + Split(s[k + |sep|..], sep)
  }

  function Join(parts: seq<string>, sep: string): string {
    if |parts| == 0 then ""
    else if |parts| == 1 then parts[0]
    else parts[0] + sep + Join(parts[1..], sep)
  }

  /** Index misses no earlier occurrence. */
  lemma {:induction false} IndexIsLeftmost(s: string, sep: string, i: nat)
    requires i + |sep| <= |s| && s[i..i + |sep|] == sep
    ensures Index(s, sep).Some? && Index(s, sep).value <= i
    decreases |s|
  {
    if s[..|sep|] != sep {
      assert i > 0;
      assert s[1..][i - 1..i - 1 + |sep|] == s[i..i + |sep|];
      IndexIsLeftmost(s[1..], sep, i - 1);
    }
  }

  /** A text free of the first character of `sep`, followed by `sep`: the separator is found right there. */
  lemma {:induction false} IndexAfter(head: string, sep: string, rest: string)
    requires sep != "" && sep[0] !in head
    ensures Index(head + sep + rest, sep) == Some(|head|)
  {
    var s := head + sep + rest;
    assert s[|head|..|head| + |sep|] == sep;
    IndexIsLeftmost(s, sep, |head|);
    var k := Index(s, sep).value;
    assert k >= |head|;
  }

  lemma SplitAfter(head: string, sep: string, rest: string)
    requires sep != "" && sep[0] !in head
    ensures Split(head + sep + rest, sep) == [head] + Split(rest, sep)
  {
    IndexAfter(head, sep, rest);
    var s := head + sep + rest;
    assert s[..|head|] == head;
    assert s[|head| + |sep|..] == rest;
  }

  /** Joining undoes splitting, on every text. */
  lemma {:induction false} JoinSplit(s: string, sep: string)
    requires sep != ""
    ensures Join(Split(s, sep), sep) == s
    decreases |s|
  {
    hide Index;
    var at := Index(s, sep);
    if at.Some? {
      var k := at.value;
      var rest := s[k + |sep|..];
      JoinSplit(rest, sep);
      JoinCons(s[..k], Split(rest, sep), sep);
      CutOut(s, k, sep);
    }
  }

  lemma JoinCons(head: string, rest: seq<string>, sep: string)
    requires rest != []
    ensures Join([head] + rest, sep) == head + sep + Join(rest, sep)
  {
    assert ([head] + rest)[1..] == rest;
  }

  lemma CutOut(s: string, k: nat, part: string)
    requires k + |part| <= |s| && s[k..k + |part|] == part
    ensures s == s[..k] + part + s[k + |part|..]
  {
  }

  /** Splitting undoes joining when no part holds the separator's first character. */
  lemma {:induction false} SplitJoin(parts: seq<string>, sep: string)
    requires sep != "" && parts != []
    requires forall p :: p in parts ==> sep[0] !in p
    ensures Split(Join(parts, sep), sep) == parts
    decreases |parts|
  {
    assert parts[0] in parts;
    if |parts| == 1 {
      assert Index(parts[0], sep) == None;
    } else {
      hide Index;
      SplitJoin(parts[1..], sep);
      SplitAfter(parts[0], sep, Join(parts[1..], sep));
    }
  }

  /** The parts of a split on one character never hold that character. */
  lemma {:induction false} SplitPartsFree(s: string, sep: char)
    ensures forall p :: p in Split(s, [sep]) ==> sep !in p
    decreases |s|
  {
    match Index(s, [sep])
    case None =>
      if sep in s {
        var i :| 0 <= i < |s| && s[i] == sep;
        assert s[i..i + 1] == [sep];
        IndexIsLeftmost(s, [sep], i);
      }
    case Some(k) =>
      SplitPartsFree(s[k + 1..], sep);
      if sep in s[..k] {
        var i :| 0 <= i < k && s[..k][i] == sep;
        assert s[i..i + 1] == [sep];
        IndexIsLeftmost(s, [sep], i);
      }
  }

  // ---- Decimal numbers -----------------------------------------------------------

  const MAX_INT64 := 0x7FFF_FFFF_FFFF_FFFF

  predicate IsDigit(c: char) {
    '0' <= c <= '9'
  }

  predicate AllDigits(s: string) {
    forall i :: 0 <= i < |s| ==> IsDigit(s[i])
  }

  function DigitsValue(s: string): nat
    requires AllDigits(s)
  {
    if s == "" then 0
    else 10 * DigitsValue(s[..|s| - 1]) + (s[|s| - 1] - '0') as int
  }

  /** strconv.Atoi: an optional sign, at least one digit, a 64-bit range. */
  function Atoi(s: string): (r: Option<int>)
    ensures r.Some? ==> -MAX_INT64 - 1 <= r.value <= MAX_INT64
  {
    var negative := s != "" && s[0] == '-';
    var digits := if s != "" && (s[0] == '-' || s[0] == '+') then s[1..] else s;
    if digits == "" || !AllDigits(digits) then None
    else
      var n: int := DigitsValue(digits);
      if negative then (if n <= MAX_INT64 + 1 then Some(-n) else None)
      else if n <= MAX_INT64 then Some(n) else None
  }

  /** A text is a number exactly if it is digits after at most one sign, and in range; the sign decides. */
  lemma AtoiMeans(digits: string)
    requires digits != "" && AllDigits(digits)
    ensures var n: int := DigitsValue(digits);
      && Atoi(digits) == Atoi("+" + digits) == (if n <= 0x7FFF_FFFF_FFFF_FFFF then Some(n) else None)
      && Atoi("-" + digits) == if n <= 0x8000_0000_0000_0000 then Some(-n) else None
  {
    assert ("+" + digits)[1..] == digits && ("-" + digits)[1..] == digits;
    assert IsDigit(digits[0]);
  }

  lemma AtoiRefuses(s: string)
    requires Atoi(s).Some?
    ensures AllDigits(s) || (s[0] in {'+', '-'} && s[1..] != "" && AllDigits(s[1..]))
    ensures s != ""
  {
  }

  /** The value of digits, digit by digit. */
  lemma DigitsAppend(s: string, d: char)
    requires AllDigits(s) && IsDigit(d)
    ensures AllDigits(s + [d]) && DigitsValue(s + [d]) == 10 * DigitsValue(s) + (d as int - '0' as int)
    ensures DigitsValue("") == 0
  {
    assert (s + [d])[..|s|] == s;
  }

  function Itoa(n: nat): (s: string)
    ensures s != "" && AllDigits(s)
  {
    var last := ['0' + (n % 10) as char];
    if n < 10 then last else Itoa(n / 10) + last
  }

  /** Reading back a printed number gives the number. */
  lemma {:induction false} AtoiItoa(n: nat)
    ensures DigitsValue(Itoa(n)) == n
    ensures n <= MAX_INT64 ==> Atoi(Itoa(n)) == Some(n)
    decreases n
  {
    if n >= 10 {
      AtoiItoa(n / 10);
      var s := Itoa(n);
      assert s[..|s| - 1] == Itoa(n / 10);
    }
  }
}
