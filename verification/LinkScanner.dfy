/** A hand-written scanner for the pattern
      (?i)href="([^"]*(?:regNumber|purchaseNoticeNumber)=([0-9]{10,25})[^"]*)"
    and the proof that it finds what a leftmost-first matcher finds. */
module LinkScanner {
  import opened Wrappers
  import opened Text

  const HREF := "href=\""
  const REG_KEY := "regnumber="
  const NOTICE_KEY := "purchasenoticenumber="
  const MIN_DIGITS := 10
  const MAX_DIGITS := 25

  /** Simple case folding, for the letters that occur in the service's patterns. */
  function Fold(c: char): char {
    if 'A' <= c <= 'Z' then 'a' + (c - 'A')
    else match c
      case '\U{17F}' => 's'  // long s
      case '\U{212A}' => 'k' // Kelvin sign
      case '\U{424}' => '\U{444}' // Cyrillic Ef
      case '\U{417}' => '\U{437}' // Cyrillic Ze
      case _ => c
  }

  /** The folded pattern text `lit` occurs in `s` at `i`, whatever the case. */
  predicate FoldedAt(s: string, i: nat, lit: string) {
    i + |lit| <= |s| && forall j :: 0 <= j < |lit| ==> Fold(s[i + j]) == lit[j]
  }

  /** The length of the key that stands at `i`, equals sign included; 0 if none does. */
  function KeyLength(s: string, i: nat): nat {
    if FoldedAt(s, i, REG_KEY) then |REG_KEY|
    else if FoldedAt(s, i, NOTICE_KEY) then |NOTICE_KEY|
    else 0
  }

  /** The text stands at `i`, each letter of it small or capital. */
  ghost predicate InEitherCase(s: string, i: nat, text: string) {
    && i + |text| <= |s|
    && forall j :: 0 <= j < |text| ==>
         s[i + j] == text[j] || ('a' <= text[j] <= 'z' && s[i + j] as int == text[j] as int - 32)
  }

  /** The texts that the pattern looks for count in either case. */
  lemma PatternTexts(s: string, i: nat)
    ensures InEitherCase(s, i, "href=\"") ==> FoldedAt(s, i, HREF)
    ensures InEitherCase(s, i, "regnumber=") ==> KeyLength(s, i) == 10
    ensures InEitherCase(s, i, "purchasenoticenumber=") ==> KeyLength(s, i) == 21
  {
    CapitalsFold(s, i, HREF);
    CapitalsFold(s, i, REG_KEY);
    CapitalsFold(s, i, NOTICE_KEY);
    if FoldedAt(s, i, REG_KEY) && FoldedAt(s, i, NOTICE_KEY) {
      assert Fold(s[i + 0]) == REG_KEY[0] && Fold(s[i + 0]) == NOTICE_KEY[0];
    }
  }

  lemma CapitalsFold(s: string, i: nat, text: string)
    requires forall j :: 0 <= j < |text| ==> Fold(text[j]) == text[j]
    ensures InEitherCase(s, i, text) ==> FoldedAt(s, i, text)
  {
    if InEitherCase(s, i, text) {
      forall j | 0 <= j < |text| ensures Fold(s[i + j]) == text[j] {
        assert Fold(text[j]) == text[j];
      }
    }
  }

  // ---- What the pattern matches ------------------------------------------------------

  /** A match: where href stands, where the key stands, how many digits are captured, and the closing quote. */
  datatype Match = Match(start: nat, key: nat, digits: nat, close: nat)

  function DigitsStart(s: string, m: Match): nat {
    m.key + KeyLength(s, m.key)
  }

  predicate QuoteFree(s: string, lo: nat, hi: nat)
    requires hi <= |s|
  {
    forall i :: lo <= i < hi ==> s[i] != '"'
  }

  predicate DigitsFrom(s: string, lo: nat, count: nat)
    requires lo + count <= |s|
  {
    forall i :: lo <= i < lo + count ==> IsDigit(s[i])
  }

  /** The pattern admits `m` in `s`. */
  predicate IsMatch(s: string, m: Match) {
    && FoldedAt(s, m.start, HREF)
    && m.start + |HREF| <= m.key
    && KeyLength(s, m.key) > 0
    && MIN_DIGITS <= m.digits <= MAX_DIGITS
    && DigitsStart(s, m) + m.digits <= m.close < |s|
    && DigitsFrom(s, DigitsStart(s, m), m.digits)
    && QuoteFree(s, m.start + |HREF|, m.close)
    && s[m.close] == '"'
  }

  /** A leftmost-first matcher prefers `m` to `n`: the earlier href; within it the longest text before the
      key, for the first star is greedy; then the longest run of digits. */
  predicate Preferred(m: Match, n: Match) {
    || m.start < n.start
    || (m.start == n.start && m.key > n.key)
    || (m.start == n.start && m.key == n.key && m.digits >= n.digits)
  }

  /** `m` is the match that a search from position `from` reports. */
  ghost predicate IsFirstMatch(s: string, from: nat, m: Match) {
    && from <= m.start
    && IsMatch(s, m)
    && forall n :: IsMatch(s, n) && from <= n.start ==> Preferred(m, n)
  }

  ghost predicate NoMatchFrom(s: string, from: nat) {
    forall n :: IsMatch(s, n) ==> n.start < from
  }

  /** `ms` are the successive matches: each is the first one behind its predecessor, and none is left
      behind the last. */
  ghost predicate AreSuccessiveMatches(s: string, from: nat, ms: seq<Match>)
    decreases |ms|
  {
    if ms == [] then NoMatchFrom(s, from)
    else IsFirstMatch(s, from, ms[0]) && AreSuccessiveMatches(s, ms[0].close + 1, ms[1..])
  }

  // ---- The scanner ---------------------------------------------------------------------

  /** The first quote at or after `i`; |s| if there is none. */
  function QuoteAt(s: string, i: nat): (r: nat)
    requires i <= |s|
    ensures i <= r <= |s| && QuoteFree(s, i, r)
    ensures r < |s| ==> s[r] == '"'
    decreases |s| - i
  {
    if i == |s| || s[i] == '"' then i else QuoteAt(s, i + 1)
  }

  /** The number of digits that stand from `i` on, counted no further than `most`. */
  function DigitRun(s: string, i: nat, most: nat): (r: nat)
    requires i <= |s|
    ensures r <= most && i + r <= |s| && DigitsFrom(s, i, r)
    ensures r < most && i + r < |s| ==> !IsDigit(s[i + r])
    decreases |s| - i
  {
    if most == 0 || i == |s| || !IsDigit(s[i]) then 0 else 1 + DigitRun(s, i + 1, most - 1)
  }

  /** The digits captured by a key at `i`; 0 if no key with enough digits stands there. */
  function DigitsAfterKey(s: string, i: nat): (r: nat)
    ensures r > 0 ==> KeyLength(s, i) > 0 && MIN_DIGITS <= r <= MAX_DIGITS
  {
    var at := i + KeyLength(s, i);
    if at == i || at > |s| then 0
    else
      var run := DigitRun(s, at, MAX_DIGITS);
      if run < MIN_DIGITS then 0 else run
  }

  /** The last position in [lo, hi) where a key with enough digits stands. */
  function LastKey(s: string, lo: nat, hi: nat): (r: Option<nat>)
    requires lo <= hi
    ensures r.Some? ==> lo <= r.value < hi && DigitsAfterKey(s, r.value) > 0
    decreases hi - lo
  {
    if lo == hi then None
    else if DigitsAfterKey(s, hi - 1) > 0 then Some(hi - 1)
    else LastKey(s, lo, hi - 1)
  }

  /** The match, if any, whose href stands at `i`. */
  function MatchAt(s: string, i: nat): Option<Match> {
    var lo := i + |HREF|;
    if !FoldedAt(s, i, HREF) || lo > |s| then None
    else
      var close := QuoteAt(s, lo);
      if close == |s| then None
      else match LastKey(s, lo, close)
        case None => None
        case Some(key) => Some(Match(i, key, DigitsAfterKey(s, key), close))
  }

  /** FindStringSubmatch on the text from `from` on. */
  function Find(s: string, from: nat := 0): Option<Match>
    decreases |s| - from
  {
    if from >= |s| then None
    else if MatchAt(s, from).Some? then MatchAt(s, from)
    else Find(s, from + 1)
  }

  /** FindAllStringSubmatch: each search resumes behind the previous match. */
  function FindAll(s: string, from: nat := 0): (ms: seq<Match>)
    decreases |s| - from
  {
    match Find(s, from)
    case None => []
    case Some(m) => if from <= m.close < |s| then [m] + FindAll(s, m.close + 1) else [m]
  }

  // ---- Scanner and pattern agree ------------------------------------------------------

  /** Key text holds no quote. */
  lemma KeyIsQuoteFree(s: string, i: nat)
    requires KeyLength(s, i) > 0
    ensures i + KeyLength(s, i) <= |s|
    ensures QuoteFree(s, i, i + KeyLength(s, i))
  {
    var lit := if FoldedAt(s, i, REG_KEY) then REG_KEY else NOTICE_KEY;
    forall p | i <= p < i + |lit| ensures s[p] != '"' {
      assert Fold(s[i + (p - i)]) == lit[p - i];
    }
  }

  lemma {:induction false} LastKeyIsLast(s: string, lo: nat, hi: nat, k: nat)
    requires lo <= k < hi && DigitsAfterKey(s, k) > 0
    ensures LastKey(s, lo, hi).Some? && k <= LastKey(s, lo, hi).value
    decreases hi - lo
  {
    hide DigitsAfterKey;
    if DigitsAfterKey(s, hi - 1) == 0 {
      assert k != hi - 1;
      LastKeyIsLast(s, lo, hi - 1, k);
    }
  }

  lemma RunCovers(s: string, n: Match)
    requires IsMatch(s, n)
    ensures DigitsAfterKey(s, n.key) >= n.digits
  {
    var at := DigitsStart(s, n);
    var run := DigitRun(s, at, MAX_DIGITS);
    assert run >= n.digits;
  }

  lemma CloseIsUnique(s: string, n: Match)
    requires IsMatch(s, n)
    ensures QuoteAt(s, n.start + |HREF|) == n.close
  {
    assert s[n.close] == '"';
  }

  lemma MatchAtReaches(s: string, i: nat, close: nat, key: nat)
    requires FoldedAt(s, i, HREF) && i + |HREF| <= key < close < |s|
    requires QuoteAt(s, i + |HREF|) == close && DigitsAfterKey(s, key) > 0
    ensures MatchAt(s, i).Some?
    ensures var m := MatchAt(s, i).value;
      m.start == i && m.key >= key && m.digits == DigitsAfterKey(s, m.key)
  {
    LastKeyIsLast(s, i + |HREF|, close, key);
    var last := LastKey(s, i + |HREF|, close).value;
    assert MatchAt(s, i) == Some(Match(i, last, DigitsAfterKey(s, last), close));
  }

  /** Whatever the pattern matches at a position, the scanner reports something at least as good there. */
  lemma MatchAtCovers(s: string, n: Match)
    requires IsMatch(s, n)
    ensures MatchAt(s, n.start).Some?
    ensures Preferred(MatchAt(s, n.start).value, n)
  {
    CloseIsUnique(s, n);
    RunCovers(s, n);
    MatchAtReaches(s, n.start, n.close, n.key);
  }

  lemma MatchAtIsMatch(s: string, i: nat)
    requires MatchAt(s, i).Some?
    ensures IsMatch(s, MatchAt(s, i).value) && MatchAt(s, i).value.start == i
  {
    var m := MatchAt(s, i).value;
    KeyIsQuoteFree(s, m.key);
    var at := DigitsStart(s, m);
    assert DigitsFrom(s, at, m.digits);
    assert s[m.close] == '"';
    assert at <= m.close;
    assert at + m.digits <= m.close;
  }

  lemma MatchIsInside(s: string, m: Match)
    requires IsMatch(s, m)
    ensures m.start < m.close < |s|
  {
  }

  /** The scanner reports a match exactly when the pattern has one, and it is the preferred one. */
  lemma {:induction false} FindRefinesPattern(s: string, from: nat)
    ensures Find(s, from).Some? ==> IsFirstMatch(s, from, Find(s, from).value)
    ensures Find(s, from).None? ==> NoMatchFrom(s, from)
    decreases |s| - from
  {
    hide IsMatch, MatchAt;
    forall n | IsMatch(s, n)
      ensures n.start < |s|
      ensures n.start == from ==> MatchAt(s, from).Some? && Preferred(MatchAt(s, from).value, n)
    {
      MatchIsInside(s, n);
      MatchAtCovers(s, n);
    }
    if from < |s| {
      if MatchAt(s, from).Some? {
        MatchAtIsMatch(s, from);
      } else {
        FindRefinesPattern(s, from + 1);
      }
    }
  }

  /** The preferred match is unique: whatever the pattern prefers is what the scanner reports. */
  lemma FirstMatchIsFound(s: string, from: nat, m: Match)
    requires IsFirstMatch(s, from, m)
    ensures Find(s, from) == Some(m)
  {
    hide IsMatch, Find, QuoteAt;
    FindRefinesPattern(s, from);
    var f := Find(s, from).value;
    assert Preferred(f, m) && Preferred(m, f);
    CloseIsUnique(s, f);
    CloseIsUnique(s, m);
  }

  lemma {:induction false} FindAllRefinesPattern(s: string, from: nat)
    ensures AreSuccessiveMatches(s, from, FindAll(s, from))
    decreases |s| - from
  {
    hide IsMatch, Find;
    FindRefinesPattern(s, from);
    var found := Find(s, from);
    if found.Some? {
      MatchIsInside(s, found.value);
      FindAllRefinesPattern(s, found.value.close + 1);
      assert FindAll(s, from)[1..] == FindAll(s, found.value.close + 1);
    }
  }
}
