/** parseHits and parseHitsGlobal: the hits that one result page shows. */
module HitParser {
  import opened Wrappers
  import opened Text
  import opened LinkScanner
  import opened Hits
  import Escaping

  const SEPARATOR := "search-registry-entry-block"
  const LAW_44 := "44-\U{444}\U{437}"
  const LAW_223 := "223-\U{444}\U{437}"

  function TrimRightSlashes(s: string): string {
    if s != "" && s[|s| - 1] == '/' then TrimRightSlashes(s[..|s| - 1]) else s
  }

  function AbsURL(base: string, link: string): string {
    var href := TrimSpace(link);
    if HasPrefix(href, "http://") || HasPrefix(href, "https://") then href
    else if HasPrefix(href, "/") then TrimRightSlashes(base) + href
    else href
  }

  /** The two captures of a match. */
  function Href(s: string, m: Match): string {
    var lo := m.start + |HREF|;
    if lo <= m.close <= |s| then s[lo..m.close] else ""
  }

  function RegNumber(s: string, m: Match): string {
    var lo := DigitsStart(s, m);
    if lo + m.digits <= |s| then s[lo..lo + m.digits] else ""
  }

  predicate Mentions(block: string, law: string) {
    exists i :: 0 <= i < |block| && FoldedAt(block, i, law)
  }

  function LawOf(block: string): string {
    if Mentions(block, LAW_44) then "44" else if Mentions(block, LAW_223) then "223" else ""
  }

  function HitOf(s: string, m: Match, law: string, base: string): Hit {
    Hit(RegNumber(s, m), AbsURL(base, Escaping.Unescape(Href(s, m))), law, "")
  }

  // ---- Block mode -------------------------------------------------------------------------

  /** A block shows the first link that the pattern finds in it, or nothing. */
  function BlockHit(block: string, base: string): seq<Hit> {
    match Find(block)
    case None => []
    case Some(m) => [HitOf(block, m, LawOf(block), base)]
  }

  function BlockHits(blocks: seq<string>, base: string): seq<Hit> {
    if blocks == [] then []
    else BlockHits(blocks[..|blocks| - 1], base) + BlockHit(blocks[|blocks| - 1], base)
  }

  // ---- Global mode ------------------------------------------------------------------------

  function MatchedHits(html: string, ms: seq<Match>, base: string): seq<Hit> {
    seq(|ms|, i requires 0 <= i < |ms| => HitOf(html, ms[i], "", base))
  }

  function GlobalHits(html: string, base: string): seq<Hit> {
    FirstOccurrences(MatchedHits(html, FindAll(html), base))
  }

  /** What parseHits returns. */
  function PageHits(html: string, base: string): seq<Hit> {
    var blocks := Split(html, SEPARATOR);
    if |blocks| < 2 then GlobalHits(html, base) else BlockHits(blocks[1..], base)
  }

  // ---- The loops of the program ---------------------------------------------------------------

  /** The body of the loop over the blocks. */
  method ParseBlock(block: string, base: string) returns (shown: seq<Hit>)
    ensures shown == BlockHit(block, base)
  {
    hide Mentions, Find, AbsURL;
    var found := Find(block);
    if found.None? {
      return [];
    }
    var href := AbsURL(base, Escaping.Unescape(Href(block, found.value)));
    var law := "";
    if Mentions(block, LAW_44) {
      law := "44";
    } else if Mentions(block, LAW_223) {
      law := "223";
    }
    shown := [Hit(RegNumber(block, found.value), href, law, "")];
  }

  method ParseHits(html: string, base: string) returns (out: seq<Hit>)
    ensures out == PageHits(html, base)
    ensures var blocks := Split(html, "search-registry-entry-block");
      if |blocks| < 2 then forall h :: h in out ==> ComesFrom(h, html, base) && h.law == ""
      else forall h :: h in out ==> exists b :: b in blocks[1..] && ShownBy(h, b, base)
  {
    hide ComesFrom, ShownBy, BlockHit;
    PageHitsMeaning(html, base);
    var blocks := Split(html, SEPARATOR);
    if |blocks| < 2 {
      out := ParseHitsGlobal(html, base);
      return;
    }
    out := [];
    var rest := blocks[1..];
    for i := 0 to |rest|
      invariant out == BlockHits(rest[..i], base)
    {
      assert rest[..i + 1][..i] == rest[..i];
      var shown := ParseBlock(rest[i], base);
      out := out + shown;
    }
    assert rest[..|rest|] == rest;
  }

  method ParseHitsGlobal(html: string, base: string) returns (out: seq<Hit>)
    ensures out == GlobalHits(html, base) && forall h :: h in out ==> ComesFrom(h, html, base) && h.law == ""
  {
    hide FindAll, ComesFrom, FirstOccurrences, Numbers, AbsURL;
    var ms := FindAll(html);
    ghost var all := MatchedHits(html, ms, base);
    NothingFirst();
    assert all[..0] == [];
    var seen: set<string> := {};
    out := [];
    for i := 0 to |ms|
      invariant seen == Numbers(all[..i])
      invariant out == FirstOccurrences(all[..i])
    {
      var reg := RegNumber(html, ms[i]);
      PrefixStep(all, i);
      if reg in seen {
        continue;
      }
      seen := seen + {reg};
      out := out + [Hit(reg, AbsURL(base, Escaping.Unescape(Href(html, ms[i]))), "", "")];
    }
    assert all[..|ms|] == all;
    GlobalHitsMeaning(html, base);
  }

  // ---- Links and laws -----------------------------------------------------------------------------

  /** The base keeps everything but its closing slashes. */
  lemma {:induction false} SlashesTrimmed(base: string)
    ensures var r := TrimRightSlashes(base);
      && r <= base && (r == "" || r[|r| - 1] != '/')
      && forall i :: |r| <= i < |base| ==> base[i] == '/'
    decreases |base|
  {
    if base != "" && base[|base| - 1] == '/' {
      SlashesTrimmed(base[..|base| - 1]);
    }
  }

  /** Links that are absolute already are kept, those from the root are completed, others are kept; spaces around
      a link do not count. */
  lemma LinksCompleted(base: string, link: string)
    requires Trimmed(link)
    ensures "http://" <= link || "https://" <= link ==> AbsURL(base, link) == link
    ensures "/" <= link ==> AbsURL(base, link) == TrimRightSlashes(base) + link
    ensures !("http://" <= link) && !("https://" <= link) && !("/" <= link) ==> AbsURL(base, link) == link
    ensures forall s :: TrimSpace(s) == link ==> AbsURL(base, s) == AbsURL(base, link)
  {
    TrimSpaceTrims(link);
    assert "http://"[0] == 'h' && "https://"[0] == 'h';
    hide TrimSpace, TrimRightSlashes;
    if "/" <= link {
      assert link[0] == '/';
    }
  }

  /** "44-FZ" in Cyrillic letters stands at i, each letter small or capital. */
  ghost predicate Shows44At(s: string, i: nat) {
    && i + 5 <= |s| && s[i] == '4' && s[i + 1] == '4' && s[i + 2] == '-'
    && s[i + 3] in {'\U{424}', '\U{444}'} && s[i + 4] in {'\U{417}', '\U{437}'}
  }

  ghost predicate Shows44(s: string) {
    exists i: nat :: Shows44At(s, i)
  }

  ghost predicate Shows223At(s: string, i: nat) {
    && i + 6 <= |s| && s[i] == '2' && s[i + 1] == '2' && s[i + 2] == '3' && s[i + 3] == '-'
    && s[i + 4] in {'\U{424}', '\U{444}'} && s[i + 5] in {'\U{417}', '\U{437}'}
  }

  ghost predicate Shows223(s: string) {
    exists i: nat :: Shows223At(s, i)
  }

  /** The law that a hit of this block carries: that of 44-FZ wherever it is shown, else that of 223-FZ. */
  ghost predicate LawFits(law: string, block: string) {
    && (law == "44" <==> Shows44(block))
    && (law == "223" <==> Shows223(block) && !Shows44(block))
    && (law == "" <==> !Shows44(block) && !Shows223(block))
  }

  lemma LawsStand(s: string, i: nat)
    ensures FoldedAt(s, i, LAW_44) <==> Shows44At(s, i)
    ensures FoldedAt(s, i, LAW_223) <==> Shows223At(s, i)
  {
    if i + 5 <= |s| {
      assert FoldedAt(s, i, LAW_44) <==>
        Fold(s[i + 0]) == '4' && Fold(s[i + 1]) == '4' && Fold(s[i + 2]) == '-' && Fold(s[i + 3]) == '\U{444}'
        && Fold(s[i + 4]) == '\U{437}' by {
        LitOf44();
      }
    }
    if i + 6 <= |s| {
      assert FoldedAt(s, i, LAW_223) <==>
        Fold(s[i + 0]) == '2' && Fold(s[i + 1]) == '2' && Fold(s[i + 2]) == '3' && Fold(s[i + 3]) == '-'
        && Fold(s[i + 4]) == '\U{444}' && Fold(s[i + 5]) == '\U{437}' by {
        LitOf223();
      }
    }
  }

  lemma LitOf44()
    ensures |LAW_44| == 5 && LAW_44[0] == '4' && LAW_44[1] == '4' && LAW_44[2] == '-'
    ensures LAW_44[3] == '\U{444}' && LAW_44[4] == '\U{437}'
  {
  }

  lemma LitOf223()
    ensures |LAW_223| == 6 && LAW_223[0] == '2' && LAW_223[1] == '2' && LAW_223[2] == '3' && LAW_223[3] == '-'
    ensures LAW_223[4] == '\U{444}' && LAW_223[5] == '\U{437}'
  {
  }

  lemma LawOfBlock(block: string)
    ensures LawFits(LawOf(block), block)
  {
    forall i: nat ensures FoldedAt(block, i, LAW_44) <==> Shows44At(block, i)
                  ensures FoldedAt(block, i, LAW_223) <==> Shows223At(block, i)
    {
      LawsStand(block, i);
    }
    hide FoldedAt, Shows44At, Shows223At;
  }

  // ---- What the hits of a page are --------------------------------------------------------------

  predicate WellFormedNumber(reg: string) {
    10 <= |reg| <= 25 && AllDigits(reg)
  }

  lemma SliceOfSlice(s: string, lo: nat, hi: nat, a: nat, b: nat)
    requires lo <= a <= b <= hi <= |s|
    ensures s[lo..hi][a - lo..b - lo] == s[a..b]
  {
    forall i | 0 <= i < b - a ensures s[lo..hi][a - lo..b - lo][i] == s[a..b][i] {
      assert s[lo..hi][a - lo + i] == s[a + i];
    }
  }

  lemma MatchedNumberIsWellFormed(s: string, m: Match)
    requires IsMatch(s, m)
    ensures WellFormedNumber(RegNumber(s, m))
    ensures QuoteFree(Href(s, m), 0, |Href(s, m)|)
    ensures Contains(Href(s, m), RegNumber(s, m))
  {
    var lo, at := m.start + |HREF|, DigitsStart(s, m);
    KeyIsQuoteFree(s, m.key);
    hide KeyLength, FoldedAt;
    SliceOfSlice(s, lo, m.close, at, at + m.digits);
    IndexIsLeftmost(Href(s, m), RegNumber(s, m), at - lo);
  }

  /** A block yields a hit exactly when the pattern matches in it, and then the hit carries the number and
      the link of the match that a leftmost-first matcher prefers. */
  lemma BlockHitMeaning(block: string, base: string)
    ensures BlockHit(block, base) == [] <==> NoMatchFrom(block, 0)
    ensures forall m :: IsFirstMatch(block, 0, m) ==>
      BlockHit(block, base) == [HitOf(block, m, LawOf(block), base)]
    ensures |BlockHit(block, base)| <= 1 && forall h :: h in BlockHit(block, base) ==> LawFits(h.law, block)
  {
    LawOfBlock(block);
    FindRefinesPattern(block, 0);
    forall m | IsFirstMatch(block, 0, m)
      ensures BlockHit(block, base) == [HitOf(block, m, LawOf(block), base)]
    {
      FirstMatchIsFound(block, 0, m);
    }
    if Find(block).Some? {
      assert IsMatch(block, Find(block).value);
    }
  }

  /** The hit carries the number and the completed, unescaped link of this match, and no object name. */
  ghost predicate Captures(h: Hit, s: string, m: Match, base: string) {
    && h.regNumber == RegNumber(s, m)
    && h.noticeURL == AbsURL(base, Escaping.Unescape(Href(s, m)))
    && h.objectName == ""
  }

  /** `h` comes from a match in this very text. */
  ghost predicate ComesFrom(h: Hit, s: string, base: string) {
    exists m :: IsMatch(s, m) && Captures(h, s, m, base)
  }

  /** The block shows the hit: link, number and law are its own. */
  ghost predicate ShownBy(h: Hit, block: string, base: string) {
    ComesFrom(h, block, base) && LawFits(h.law, block)
  }

  lemma BlockShows(block: string, base: string)
    ensures forall h :: h in BlockHit(block, base) ==> ShownBy(h, block, base)
  {
    LawOfBlock(block);
    FindRefinesPattern(block, 0);
    if Find(block).Some? {
      var m := Find(block).value;
      assert IsMatch(block, m) && Captures(HitOf(block, m, LawOf(block), base), block, m, base);
    }
    hide IsMatch, Captures, LawOf, LawFits, Find;
  }

  lemma {:induction false} BlockHitsMeaning(blocks: seq<string>, base: string)
    ensures |BlockHits(blocks, base)| <= |blocks|
    ensures forall h :: h in BlockHits(blocks, base) ==> exists b :: b in blocks && ShownBy(h, b, base)
    decreases |blocks|
  {
    if blocks != [] {
      hide ShownBy, LawOf;
      var front, block := blocks[..|blocks| - 1], blocks[|blocks| - 1];
      BlockHitsMeaning(front, base);
      BlockShows(block, base);
      forall h | h in BlockHits(blocks, base) ensures exists b :: b in blocks && ShownBy(h, b, base) {
        if h in BlockHits(front, base) {
          var b :| b in front && ShownBy(h, b, base);
          assert b in blocks;
        } else {
          assert h in BlockHit(block, base) && block in blocks;
        }
      }
    }
  }

  lemma {:induction false} MatchesAreMatches(s: string, from: nat, ms: seq<Match>, m: Match)
    requires AreSuccessiveMatches(s, from, ms) && m in ms
    ensures IsMatch(s, m)
    decreases |ms|
  {
    if m != ms[0] {
      MatchesAreMatches(s, ms[0].close + 1, ms[1..], m);
    }
  }

  lemma CapturedNumber(h: Hit, s: string, base: string)
    requires ComesFrom(h, s, base)
    ensures WellFormedNumber(h.regNumber)
  {
    var m :| IsMatch(s, m) && Captures(h, s, m, base);
    MatchedNumberIsWellFormed(s, m);
  }

  lemma GlobalHitsMeaning(html: string, base: string)
    ensures Distinct(GlobalHits(html, base))
    ensures forall h :: h in GlobalHits(html, base) ==> ComesFrom(h, html, base) && h.law == ""
  {
    var ms := FindAll(html);
    var all := MatchedHits(html, ms, base);
    FirstOccurrencesKeepNumbers(all);
    FindAllRefinesPattern(html, 0);
    hide IsMatch, FindAll, FirstOccurrences;
    forall h | h in FirstOccurrences(all) ensures ComesFrom(h, html, base) && h.law == "" {
      FirstOccurrencesAreFirst(all, h);
      var i :| 0 <= i < |all| && all[i] == h;
      MatchesAreMatches(html, 0, ms, ms[i]);
      assert Captures(h, html, ms[i], base);
    }
  }

  /** On every page and in both modes: each hit carries 10 to 25 digits of a quote-free link of its own block and
      the law shown there; a page cut into blocks shows at most one hit a separator; an uncut page never repeats a
      number and tells no law. */
  lemma PageHitsMeaning(html: string, base: string)
    ensures forall h :: h in PageHits(html, base) ==> WellFormedNumber(h.regNumber)
    ensures var blocks := Split(html, "search-registry-entry-block");
      if |blocks| < 2 then
        && Distinct(PageHits(html, base))
        && forall h :: h in PageHits(html, base) ==> ComesFrom(h, html, base) && h.law == ""
      else
        && |PageHits(html, base)| < |blocks|
        && forall h :: h in PageHits(html, base) ==> exists b :: b in blocks[1..] && ShownBy(h, b, base)
  {
    hide BlockHits, GlobalHits, ComesFrom, LawFits, WellFormedNumber;
    var blocks := Split(html, SEPARATOR);
    if |blocks| >= 2 {
      BlockHitsMeaning(blocks[1..], base);
      forall h | h in PageHits(html, base) ensures WellFormedNumber(h.regNumber) {
        var b :| b in blocks[1..] && ShownBy(h, b, base);
        CapturedNumber(h, b, base);
      }
    } else {
      GlobalHitsMeaning(html, base);
      forall h | h in PageHits(html, base) ensures WellFormedNumber(h.regNumber) {
        CapturedNumber(h, html, base);
      }
    }
  }
}
