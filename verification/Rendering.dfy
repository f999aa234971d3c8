/** Pages that the parser reads: rendered links are found again, character by character. */
module Rendering {
  import opened Wrappers
  import opened Text
  import opened LinkScanner
  import opened Hits
  import opened HitParser
  import Escaping

  const KEY := "regNumber="

  /** A link to a notice: some path, and the number. */
  function Link(path: string, reg: string): string {
    path + KEY + reg
  }

  /** A block of a result page around such a link, with the link escaped as an attribute has to be. */
  function Block(before: string, path: string, reg: string, after: string): string {
    before + (HREF + (Escaping.Escape(Link(path, reg)) + ("\"" + after)))
  }

  /** The first href of the block is the one of the link. */
  ghost predicate NoEarlierHref(before: string, path: string, reg: string, after: string) {
    forall i: nat :: i < |before| ==> !FoldedAt(Block(before, path, reg, after), i, HREF)
  }

  lemma {:induction false} EscapedIsQuoteFree(s: string)
    ensures QuoteFree(Escaping.Escape(s), 0, |Escaping.Escape(s)|)
    decreases |s|
  {
    if s != "" {
      EscapedIsQuoteFree(s[1..]);
    }
  }

  predicate Plain(s: string) {
    forall i :: 0 <= i < |s| ==> s[i] !in {'&', '"', '\'', '<', '>'}
  }

  lemma {:induction false} PlainIsKept(s: string)
    requires Plain(s)
    ensures Escaping.Escape(s) == s
    decreases |s|
  {
    if s != "" {
      PlainIsKept(s[1..]);
    }
  }

  lemma EscapeCons(c: char, rest: string)
    ensures Escaping.Escape([c] + rest) == Escaping.EscapeChar(c) + Escaping.Escape(rest)
  {
    hide Escaping.EscapeChar;
    assert ([c] + rest)[1..] == rest;
  }

  lemma ConcatAssociates(a: string, b: string, c: string)
    ensures a + b + c == a + (b + c)
  {
  }

  lemma {:induction false} EscapeConcat(a: string, b: string)
    ensures Escaping.Escape(a + b) == Escaping.Escape(a) + Escaping.Escape(b)
    decreases |a|
  {
    hide *;
    if a == "" {
      assert a + b == b;
      EscapeNothing();
    } else {
      EscapeConcat(a[1..], b);
      EscapeCons(a[0], a[1..]);
      EscapeCons(a[0], a[1..] + b);
      assert a == [a[0]] + a[1..];
      ConcatAssociates([a[0]], a[1..], b);
      ConcatAssociates(Escaping.EscapeChar(a[0]), Escaping.Escape(a[1..]), Escaping.Escape(b));
    }
  }

  lemma EscapeNothing()
    ensures Escaping.Escape("") == ""
  {
  }

  lemma LinkEscaped(path: string, reg: string)
    requires AllDigits(reg)
    ensures Escaping.Escape(Link(path, reg)) == Escaping.Escape(path) + (KEY + reg)
  {
    assert Link(path, reg) == path + (KEY + reg);
    EscapeConcat(path, KEY + reg);
    assert Plain(KEY + reg);
    PlainIsKept(KEY + reg);
  }

  // ---- The match in a block ------------------------------------------------------------------------------

  /** `part` stands in `s` at `at`. */
  predicate StandsAt(s: string, at: nat, part: string) {
    at + |part| <= |s| && forall j :: 0 <= j < |part| ==> s[at + j] == part[j]
  }

  lemma PartsStand(before: string, e: string, reg: string, after: string)
    ensures var s := before + (HREF + ((e + (KEY + reg)) + ("\"" + after)));
      var k := |before| + |HREF| + |e|;
      && StandsAt(s, |before|, HREF) && StandsAt(s, |before| + |HREF|, e) && StandsAt(s, k, KEY)
      && StandsAt(s, k + |KEY|, reg) && StandsAt(s, k + |KEY| + |reg|, "\"")
  {
  }

  lemma KeyStands(s: string, k: nat)
    requires StandsAt(s, k, KEY)
    ensures KeyLength(s, k) == |KEY|
  {
    forall j | 0 <= j < |REG_KEY| ensures Fold(s[k + j]) == REG_KEY[j] {
      assert s[k + j] == KEY[j];
    }
  }

  /** A key starts with r and e, or with p. */
  lemma KeyStarts(s: string, i: nat)
    requires KeyLength(s, i) > 0
    ensures i + 1 < |s|
    ensures (Fold(s[i]) == 'r' && Fold(s[i + 1]) == 'e') || Fold(s[i]) == 'p'
  {
    if FoldedAt(s, i, REG_KEY) {
      assert Fold(s[i + 0]) == REG_KEY[0] && Fold(s[i + 1]) == REG_KEY[1];
    } else {
      assert Fold(s[i + 0]) == NOTICE_KEY[0];
    }
  }

  lemma LinkCharacter(s: string, k: nat, reg: string, i: nat)
    requires StandsAt(s, k, KEY) && StandsAt(s, k + |KEY|, reg)
    requires k < i < k + |KEY| + |reg|
    ensures s[i] == if i < k + |KEY| then KEY[i - k] else reg[i - k - |KEY|]
  {
    assert i < k + |KEY| ==> s[k + (i - k)] == KEY[i - k];
    assert i >= k + |KEY| ==> s[k + |KEY| + (i - k - |KEY|)] == reg[i - k - |KEY|];
  }

  /** No key stands inside the key or the digits behind it. */
  lemma NoLaterKey(s: string, k: nat, reg: string, i: nat)
    requires StandsAt(s, k, KEY) && StandsAt(s, k + |KEY|, reg) && AllDigits(reg) && reg != ""
    requires k < i < k + |KEY| + |reg|
    ensures KeyLength(s, i) == 0
  {
    LinkCharacter(s, k, reg, i);
    if i == k + 8 {
      LinkCharacter(s, k, reg, i + 1);
    }
    if KeyLength(s, i) > 0 {
      KeyStarts(s, i);
    }
  }

  function LinkMatch(before: string, e: string, reg: string): Match {
    var k := |before| + |HREF| + |e|;
    Match(|before|, k, |reg|, k + |KEY| + |reg|)
  }

  /** Text in which a quoted link stands, described by its parts. */
  ghost predicate HoldsLink(s: string, before: string, e: string, reg: string) {
    var k := |before| + |HREF| + |e|;
    && StandsAt(s, |before|, HREF) && StandsAt(s, |before| + |HREF|, e) && StandsAt(s, k, KEY)
    && StandsAt(s, k + |KEY|, reg) && StandsAt(s, k + |KEY| + |reg|, "\"")
    && WellFormedNumber(reg) && QuoteFree(e, 0, |e|)
  }

  lemma HrefStands(s: string, i: nat)
    requires StandsAt(s, i, HREF)
    ensures FoldedAt(s, i, HREF)
  {
    forall j | 0 <= j < |HREF| ensures Fold(s[i + j]) == HREF[j] {
      assert s[i + j] == HREF[j];
    }
  }

  lemma LinkIsQuoteFree(s: string, before: string, e: string, reg: string)
    requires HoldsLink(s, before, e, reg)
    ensures QuoteFree(s, |before| + |HREF|, LinkMatch(before, e, reg).close)
  {
    var lo := |before| + |HREF|;
    var k := lo + |e|;
    forall i | lo <= i < k + |KEY| + |reg| ensures s[i] != '"' {
      if i < k {
        assert s[lo + (i - lo)] == e[i - lo];
      } else if i < k + |KEY| {
        assert s[k + (i - k)] == KEY[i - k];
      } else {
        assert s[k + |KEY| + (i - k - |KEY|)] == reg[i - k - |KEY|];
      }
    }
  }

  lemma LinkMatches(s: string, before: string, e: string, reg: string)
    requires HoldsLink(s, before, e, reg)
    ensures IsMatch(s, LinkMatch(before, e, reg))
  {
    var m := LinkMatch(before, e, reg);
    HrefStands(s, m.start);
    KeyStands(s, m.key);
    LinkIsQuoteFree(s, before, e, reg);
    forall i | m.key + |KEY| <= i < m.key + |KEY| + |reg| ensures IsDigit(s[i]) {
      assert s[m.key + |KEY| + (i - m.key - |KEY|)] == reg[i - m.key - |KEY|];
    }
    assert s[m.close + 0] == "\""[0];
  }

  /** Any other match is less preferred. */
  lemma LinkIsPreferred(s: string, before: string, e: string, reg: string, n: Match)
    requires HoldsLink(s, before, e, reg) && IsMatch(s, n)
    requires |before| <= n.start
    ensures Preferred(LinkMatch(before, e, reg), n)
  {
    var m := LinkMatch(before, e, reg);
    LinkMatches(s, before, e, reg);
    if n.start == m.start {
      CloseIsUnique(s, n);
      CloseIsUnique(s, m);
      if n.key > m.key {
        NoLaterKey(s, m.key, reg, n.key);
      }
      KeyStands(s, m.key);
    }
  }

  /** In any block, whatever stands around the link and whatever its path: the number is found, the link comes back
      unescaped and completed, and the law is read from the whole block. */
  lemma RenderedLinkIsRead(before: string, path: string, reg: string, after: string, base: string)
    requires WellFormedNumber(reg) && HasPrefix(path, "/") && NoEarlierHref(before, path, reg, after)
    ensures var block := Block(before, path, reg, after);
      BlockHit(block, base) == [Hit(reg, TrimRightSlashes(base) + path + "regNumber=" + reg,
                                    if Shows44(block) then "44" else if Shows223(block) then "223" else "", "")]
  {
    hide *;
    var block, e := Block(before, path, reg, after), Escaping.Escape(path);
    BlockHolds(before, path, reg, after);
    NothingEarlier(before, path, reg, after);
    BlockHasOneHit(block, before, e, reg, base);
    CapturesAre(block, before, e, reg, path);
    LinkIsCompleted(path, reg, base);
    Escaping.UnescapeLosesOneLayer(Link(path, reg));
    LinkParts(TrimRightSlashes(base), path, reg);
    HitColumns(block, LinkMatch(before, e, reg), base);
  }

  lemma BlockHolds(before: string, path: string, reg: string, after: string)
    requires WellFormedNumber(reg)
    ensures AllDigits(reg) && HoldsLink(Block(before, path, reg, after), before, Escaping.Escape(path), reg)
  {
    LinkEscaped(path, reg);
    PartsStand(before, Escaping.Escape(path), reg, after);
    EscapedIsQuoteFree(path);
  }

  lemma NothingEarlier(before: string, path: string, reg: string, after: string)
    requires NoEarlierHref(before, path, reg, after)
    ensures forall i: nat :: i < |before| ==> !FoldedAt(Block(before, path, reg, after), i, HREF)
  {
    hide FoldedAt, Block;
  }

  lemma HitColumns(block: string, m: Match, base: string)
    ensures HitOf(block, m, LawOf(block), base)
         == Hit(RegNumber(block, m), AbsURL(base, Escaping.Unescape(Href(block, m))),
                if Shows44(block) then "44" else if Shows223(block) then "223" else "", "")
  {
    LawOfBlock(block);
    hide RegNumber, AbsURL, Href, LawOf, Shows44, Shows223;
  }

  lemma LinkParts(base: string, path: string, reg: string)
    ensures base + Link(path, reg) == base + path + "regNumber=" + reg
  {
  }

  lemma BlockHasOneHit(block: string, before: string, e: string, reg: string, base: string)
    requires HoldsLink(block, before, e, reg)
    requires forall i: nat :: i < |before| ==> !FoldedAt(block, i, HREF)
    ensures BlockHit(block, base) == [HitOf(block, LinkMatch(before, e, reg), LawOf(block), base)]
  {
    var m := LinkMatch(before, e, reg);
    LinkMatches(block, before, e, reg);
    forall n | IsMatch(block, n) ensures Preferred(m, n) {
      LinkIsPreferred(block, before, e, reg, n);
    }
    hide HoldsLink, IsMatch, Preferred;
    assert IsFirstMatch(block, 0, m);
    BlockHitMeaning(block, base);
  }

  lemma PartStands(s: string, at: nat, part: string)
    requires StandsAt(s, at, part)
    ensures s[at..at + |part|] == part
  {
  }

  lemma PartsJoin(s: string, at: nat, a: string, b: string, c: string)
    requires StandsAt(s, at, a) && StandsAt(s, at + |a|, b) && StandsAt(s, at + |a| + |b|, c)
    ensures s[at..at + |a| + |b| + |c|] == a + (b + c)
  {
    PartStands(s, at, a);
    PartStands(s, at + |a|, b);
    PartStands(s, at + |a| + |b|, c);
    hide StandsAt;
    var m, n := at + |a|, at + |a| + |b|;
    assert s[at..n + |c|] == s[at..m] + (s[m..n] + s[n..n + |c|]);
  }

  lemma NumberCaptured(s: string, before: string, e: string, reg: string)
    requires HoldsLink(s, before, e, reg)
    ensures RegNumber(s, LinkMatch(before, e, reg)) == reg
  {
    var k := |before| + |HREF| + |e|;
    KeyStands(s, k);
    PartStands(s, k + |KEY|, reg);
    hide StandsAt, KeyLength, WellFormedNumber, QuoteFree;
  }

  lemma LinkCaptured(s: string, before: string, e: string, reg: string)
    requires HoldsLink(s, before, e, reg)
    ensures Href(s, LinkMatch(before, e, reg)) == e + (KEY + reg)
  {
    PartsJoin(s, |before| + |HREF|, e, KEY, reg);
    hide StandsAt, KeyLength, WellFormedNumber, QuoteFree;
  }

  lemma CapturesAre(s: string, before: string, e: string, reg: string, path: string)
    requires HoldsLink(s, before, e, reg) && e == Escaping.Escape(path) && AllDigits(reg)
    ensures RegNumber(s, LinkMatch(before, e, reg)) == reg
    ensures Href(s, LinkMatch(before, e, reg)) == Escaping.Escape(Link(path, reg))
  {
    hide *;
    NumberCaptured(s, before, e, reg);
    LinkCaptured(s, before, e, reg);
    LinkEscaped(path, reg);
  }

  lemma RootedIsCompleted(base: string, href: string)
    requires href != "" && href[0] == '/' && Trimmed(href)
    ensures AbsURL(base, href) == TrimRightSlashes(base) + href
  {
    TrimSpaceTrims(href);
    hide TrimSpace, TrimRightSlashes;
    assert href[..1] == "/";
    assert "http://"[0] == 'h' && "https://"[0] == 'h';
  }

  lemma LinkEnds(path: string, reg: string)
    requires WellFormedNumber(reg) && HasPrefix(path, "/")
    ensures var link := Link(path, reg);
      link != "" && link[0] == '/' && link[|link| - 1] == reg[|reg| - 1] && IsDigit(reg[|reg| - 1])
  {
    assert path[0] == path[..1][0];
  }

  lemma LinkIsCompleted(path: string, reg: string, base: string)
    requires WellFormedNumber(reg) && HasPrefix(path, "/")
    ensures AbsURL(base, Link(path, reg)) == TrimRightSlashes(base) + Link(path, reg)
  {
    LinkEnds(path, reg);
    hide Link, AbsURL, TrimRightSlashes, WellFormedNumber;
    RootedIsCompleted(base, Link(path, reg));
  }

  // ---- A page of blocks ------------------------------------------------------------------------------------

  /** What a block is rendered from. */
  datatype Entry = Entry(before: string, path: string, reg: string, after: string)

  function BlockOf(e: Entry): string {
    Block(e.before, e.path, e.reg, e.after)
  }

  ghost predicate Renders(e: Entry) {
    WellFormedNumber(e.reg) && HasPrefix(e.path, "/") && NoEarlierHref(e.before, e.path, e.reg, e.after)
  }

  function EntryHit(e: Entry, base: string): Hit {
    Hit(e.reg, TrimRightSlashes(base) + Link(e.path, e.reg), LawOf(BlockOf(e)), "")
  }

  function Blocks(entries: seq<Entry>): seq<string> {
    seq(|entries|, i requires 0 <= i < |entries| => BlockOf(entries[i]))
  }

  function EntryHits(entries: seq<Entry>, base: string): seq<Hit> {
    seq(|entries|, i requires 0 <= i < |entries| => EntryHit(entries[i], base))
  }

  /** The text holds no separator, nor the start of one that the next separator would complete. */
  predicate Separable(part: string, sep: string) {
    Index(part + sep, sep) == Some(|part|)
  }

  lemma SeparableIndex(head: string, sep: string, rest: string)
    requires sep != "" && Separable(head, sep)
    ensures Index(head + sep + rest, sep) == Some(|head|)
  {
    hide Index;
    var s := head + sep + rest;
    assert s[|head|..|head| + |sep|] == sep;
    IndexIsLeftmost(s, sep, |head|);
    var k := Index(s, sep).value;
    assert (head + sep)[k..k + |sep|] == s[k..k + |sep|];
    IndexIsLeftmost(head + sep, sep, k);
  }

  lemma SeparatorFollows(head: string, sep: string, rest: string)
    requires sep != "" && Separable(head, sep)
    ensures Split(head + sep + rest, sep) == [head] + Split(rest, sep)
  {
    SeparableIndex(head, sep, rest);
    hide Index;
    var s := head + sep + rest;
    assert s[..|head|] == head && s[|head| + |sep|..] == rest;
  }

  lemma SeparableAlone(part: string, sep: string)
    requires sep != "" && Separable(part, sep)
    ensures Split(part, sep) == [part]
  {
    hide Index;
    var found := Index(part, sep);
    if found.Some? {
      var k := found.value;
      assert (part + sep)[k..k + |sep|] == part[k..k + |sep|];
      IndexIsLeftmost(part + sep, sep, k);
    }
  }

  lemma {:induction false} SplitBlocks(parts: seq<string>, sep: string)
    requires sep != "" && parts != [] && forall p :: p in parts ==> Separable(p, sep)
    ensures Split(Join(parts, sep), sep) == parts
    decreases |parts|
  {
    hide Split, Separable;
    if |parts| == 1 {
      SeparableAlone(parts[0], sep);
    } else {
      SplitBlocks(parts[1..], sep);
      SeparatorFollows(parts[0], sep, Join(parts[1..], sep));
    }
  }

  lemma EntriesAppend(entries: seq<Entry>, base: string)
    requires entries != []
    ensures var front, e := entries[..|entries| - 1], entries[|entries| - 1];
      && Blocks(entries) == Blocks(front) + [BlockOf(e)]
      && EntryHits(entries, base) == EntryHits(front, base) + [EntryHit(e, base)]
  {
    hide BlockOf, EntryHit;
  }

  lemma BlockHitsAppend(blocks: seq<string>, block: string, base: string)
    ensures BlockHits(blocks + [block], base) == BlockHits(blocks, base) + BlockHit(block, base)
  {
    assert (blocks + [block])[..|blocks|] == blocks;
    hide BlockHit;
  }

  lemma {:induction false} RenderedBlocksAreRead(entries: seq<Entry>, base: string)
    requires forall e :: e in entries ==> Renders(e)
    ensures BlockHits(Blocks(entries), base) == EntryHits(entries, base)
    decreases |entries|
  {
    if entries != [] {
      hide *;
      var front, e := entries[..|entries| - 1], entries[|entries| - 1];
      RenderedBlocksAreRead(front, base);
      RenderedEntryIsRead(e, base);
      EntriesAppend(entries, base);
      BlockHitsAppend(Blocks(front), BlockOf(e), base);
    }
  }

  lemma RenderedEntryIsRead(e: Entry, base: string)
    requires Renders(e)
    ensures BlockHit(BlockOf(e), base) == [EntryHit(e, base)]
  {
    RenderedLinkIsRead(e.before, e.path, e.reg, e.after, base);
    LinkParts(TrimRightSlashes(base), e.path, e.reg);
    LawOfBlock(BlockOf(e));
    hide Block, LawOf, Shows44, Shows223, TrimRightSlashes, Link, BlockHit;
  }

  /** A page put together from any such blocks is read back entry by entry, in order. */
  lemma RenderedPageIsRead(head: string, entries: seq<Entry>, base: string)
    requires entries != [] && Separable(head, SEPARATOR)
    requires forall e :: e in entries ==> Renders(e) && Separable(BlockOf(e), SEPARATOR)
    ensures PageHits(Join([head] + Blocks(entries), "search-registry-entry-block"), base) == EntryHits(entries, base)
  {
    hide Split, Join, BlockHits, Renders, Separable, EntryHit, BlockOf;
    var parts := [head] + Blocks(entries);
    forall p | p in parts ensures Separable(p, SEPARATOR) {
      if p in Blocks(entries) {
        var i :| 0 <= i < |entries| && Blocks(entries)[i] == p;
        assert entries[i] in entries;
      }
    }
    SplitBlocks(parts, SEPARATOR);
    RenderedBlocksAreRead(entries, base);
    assert parts[1..] == Blocks(entries);
  }
}
