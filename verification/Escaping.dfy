/** htmlUnescape: one left-to-right replacement pass over five character references,
    a subset of the named references of section 13.1.4 of the WHATWG HTML Standard. */
module Escaping {
  import opened Text
  import opened Wrappers

  /** A reference the replacer knows: its length and the character it stands for. */
  datatype Reference = Reference(length: nat, meaning: char)

  /** The reference that starts the text, if any. */
  function ReferenceAt(s: string): (r: Option<Reference>)
    ensures r.Some? ==> 4 <= r.value.length <= |s|
  {
    if HasPrefix(s, "&amp;") then Some(Reference(5, '&'))
    else if HasPrefix(s, "&quot;") then Some(Reference(6, '"'))
    else if HasPrefix(s, "&#39;") then Some(Reference(5, '\''))
    else if HasPrefix(s, "&lt;") then Some(Reference(4, '<'))
    else if HasPrefix(s, "&gt;") then Some(Reference(4, '>'))
    else None
  }

  /** htmlUnescape */
  function Unescape(s: string): string
    decreases |s|
  {
    if s == "" then ""
    else match ReferenceAt(s)
      case Some(r) => [r.meaning] + Unescape(s[r.length..])
      case None => [s[0]] + Unescape(s[1..])
  }

  /** The usual escaping: each of the five characters becomes its reference. */
  function EscapeChar(c: char): (r: string)
    ensures r != ""
  {
    match c
    case '&' => "&amp;"
    case '"' => "&quot;"
    case '\'' => "&#39;"
    case '<' => "&lt;"
    case '>' => "&gt;"
    case _ => [c]
  }

  function Escape(s: string): string {
    if s == "" then "" else EscapeChar(s[0]) + Escape(s[1..])
  }

  lemma EscapedCharIsRead(c: char, rest: string)
    ensures
      var r := ReferenceAt(EscapeChar(c) + rest);
      if c in "&\"'<>" then r == Some(Reference(|EscapeChar(c)|, c)) else r == None
  {
    var e := EscapeChar(c);
    var s := e + rest;
    assert s[..|e|] == e;
    assert s[0] == e[0] && (|e| > 1 ==> s[1] == e[1]);
  }

  lemma UnescapeOne(c: char, rest: string)
    ensures Unescape(EscapeChar(c) + rest) == [c] + Unescape(rest)
  {
    EscapedCharIsRead(c, rest);
    var s := EscapeChar(c) + rest;
    assert s[|EscapeChar(c)|..] == rest;
    assert c !in "&\"'<>" ==> EscapeChar(c) == [c];
  }

  lemma EscapeHead(s: string, rest: string)
    requires s != ""
    ensures Escape(s) + rest == EscapeChar(s[0]) + (Escape(s[1..]) + rest)
  {
    hide EscapeChar;
  }

  lemma HeadAndTail(s: string, rest: string)
    requires s != ""
    ensures [s[0]] + (s[1..] + rest) == s + rest
  {
  }

  /** Whatever text was escaped, the pass gives it back, and whatever follows is left to the rest of
      the pass: its own output is never read again. */
  lemma {:induction false} UnescapeEscape(s: string, rest: string)
    ensures Unescape(Escape(s) + rest) == s + Unescape(rest)
    decreases |s|
  {
    if s == "" {
      assert Escape(s) + rest == rest;
    } else {
      var t := Escape(s[1..]) + rest;
      EscapeHead(s, rest);
      UnescapeOne(s[0], t);
      UnescapeEscape(s[1..], rest);
      HeadAndTail(s, Unescape(rest));
    }
  }

  /** Escaped text loses exactly one layer, however many layers it carries. */
  lemma UnescapeLosesOneLayer(s: string)
    ensures Unescape(Escape(s)) == s
    ensures Unescape(Escape(Escape(s))) == Escape(s)
  {
    UnescapeEscape(s, "");
    UnescapeEscape(Escape(s), "");
    assert Escape(s) + "" == Escape(s);
    assert Escape(Escape(s)) + "" == Escape(Escape(s));
  }

  /** The five references and what they stand for, wherever they stand. */
  lemma TheReferences(rest: string)
    ensures Unescape("&amp;" + rest) == "&" + Unescape(rest)
    ensures Unescape("&quot;" + rest) == "\"" + Unescape(rest)
    ensures Unescape("&#39;" + rest) == "'" + Unescape(rest)
    ensures Unescape("&lt;" + rest) == "<" + Unescape(rest)
    ensures Unescape("&gt;" + rest) == ">" + Unescape(rest)
  {
    hide Unescape;
    UnescapeOne('&', rest);
    UnescapeOne('"', rest);
    UnescapeOne('\'', rest);
    UnescapeOne('<', rest);
    UnescapeOne('>', rest);
  }

  /** Some reference of the table occurs at position `i`. */
  predicate ReferenceOccursAt(s: string, i: nat)
    requires i <= |s|
  {
    ReferenceAt(s[i..]).Some?
  }

  lemma {:induction false} UnescapeShrinks(s: string)
    ensures |Unescape(s)| <= |s|
    decreases |s|
  {
    if s != "" {
      var r := ReferenceAt(s);
      if r.Some? {
        UnescapeShrinks(s[r.value.length..]);
      } else {
        UnescapeShrinks(s[1..]);
      }
    }
  }

  /** A text is left alone exactly when no reference occurs anywhere in it. */
  lemma {:induction false} UnescapeFixesReferenceFree(s: string)
    ensures Unescape(s) == s <==> forall i :: 0 <= i <= |s| ==> !ReferenceOccursAt(s, i)
    decreases |s|
  {
    if s != "" {
      var r := ReferenceAt(s);
      assert s[0..] == s;
      if r.Some? {
        UnescapeShrinks(s[r.value.length..]);
        assert ReferenceOccursAt(s, 0);
      } else {
        UnescapeFixesReferenceFree(s[1..]);
        assert !ReferenceOccursAt(s, 0);
        assert Unescape(s)[1..] == Unescape(s[1..]);
        forall i | 0 <= i <= |s[1..]|
          ensures ReferenceOccursAt(s[1..], i) == ReferenceOccursAt(s, i + 1)
        {
          assert s[1..][i..] == s[i + 1..];
        }
        if forall i :: 0 <= i <= |s| ==> !ReferenceOccursAt(s, i) {
          forall i | 0 <= i <= |s[1..]| ensures !ReferenceOccursAt(s[1..], i) {
            assert !ReferenceOccursAt(s, i + 1);
          }
        } else {
          var j :| 0 <= j <= |s| && ReferenceOccursAt(s, j);
          assert ReferenceOccursAt(s[1..], j - 1);
        }
      }
    } else {
      assert forall i :: i == 0 ==> s[i..] == "";
    }
  }
}
