/** Attribute escaping of the public worker: two chains of global replacements. */
module HtmlAttribute {

  type Text = seq<char>

  /** A global, left-to-right, non-overlapping replacement of one substring. */
  function ReplaceAll(s: Text, pat: Text, rep: Text): Text
    requires pat != []
  {
    if s == [] then []
    else if pat <= s then rep + ReplaceAll(s[|pat|..], pat, rep)
    else [s[0]] + ReplaceAll(s[1..], pat, rep)
  }

  function Escape(value: Text): Text {
    var s := ReplaceAll(value, "&", "&amp;");
    var s := ReplaceAll(s, "\"", "&quot;");
    var s := ReplaceAll(s, "'", "&#39;");
    var s := ReplaceAll(s, "<", "&lt;");
    ReplaceAll(s, ">", "&gt;")
  }

  function Decode(value: Text): Text {
    var s := ReplaceAll(value, "&quot;", "\"");
    var s := ReplaceAll(s, "&#39;", "'");
    var s := ReplaceAll(s, "&#x27;", "'");
    var s := ReplaceAll(s, "&lt;", "<");
    var s := ReplaceAll(s, "&gt;", ">");
    ReplaceAll(s, "&amp;", "&")
  }

  // ---------- Single-pass forms ----------

  /** The entities in the order the decoder replaces them, with their characters. */
  const ENTITIES: seq<(Text, char)> := [
    ("&quot;", '"'), ("&#39;", '\''), ("&#x27;", '\''), ("&lt;", '<'), ("&gt;", '>'), ("&amp;", '&')
  ]

  function EscapeChar(c: char): Text {
    if c == '&' then "&amp;"
    else if c == '"' then "&quot;"
    else if c == '\'' then "&#39;"
    else if c == '<' then "&lt;"
    else if c == '>' then "&gt;"
    else [c]
  }

  function EscapeOnce(s: Text): Text {
    if s == [] then [] else EscapeChar(s[0]) + EscapeOnce(s[1..])
  }

  /** Index of the entity, among those from position k on, that s starts with; 6 if none. */
  function EntityAt(s: Text, k: nat): (e: nat)
    requires k <= 6
    ensures k <= e <= 6
    ensures e < 6 ==> ENTITIES[e].0 <= s
    decreases 6 - k
  {
    if k == 6 then 6 else if ENTITIES[k].0 <= s then k else EntityAt(s, k + 1)
  }

  /** One pass that decodes only the first n entities. */
  function DecodeOnce(s: Text, n: nat): Text
    requires n <= 6
  {
    if s == [] then []
    else
      var e := EntityAt(s, 0);
      if e < n then [ENTITIES[e].1] + DecodeOnce(s[|ENTITIES[e].0|..], n)
      else [s[0]] + DecodeOnce(s[1..], n)
  }

  // ---------- Escaping: the chain is a character map ----------

  /** The character map after the first n of the five replacements. */
  function EscapeSome(s: Text, n: nat): Text {
    if s == [] then []
    else EscapeCharSome(s[0], n) + EscapeSome(s[1..], n)
  }

  const SPECIALS: Text := "&\"'<>"

  function Rank(c: char): nat {
    if c == '&' then 0 else if c == '"' then 1 else if c == '\'' then 2
    else if c == '<' then 3 else if c == '>' then 4 else 5
  }

  lemma ReplaceStep(s: Text, c: char, rep: Text)
    requires s != []
    ensures ReplaceAll(s, [c], rep) == (if s[0] == c then rep else [s[0]]) + ReplaceAll(s[1..], [c], rep)
  {
    assert [c] <= s <==> s[0] == c;
  }

  lemma {:induction false} ReplaceChar(a: Text, b: Text, c: char, rep: Text)
    ensures ReplaceAll(a + b, [c], rep) == ReplaceAll(a, [c], rep) + ReplaceAll(b, [c], rep)
  {
    if a == [] {
      assert a + b == b;
    } else {
      var head := if a[0] == c then rep else [a[0]];
      var x, y := ReplaceAll(a[1..], [c], rep), ReplaceAll(b, [c], rep);
      ReplaceStep(a, c, rep);
      ReplaceStep(a + b, c, rep);
      ReplaceChar(a[1..], b, c, rep);
      assert (a + b)[1..] == a[1..] + b;
      assert head + (x + y) == head + x + y;
    }
  }

  lemma {:induction false} ReplaceAbsent(s: Text, c: char, rep: Text)
    requires c !in s
    ensures ReplaceAll(s, [c], rep) == s
  {
    if s != [] {
      ReplaceStep(s, c, rep);
      ReplaceAbsent(s[1..], c, rep);
      assert s[0] in s;
      assert s == [s[0]] + s[1..];
    }
  }

  /** What the first n replacements make of one character. */
  function EscapeCharSome(c: char, n: nat): Text {
    if Rank(c) < n then EscapeChar(c) else [c]
  }

  /** The next replacement, on one character. */
  lemma EscapeCharStage(c: char, n: nat)
    requires n < 5
    ensures ReplaceAll(EscapeCharSome(c, n), [SPECIALS[n]], EscapeChar(SPECIALS[n])) == EscapeCharSome(c, n + 1)
  {
    var special, rep := SPECIALS[n], EscapeChar(SPECIALS[n]);
    var head := EscapeCharSome(c, n);
    if c == special {
      ReplaceStep([c], special, rep);
      assert [c][1..] == [] && ReplaceAll([], [special], rep) == [];
      assert rep + [] == rep;
    } else {
      ReplaceAbsent(head, special, rep);
    }
  }

  lemma {:induction false} EscapeStage(s: Text, n: nat)
    requires n < 5
    ensures ReplaceAll(EscapeSome(s, n), [SPECIALS[n]], EscapeChar(SPECIALS[n])) == EscapeSome(s, n + 1)
  {
    if s != [] {
      ReplaceChar(EscapeCharSome(s[0], n), EscapeSome(s[1..], n), SPECIALS[n], EscapeChar(SPECIALS[n]));
      EscapeCharStage(s[0], n);
      EscapeStage(s[1..], n);
    }
  }

  lemma {:induction false} EscapeNone(s: Text)
    ensures EscapeSome(s, 0) == s
    ensures EscapeSome(s, 5) == EscapeOnce(s)
  {
    if s != [] {
      EscapeNone(s[1..]);
    }
  }

  /** The five global replacements refine one pass over the characters. */
  lemma EscapeIsCharacterMap(s: Text)
    ensures Escape(s) == EscapeOnce(s)
  {
    EscapeNone(s);
    EscapeStage(s, 0);
    var a := EscapeSome(s, 1);
    assert ReplaceAll(s, "&", "&amp;") == a;
    EscapeStage(s, 1);
    var b := EscapeSome(s, 2);
    assert ReplaceAll(a, "\"", "&quot;") == b;
    EscapeStage(s, 2);
    var c := EscapeSome(s, 3);
    assert ReplaceAll(b, "'", "&#39;") == c;
    EscapeStage(s, 3);
    var d := EscapeSome(s, 4);
    assert ReplaceAll(c, "<", "&lt;") == d;
    EscapeStage(s, 4);
    assert ReplaceAll(d, ">", "&gt;") == EscapeSome(s, 5);
  }

  // ---------- Decoding: the chain is one pass ----------

  /** Characters that can follow the ampersand of an entity. */
  predicate Plain(w: Text) {
    forall c | c in w :: c !in SPECIALS
  }

  lemma {:induction false} DecodeKeepsWords(s: Text, w: Text, n: nat)
    requires n < 6 && Plain(w)
    ensures w <= DecodeOnce(s, n) <==> w <= s
  {
    if w != [] && s != [] {
      var e := EntityAt(s, 0);
      if e < n {
        assert DecodeOnce(s, n)[0] == ENTITIES[e].1;
        assert s[0] == ENTITIES[e].0[0] == '&';
        assert w[0] in w;
      } else {
        DecodeKeepsWords(s[1..], w[1..], n);
        var d := DecodeOnce(s, n);
        assert d[1..] == DecodeOnce(s[1..], n);
        PrefixByHead(w, d);
        PrefixByHead(w, s);
      }
    }
  }

  lemma PrefixByHead(w: Text, s: Text)
    requires w != [] && s != []
    ensures w <= s <==> w[0] == s[0] && w[1..] <= s[1..]
  {
    if w[0] == s[0] && w[1..] <= s[1..] {
      assert s[1..][..|w| - 1] == w[1..];
      assert s[..|w|] == [s[0]] + s[1..][..|w| - 1];
      assert w == [w[0]] + w[1..];
    }
    if w <= s {
      assert s[1..][..|w| - 1] == s[..|w|][1..];
    }
  }

  lemma EntityShape(k: nat)
    requires k < 6
    ensures |ENTITIES[k].0| >= 2 && ENTITIES[k].0[0] == '&' && Plain(ENTITIES[k].0[1..])
  {
    assert ENTITIES[0].0[1..] == "quot;" && ENTITIES[1].0[1..] == "#39;" && ENTITIES[2].0[1..] == "#x27;";
    assert ENTITIES[3].0[1..] == "lt;" && ENTITIES[4].0[1..] == "gt;" && ENTITIES[5].0[1..] == "amp;";
  }

  /** No entity is a prefix of another, so at most one starts at any position. */
  lemma EntityUnique(s: Text, e: nat)
    requires e < 6 && ENTITIES[e].0 <= s
    ensures EntityAt(s, 0) == e
  {
    var d := EntityAt(s, 0);
    EntityFound(s, e, 0);
    var a, b := ENTITIES[d].0, ENTITIES[e].0;
    assert |a| >= 4 && |b| >= 4;
    assert a[1] == s[1] == b[1];
    assert a[2] == s[2] == b[2];
  }

  lemma {:induction false} EntityFound(s: Text, e: nat, k: nat)
    requires k <= e < 6 && ENTITIES[e].0 <= s
    ensures EntityAt(s, k) < 6
    decreases e - k
  {
    if k < e && !(ENTITIES[k].0 <= s) {
      EntityFound(s, e, k + 1);
    }
  }

  /** The next replacement turns a pass over n entities into a pass over n + 1. */
  lemma {:induction false} DecodeStage(s: Text, n: nat)
    requires n < 6
    ensures ReplaceAll(DecodeOnce(s, n), ENTITIES[n].0, [ENTITIES[n].1]) == DecodeOnce(s, n + 1)
    decreases |s|
  {
    var pat, rep := ENTITIES[n].0, [ENTITIES[n].1];
    EntityShape(n);
    if s != [] {
      var e := EntityAt(s, 0);
      var d := DecodeOnce(s, n);
      if e < n {
        DecodeStage(s[|ENTITIES[e].0|..], n);
        assert d[0] == ENTITIES[e].1 != '&';
        assert !(pat <= d);
        assert d[1..] == DecodeOnce(s[|ENTITIES[e].0|..], n);
      } else {
        var rest := DecodeOnce(s[1..], n);
        assert d == [s[0]] + rest && d[1..] == rest;
        DecodeKeepsWords(s[1..], pat[1..], n);
        PrefixByHead(pat, d);
        PrefixByHead(pat, s);
        if pat <= s {
          EntityUnique(s, n);
          SkipWord(s[1..], pat[1..], n);
          assert d[|pat|..] == rest[|pat| - 1..];
          assert s[1..][|pat| - 1..] == s[|pat|..];
          DecodeStage(s[|pat|..], n);
        } else {
          DecodeStage(s[1..], n);
        }
      }
    }
  }

  /** A word without special characters passes through the decoder unchanged. */
  lemma {:induction false} SkipWord(s: Text, w: Text, n: nat)
    requires n <= 6 && Plain(w) && w <= s
    ensures w <= DecodeOnce(s, n)
    ensures DecodeOnce(s, n)[|w|..] == DecodeOnce(s[|w|..], n)
  {
    if w != [] {
      var e := EntityAt(s, 0);
      assert w[0] in w && s[0] == w[0];
      if e < 6 {
        EntityShape(e);
        assert false;
      }
      assert s[1..][..|w| - 1] == w[1..];
      SkipWord(s[1..], w[1..], n);
      var d := DecodeOnce(s, n);
      assert d[1..] == DecodeOnce(s[1..], n);
      PrefixByHead(w, d);
      assert s[1..][|w| - 1..] == s[|w|..];
      assert d[1..][|w| - 1..] == d[|w|..];
    }
  }

  lemma {:induction false} DecodeNone(s: Text)
    ensures DecodeOnce(s, 0) == s
  {
    if s != [] {
      DecodeNone(s[1..]);
    }
  }

  /** On every string, the six global replacements refine one left-to-right scan. */
  lemma DecodeIsSinglePass(s: Text)
    ensures Decode(s) == DecodeOnce(s, 6)
  {
    DecodeNone(s);
    DecodeStage(s, 0);
    var a := DecodeOnce(s, 1);
    assert ReplaceAll(s, "&quot;", "\"") == a;
    DecodeStage(s, 1);
    var b := DecodeOnce(s, 2);
    assert ReplaceAll(a, "&#39;", "'") == b;
    DecodeStage(s, 2);
    var c := DecodeOnce(s, 3);
    assert ReplaceAll(b, "&#x27;", "'") == c;
    DecodeStage(s, 3);
    var d := DecodeOnce(s, 4);
    assert ReplaceAll(c, "&lt;", "<") == d;
    DecodeStage(s, 4);
    var e := DecodeOnce(s, 5);
    assert ReplaceAll(d, "&gt;", ">") == e;
    DecodeStage(s, 5);
    assert ReplaceAll(e, "&amp;", "&") == DecodeOnce(s, 6);
  }

  // ---------- The pair ----------

  lemma DecodeEscapedChar(c: char, rest: Text)
    ensures DecodeOnce(EscapeChar(c) + rest, 6) == [c] + DecodeOnce(rest, 6)
  {
    var s := EscapeChar(c) + rest;
    if Rank(c) < 5 {
      var e := if c == '&' then 5 else if c == '"' then 0 else if c == '\'' then 1 else if c == '<' then 3 else 4;
      assert ENTITIES[e] == (EscapeChar(c), c);
      EntityUnique(s, e);
      assert s[|ENTITIES[e].0|..] == rest;
    } else {
      if EntityAt(s, 0) < 6 {
        EntityShape(EntityAt(s, 0));
        assert false;
      }
      assert s[1..] == rest;
    }
  }

  lemma {:induction false} DecodeEscapeOnce(s: Text)
    ensures DecodeOnce(EscapeOnce(s), 6) == s
  {
    if s != [] {
      DecodeEscapedChar(s[0], EscapeOnce(s[1..]));
      DecodeEscapeOnce(s[1..]);
    }
  }

  /** Decoding an escaped attribute gives back the original, whatever it contains. */
  lemma RoundTrip(s: Text)
    ensures Decode(Escape(s)) == s
  {
    EscapeIsCharacterMap(s);
    DecodeIsSinglePass(Escape(s));
    DecodeEscapeOnce(s);
  }

  /** Text in the escaper's own form: ordinary characters and its five entities. */
  predicate Canonical(s: Text) {
    s == [] ||
    (var e := EntityAt(s, 0);
     if e < 6 then e != 2 && Canonical(s[|ENTITIES[e].0|..])
     else Rank(s[0]) == 5 && Canonical(s[1..]))
  }

  lemma {:induction false} EscapedIsCanonical(s: Text)
    ensures Canonical(EscapeOnce(s))
  {
    if s != [] {
      EscapedIsCanonical(s[1..]);
      var t := EscapeOnce(s);
      var c := s[0];
      if Rank(c) < 5 {
        var e := if c == '&' then 5 else if c == '"' then 0 else if c == '\'' then 1 else if c == '<' then 3 else 4;
        assert ENTITIES[e] == (EscapeChar(c), c);
        EntityUnique(t, e);
        assert t[|ENTITIES[e].0|..] == EscapeOnce(s[1..]);
      } else {
        if EntityAt(t, 0) < 6 {
          EntityShape(EntityAt(t, 0));
          assert false;
        }
        assert t[1..] == EscapeOnce(s[1..]);
      }
    }
  }

  lemma {:induction false} CanonicalIsEscaped(s: Text)
    requires Canonical(s)
    ensures EscapeOnce(DecodeOnce(s, 6)) == s
    decreases |s|
  {
    if s != [] {
      var e := EntityAt(s, 0);
      if e < 6 {
        var rest := s[|ENTITIES[e].0|..];
        EntityShape(e);
        CanonicalIsEscaped(rest);
        EntityOfChar(e);
        var d := DecodeOnce(rest, 6);
        assert DecodeOnce(s, 6) == [ENTITIES[e].1] + d;
        EscapeOnceCons(ENTITIES[e].1, d);
        assert s == ENTITIES[e].0 + rest;
      } else {
        CanonicalIsEscaped(s[1..]);
        EscapeOnceCons(s[0], DecodeOnce(s[1..], 6));
        assert s == [s[0]] + s[1..];
      }
    }
  }

  lemma EscapeOnceCons(c: char, s: Text)
    ensures EscapeOnce([c] + s) == EscapeChar(c) + EscapeOnce(s)
  {
    assert ([c] + s)[1..] == s;
  }

  lemma EntityOfChar(e: nat)
    requires e < 6 && e != 2
    ensures EscapeChar(ENTITIES[e].1) == ENTITIES[e].0
  {
  }

  /** Escaping undoes decoding exactly on the escaper's own outputs: the decoder
      also accepts a raw special character, a stray ampersand and "&#x27;". */
  lemma EscapeAfterDecode(s: Text)
    ensures Escape(Decode(s)) == s <==> Canonical(s)
  {
    DecodeIsSinglePass(s);
    EscapeIsCharacterMap(Decode(s));
    if Canonical(s) {
      CanonicalIsEscaped(s);
    }
    if Escape(Decode(s)) == s {
      EscapedIsCanonical(Decode(s));
    }
  }
}
