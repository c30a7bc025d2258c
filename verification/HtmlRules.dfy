/** The two chains of replacements, one character or entity at a time. */
module HtmlRules {
  import opened HtmlAttribute

  /** Each of the five characters becomes its entity, and every other one stays. */
  lemma EscapeRules(c: char, rest: Text)
    ensures Escape("") == ""
    ensures c == '&' ==> Escape([c] + rest) == "&amp;" + Escape(rest)
    ensures c == '"' ==> Escape([c] + rest) == "&quot;" + Escape(rest)
    ensures c == '\'' ==> Escape([c] + rest) == "&#39;" + Escape(rest)
    ensures c == '<' ==> Escape([c] + rest) == "&lt;" + Escape(rest)
    ensures c == '>' ==> Escape([c] + rest) == "&gt;" + Escape(rest)
    ensures c !in {'&', '"', '\'', '<', '>'} ==> Escape([c] + rest) == [c] + Escape(rest)
  {
    EscapeIsCharacterMap("");
    EscapesTo(c, rest);
  }

  lemma EscapesTo(c: char, rest: Text)
    ensures Escape([c] + rest) == EscapeChar(c) + Escape(rest)
  {
    EscapeIsCharacterMap([c] + rest);
    EscapeIsCharacterMap(rest);
    EscapeOnceCons(c, rest);
  }

  /** Each of the six entities becomes its character, wherever it starts, and a character
      that starts none stays. */
  lemma DecodeRules(c: char, rest: Text)
    ensures Decode("") == ""
    ensures Decode("&quot;" + rest) == "\"" + Decode(rest)
    ensures Decode("&#39;" + rest) == "'" + Decode(rest)
    ensures Decode("&#x27;" + rest) == "'" + Decode(rest)
    ensures Decode("&lt;" + rest) == "<" + Decode(rest)
    ensures Decode("&gt;" + rest) == ">" + Decode(rest)
    ensures Decode("&amp;" + rest) == "&" + Decode(rest)
    ensures c != '&' ==> Decode([c] + rest) == [c] + Decode(rest)
  {
    DecodeIsSinglePass("");
    DecodesTo(0, rest);
    DecodesTo(1, rest);
    DecodesTo(2, rest);
    DecodesTo(3, rest);
    DecodesTo(4, rest);
    DecodesTo(5, rest);
    if c != '&' {
      PlainStays(c, rest);
    }
  }

  lemma DecodesTo(e: nat, rest: Text)
    requires e < 6
    ensures Decode(ENTITIES[e].0 + rest) == [ENTITIES[e].1] + Decode(rest)
  {
    var s := ENTITIES[e].0 + rest;
    DecodeIsSinglePass(s);
    DecodeIsSinglePass(rest);
    EntityUnique(s, e);
    assert s[|ENTITIES[e].0|..] == rest;
  }

  lemma {:induction false} NoEntity(s: Text, k: nat)
    requires s != [] && s[0] != '&' && k <= 6
    ensures EntityAt(s, k) == 6
    decreases 6 - k
  {
    if k < 6 {
      EntityShape(k);
      NoEntity(s, k + 1);
    }
  }

  lemma PlainStays(c: char, rest: Text)
    requires c != '&'
    ensures Decode([c] + rest) == [c] + Decode(rest)
  {
    var s := [c] + rest;
    DecodeIsSinglePass(s);
    DecodeIsSinglePass(rest);
    NoEntity(s, 0);
    assert s[1..] == rest;
  }
}
