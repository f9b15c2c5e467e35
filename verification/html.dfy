/**
 * HTML escaping as Go's `html.EscapeString` does it: exactly the five
 * characters `<`, `>`, `&`, `'` and `"` are replaced by entities, everything
 * else is copied. `Unescape` decodes those five entities and is the partner
 * the escaping is proved against.
 */
module Html {
  import opened Wrappers

  /** The characters `html.EscapeString` replaces. */
  predicate Special(c: char) {
    c == '<' || c == '>' || c == '&' || c == '\'' || c == '"'
  }

  /** Characters that open markup or an attribute value; none survives escaping. */
  predicate Markup(c: char) {
    c == '<' || c == '>' || c == '\'' || c == '"'
  }

  function EscapeChar(c: char): (r: string)
    ensures |r| > 0 && (r[0] == '&' <==> Special(c))
    ensures forall i :: 0 <= i < |r| ==> !Markup(r[i])
  {
    match c
    case '<' => "&lt;"
    case '>' => "&gt;"
    case '&' => "&amp;"
    case '\'' => "&#39;"
    case '"' => "&#34;"
    case _ => [c]
  }

  /**
   * Every `&` in `s` opens one of the five entities `Escape` writes, so no
   * other character reference can appear in the text.
   */
  predicate AmpersandsOpenEntities(s: string) {
    forall i :: 0 <= i < |s| && s[i] == '&' ==> EntityAt(s[i..]).Some?
  }

  /** `html.EscapeString`. */
  function Escape(s: string): (r: string)
    ensures |r| >= |s|
    ensures forall i :: 0 <= i < |r| ==> !Markup(r[i])
    ensures (forall i :: 0 <= i < |s| ==> !Special(s[i])) ==> r == s
    ensures Unescape(r) == s
    decreases |s|
  {
    if s == [] then ""
    else
      var head := EscapeChar(s[0]);
      var tail := Escape(s[1..]);
      UnescapeEscapeChar(s[0], tail);
      assert forall i :: 0 <= i < |tail| ==> (head + tail)[|head| + i] == tail[i];
      assert s == [s[0]] + s[1..];
      head + tail
  }

  /** The character an entity at the front of `s` stands for, and the entity's length. */
  function EntityAt(s: string): Option<(char, nat)>
  {
    if |s| >= 4 && s[..4] == "&lt;" then Some(('<', 4))
    else if |s| >= 4 && s[..4] == "&gt;" then Some(('>', 4))
    else if |s| >= 5 && s[..5] == "&amp;" then Some(('&', 5))
    else if |s| >= 5 && s[..5] == "&#39;" then Some(('\'', 5))
    else if |s| >= 5 && s[..5] == "&#34;" then Some(('"', 5))
    else None
  }

  /** Replaces each of the five entities `Escape` produces by its character. */
  function Unescape(s: string): string
    decreases |s|
  {
    if s == [] then ""
    else if s[0] != '&' then [s[0]] + Unescape(s[1..])
    else
      match EntityAt(s)
      case Some((c, n)) => if n <= |s| then [c] + Unescape(s[n..]) else ""
      case None => [s[0]] + Unescape(s[1..])
  }

  lemma UnescapeEscapeChar(c: char, t: string)
    ensures Unescape(EscapeChar(c) + t) == [c] + Unescape(t)
  {
    var s := EscapeChar(c) + t;
    assert s[..|EscapeChar(c)|] == EscapeChar(c);
    assert s[|EscapeChar(c)|..] == t;
    if !Special(c) {
      assert s[0] == c;
      assert s[1..] == t;
    } else if c == '<' {
      assert s[..4] == "&lt;";
    } else if c == '>' {
      assert s[..4] == "&gt;";
      assert s[..4][1] == 'g';
    } else if c == '&' {
      assert s[..5] == "&amp;";
      assert s[..4][1] == 'a';
    } else if c == '\'' {
      assert s[..5] == "&#39;";
      assert s[..4][1] == '#';
      assert s[..5][3] == '9';
    } else {
      assert s[..5] == "&#34;";
      assert s[..4][1] == '#';
      assert s[..5][2] == '3';
      assert s[..5][3] == '4';
    }
  }

  /** An escaped character in front keeps every `&` at the start of an entity. */
  lemma EntitiesPrepend(c: char, tail: string)
    requires AmpersandsOpenEntities(tail)
    ensures AmpersandsOpenEntities(EscapeChar(c) + tail)
  {
    var head := EscapeChar(c);
    var s := head + tail;
    forall i | 0 <= i < |s| && s[i] == '&'
      ensures EntityAt(s[i..]).Some?
    {
      if i >= |head| {
        assert s[i..] == tail[i - |head|..];
        assert tail[i - |head|] == s[i];
      } else {
        assert s[i] == head[i];
        if i == 0 {
          assert s[..|head|] == head;
          if c == '<' {
            assert s[..4] == "&lt;";
          } else if c == '>' {
            assert s[..4] == "&gt;";
          } else if c == '&' {
            assert s[..5] == "&amp;";
          } else if c == '\'' {
            assert s[..5] == "&#39;";
          } else {
            assert s[..5] == "&#34;";
          }
          assert s[0..] == s;
        }
      }
    }
  }

  /**
   * Escaping leaves no bare `&`: each one starts an entity, so the output
   * holds no character reference other than the five `Escape` writes.
   */
  lemma {:induction false} EscapeOpensEntities(s: string)
    ensures AmpersandsOpenEntities(Escape(s))
    decreases |s|
  {
    if s != [] {
      EscapeOpensEntities(s[1..]);
      EntitiesPrepend(s[0], Escape(s[1..]));
      assert Escape(s) == EscapeChar(s[0]) + Escape(s[1..]);
    }
  }

  /** Text without `&` passes through `Unescape` unchanged, whatever follows it. */
  lemma {:induction false} UnescapePlain(a: string, b: string)
    requires forall i :: 0 <= i < |a| ==> a[i] != '&'
    ensures Unescape(a + b) == a + Unescape(b)
    decreases |a|
  {
    if a != [] {
      var s := a + b;
      assert s[0] == a[0];
      assert s[1..] == a[1..] + b;
      UnescapePlain(a[1..], b);
      assert [a[0]] + (a[1..] + Unescape(b)) == a + Unescape(b);
    } else {
      assert a + b == b;
    }
  }

  /** Escaping is one-to-one: different texts never render the same. */
  lemma EscapeInjective(s: string, t: string)
    requires Escape(s) == Escape(t)
    ensures s == t
  {
  }
}
