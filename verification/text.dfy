/**
  String operations the source performs through JavaScript built-ins: the white-space
  class `\s` and `String.prototype.trim` (they share one character set), `replace(/\s/g, '')`,
  `Array.prototype.join`, and substring containment for stating what a built text holds.
 */
module Text {
  import opened Seqs

  /**
    The characters ECMAScript counts as WhiteSpace or LineTerminator: tab, line feed,
    vertical tab, form feed, carriage return, space, no-break space, the Unicode space
    separators, line and paragraph separator, and the byte-order mark.
   */
  predicate IsWhitespace(c: char) {
    || c == '\t' || c == '\n' || c == '\U{000B}' || c == '\U{000C}' || c == '\r'
    || c == ' ' || c == '\U{00A0}' || c == '\U{1680}'
    || ('\U{2000}' <= c <= '\U{200A}')
    || c == '\U{2028}' || c == '\U{2029}' || c == '\U{202F}' || c == '\U{205F}'
    || c == '\U{3000}' || c == '\U{FEFF}'
  }

  predicate NotWhitespace(c: char) {
    !IsWhitespace(c)
  }

  predicate AllWhitespace(s: string) {
    forall i :: 0 <= i < |s| ==> IsWhitespace(s[i])
  }

  predicate NoWhitespace(s: string) {
    forall i :: 0 <= i < |s| ==> !IsWhitespace(s[i])
  }

  // ---------------------------------------------------------------------------
  // replace(/\s/g, '')
  // ---------------------------------------------------------------------------

  /** `s.replace(/\s/g, '')`: every white-space character removed. */
  function RemoveWhitespace(s: string): (r: string)
    ensures NoWhitespace(r)
  {
    var r := Filter(s, NotWhitespace);
    FilterContents(s, NotWhitespace);
    assert forall i :: 0 <= i < |r| ==> r[i] in r;
    r
  }

  /** Removal works piece by piece: each non-white-space character stays, in its original order. */
  lemma RemoveWhitespaceAppend(a: string, b: string)
    ensures RemoveWhitespace(a + b) == RemoveWhitespace(a) + RemoveWhitespace(b)
  {
    FilterAppend(a, b, NotWhitespace);
  }

  lemma RemoveWhitespaceChar(c: char)
    ensures RemoveWhitespace([c]) == if IsWhitespace(c) then [] else [c]
  {
    assert [c][1..] == [];
  }

  /** White space between two pieces disappears as if the pieces had been written together. */
  lemma RemoveWhitespaceSkips(a: string, w: string, b: string)
    requires AllWhitespace(w)
    ensures RemoveWhitespace(a + w + b) == RemoveWhitespace(a + b)
  {
    RemoveWhitespaceAppend(a + w, b);
    RemoveWhitespaceAppend(a, w);
    RemoveWhitespaceAppend(a, b);
    RemoveWhitespaceOfBlank(w);
  }

  lemma RemoveWhitespaceOfBlank(w: string)
    requires AllWhitespace(w)
    ensures RemoveWhitespace(w) == []
  {
    var gone := Filter(w, NotWhitespace);
    FilterContents(w, NotWhitespace);
    if gone != [] {
      assert gone[0] in gone;
    }
  }

  /** Exactly the non-white-space characters of `s` occur in the result. */
  lemma RemoveWhitespaceKeeps(s: string)
    ensures forall c :: c in RemoveWhitespace(s) <==> c in s && !IsWhitespace(c)
  {
    FilterContents(s, NotWhitespace);
  }

  /** A string without white space is left exactly as it is. */
  lemma RemoveWhitespaceKeepsClean(s: string)
    requires NoWhitespace(s)
    ensures RemoveWhitespace(s) == s
  {
    FilterKeepsAll(s, NotWhitespace);
  }

  /** Removing white space twice is the same as removing it once. */
  lemma RemoveWhitespaceIdempotent(s: string)
    ensures RemoveWhitespace(RemoveWhitespace(s)) == RemoveWhitespace(s)
  {
    RemoveWhitespaceKeepsClean(RemoveWhitespace(s));
  }

  // ---------------------------------------------------------------------------
  // trim()
  // ---------------------------------------------------------------------------

  function TrimStart(s: string): string {
    if s != [] && IsWhitespace(s[0]) then TrimStart(s[1..]) else s
  }

  function TrimEnd(s: string): string {
    if s != [] && IsWhitespace(s[|s| - 1]) then TrimEnd(s[..|s| - 1]) else s
  }

  /** `s.trim()`: leading and trailing white space removed. */
  function Trim(s: string): string {
    TrimEnd(TrimStart(s))
  }

  /** `trimStart` drops a leading run of white space and keeps the rest, which does not start with white space. */
  lemma {:induction false} TrimStartShape(s: string)
    ensures |TrimStart(s)| <= |s| && TrimStart(s) == s[|s| - |TrimStart(s)|..]
    ensures AllWhitespace(s[..|s| - |TrimStart(s)|])
    ensures TrimStart(s) == [] || !IsWhitespace(TrimStart(s)[0])
  {
    if s != [] && IsWhitespace(s[0]) {
      var t := s[1..];
      TrimStartShape(t);
      var r := TrimStart(t);
      assert TrimStart(s) == r;
      assert t[|t| - |r|..] == s[|s| - |r|..];
      forall i | 0 <= i < |s| - |r| ensures IsWhitespace(s[i]) {
        if i > 0 {
          assert s[i] == t[..|t| - |r|][i - 1];
        }
      }
      assert AllWhitespace(s[..|s| - |r|]);
    }
  }

  /** `trimEnd` drops a trailing run of white space and keeps the rest, which does not end with white space. */
  lemma {:induction false} TrimEndShape(s: string)
    ensures |TrimEnd(s)| <= |s| && TrimEnd(s) == s[..|TrimEnd(s)|]
    ensures AllWhitespace(s[|TrimEnd(s)|..])
    ensures TrimEnd(s) == [] || !IsWhitespace(TrimEnd(s)[|TrimEnd(s)| - 1])
  {
    if s != [] && IsWhitespace(s[|s| - 1]) {
      var t := s[..|s| - 1];
      TrimEndShape(t);
      var r := TrimEnd(t);
      assert TrimEnd(s) == r;
      assert t[..|r|] == s[..|r|];
      forall i | |r| <= i < |s| ensures IsWhitespace(s[i]) {
        if i < |s| - 1 {
          assert s[i] == t[|r|..][i - |r|];
        }
      }
      assert AllWhitespace(s[|r|..]);
    }
  }

  /**
    `trim` keeps the middle of `s` between a leading and a trailing run of white space; what it
    keeps neither starts nor ends with white space.
   */
  lemma TrimShape(s: string)
    ensures exists k :: 0 <= k <= |s| - |Trim(s)| && Trim(s) == s[k..k + |Trim(s)|] &&
                        AllWhitespace(s[..k]) && AllWhitespace(s[k + |Trim(s)|..])
    ensures Trim(s) == [] || (!IsWhitespace(Trim(s)[0]) && !IsWhitespace(Trim(s)[|Trim(s)| - 1]))
  {
    var u := TrimStart(s);
    var r := TrimEnd(u);
    TrimStartShape(s);
    TrimEndShape(u);
    var k := |s| - |u|;
    assert r == s[k..k + |r|];
    assert s[k + |r|..] == u[|r|..];
    assert r != [] ==> r[0] == u[0];
  }

  /** `!s.trim()`: the guard the chat widget puts on sending. */
  predicate IsBlank(s: string) {
    Trim(s) == ""
  }

  lemma {:induction false} TrimStartEmpty(s: string)
    ensures TrimStart(s) == [] <==> AllWhitespace(s)
  {
    if s != [] && IsWhitespace(s[0]) {
      TrimStartEmpty(s[1..]);
      assert AllWhitespace(s) <==> AllWhitespace(s[1..]) by {
        if AllWhitespace(s[1..]) {
          forall i | 0 <= i < |s| ensures IsWhitespace(s[i]) {
            if i > 0 { assert s[i] == s[1..][i - 1]; }
          }
        }
      }
    }
  }

  lemma {:induction false} TrimEndKeepsNonBlankHead(s: string)
    requires s != [] && !IsWhitespace(s[0])
    ensures TrimEnd(s) != []
  {
    if IsWhitespace(s[|s| - 1]) {
      TrimEndKeepsNonBlankHead(s[..|s| - 1]);
    }
  }

  lemma TrimStartHead(s: string)
    ensures TrimStart(s) == [] || !IsWhitespace(TrimStart(s)[0])
  {
  }

  /** A string is blank exactly when it consists of white space only (the empty string included). */
  lemma BlankIffAllWhitespace(s: string)
    ensures IsBlank(s) <==> AllWhitespace(s)
  {
    TrimStartEmpty(s);
    TrimStartHead(s);
    if TrimStart(s) != [] {
      TrimEndKeepsNonBlankHead(TrimStart(s));
    }
  }

  // ---------------------------------------------------------------------------
  // join(sep)
  // ---------------------------------------------------------------------------

  /** `parts.join(sep)`: the parts in order with `sep` between neighbours, "" for no parts. */
  function Join(parts: seq<string>, sep: string): string {
    if |parts| == 0 then ""
    else if |parts| == 1 then parts[0]
    else parts[0] + sep + Join(parts[1..], sep)
  }

  /** Joining two non-empty runs puts exactly one separator between them. */
  lemma {:induction false} JoinAppend(a: seq<string>, b: seq<string>, sep: string)
    requires a != [] && b != []
    ensures Join(a + b, sep) == Join(a, sep) + sep + Join(b, sep)
  {
    if |a| == 1 {
      assert (a + b)[1..] == b;
    } else {
      assert (a + b)[1..] == a[1..] + b;
      JoinAppend(a[1..], b, sep);
    }
  }

  // ---------------------------------------------------------------------------
  // Containment
  // ---------------------------------------------------------------------------

  /** `x` occurs in `s` as a contiguous piece. */
  ghost predicate Contains(s: string, x: string) {
    exists i, j :: 0 <= i <= j <= |s| && s[i..j] == x
  }

  lemma ContainsMiddle(a: string, x: string, b: string)
    ensures Contains(a + x + b, x)
  {
    assert (a + x + b)[|a|..|a| + |x|] == x;
  }

  lemma ContainsTransitive(s: string, x: string, y: string)
    requires Contains(s, x) && Contains(x, y)
    ensures Contains(s, y)
  {
    var i, i' :| 0 <= i <= i' <= |s| && s[i..i'] == x;
    var j, j' :| 0 <= j <= j' <= |x| && x[j..j'] == y;
    assert s[i + j..i + j'] == x[j..j'] by {
      forall k | 0 <= k < j' - j ensures s[i + j..i + j'][k] == x[j..j'][k] {
        assert s[i + j + k] == s[i..i'][j + k];
        assert x[j..j'][k] == x[j + k];
      }
    }
  }

  /** Every part occurs in the joined string. */
  lemma {:induction false} JoinContainsPart(parts: seq<string>, sep: string, k: nat)
    requires k < |parts|
    ensures Contains(Join(parts, sep), parts[k])
  {
    if |parts| == 1 {
      ContainsMiddle("", parts[0], "");
      assert "" + parts[0] + "" == parts[0];
    } else if k == 0 {
      ContainsMiddle("", parts[0], sep + Join(parts[1..], sep));
      assert "" + parts[0] + (sep + Join(parts[1..], sep)) == Join(parts, sep);
    } else {
      JoinContainsPart(parts[1..], sep, k - 1);
      var rest := Join(parts[1..], sep);
      ContainsMiddle(parts[0] + sep, rest, "");
      assert parts[0] + sep + rest + "" == Join(parts, sep);
      ContainsTransitive(Join(parts, sep), rest, parts[k]);
    }
  }
}
