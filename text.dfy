/** String helpers with JavaScript semantics: `trim`, `substring(0, n)`,
    `join("\n")` and `split("\n")`, with the facts the rest of the model needs. */
module Text {

  /** The characters JavaScript's String.prototype.trim removes: the
      WhiteSpace and LineTerminator code points of ECMAScript. */
  const WhitespaceChars: set<char> := {
    ' ', '\t', '\n', '\r', '\U{000B}', '\U{000C}', '\U{00A0}', '\U{FEFF}', '\U{1680}',
    '\U{2000}', '\U{2001}', '\U{2002}', '\U{2003}', '\U{2004}', '\U{2005}',
    '\U{2006}', '\U{2007}', '\U{2008}', '\U{2009}', '\U{200A}',
    '\U{2028}', '\U{2029}', '\U{202F}', '\U{205F}', '\U{3000}'}

  predicate IsWhitespace(c: char) {
    c in WhitespaceChars
  }

  /** Every character of `s` is whitespace (JavaScript: `!s.trim()`). */
  predicate Blank(s: string) {
    s == [] || (IsWhitespace(s[0]) && Blank(s[1..]))
  }

  lemma {:induction false} BlankIffAllWhitespace(s: string)
    ensures Blank(s) <==> forall i | 0 <= i < |s| :: IsWhitespace(s[i])
  {
    if s != [] {
      BlankIffAllWhitespace(s[1..]);
      if forall i | 0 <= i < |s| :: IsWhitespace(s[i]) {
        forall i | 0 <= i < |s[1..]| ensures IsWhitespace(s[1..][i]) {
          assert s[1..][i] == s[i + 1];
        }
      }
      if Blank(s) {
        forall i | 0 <= i < |s| ensures IsWhitespace(s[i]) {
          if i > 0 {
            assert s[i] == s[1..][i - 1];
          }
        }
      }
    }
  }

  /** `s` with its leading whitespace removed. */
  function TrimStart(s: string): (r: string)
    ensures |r| <= |s| && r == s[|s| - |r|..]
    ensures r == [] || !IsWhitespace(r[0])
  {
    if s == [] || !IsWhitespace(s[0]) then s else TrimStart(s[1..])
  }

  /** What `TrimStart` removes is whitespace. */
  lemma {:induction false} TrimStartCutsWhitespace(s: string)
    ensures forall i | 0 <= i < |s| - |TrimStart(s)| :: IsWhitespace(s[i])
  {
    if s != [] && IsWhitespace(s[0]) {
      TrimStartCutsWhitespace(s[1..]);
      forall i | 0 < i < |s| - |TrimStart(s)| ensures IsWhitespace(s[i]) {
        assert s[i] == s[1..][i - 1];
      }
    }
  }

  /** `s` with its trailing whitespace removed. */
  function TrimEnd(s: string): (r: string)
    ensures |r| <= |s| && r == s[..|r|]
    ensures r == [] || !IsWhitespace(r[|r| - 1])
  {
    if s == [] || !IsWhitespace(s[|s| - 1]) then s else TrimEnd(s[..|s| - 1])
  }

  /** What `TrimEnd` removes is whitespace. */
  lemma {:induction false} TrimEndCutsWhitespace(s: string)
    ensures forall i | |TrimEnd(s)| <= i < |s| :: IsWhitespace(s[i])
  {
    if s != [] && !IsWhitespace(s[|s| - 1]) {
    } else if s != [] {
      var init := s[..|s| - 1];
      TrimEndCutsWhitespace(init);
      forall i | |TrimEnd(s)| <= i < |s| - 1 ensures IsWhitespace(s[i]) {
        assert s[i] == init[i];
      }
    }
  }

  /** JavaScript `s.trim()`. */
  function Trim(s: string): string {
    TrimEnd(TrimStart(s))
  }

  /** Where `Trim(s)` starts in `s`. */
  function TrimLo(s: string): nat {
    |s| - |TrimStart(s)|
  }

  /** `Trim(s)` is the piece of `s` from `TrimLo(s)` on. */
  lemma TrimIsSlice(s: string)
    ensures TrimLo(s) + |Trim(s)| <= |s|
    ensures Trim(s) == s[TrimLo(s)..TrimLo(s) + |Trim(s)|]
  {
    SliceOfSlice(s, TrimStart(s), Trim(s), TrimLo(s));
  }

  lemma SliceOfSlice<T>(s: seq<T>, a: seq<T>, t: seq<T>, lo: nat)
    requires lo <= |s| && a == s[lo..] && |t| <= |a| && t == a[..|t|]
    ensures lo + |t| <= |s| && t == s[lo..lo + |t|]
  {
    forall i | 0 <= i < |t| ensures t[i] == s[lo + i] {
      assert t[i] == a[i];
    }
  }

  /** What `trim` cuts off on the right is whitespace. */
  lemma TrimCutsWhitespaceRight(s: string)
    ensures TrimLo(s) + |Trim(s)| <= |s|
    ensures forall i | TrimLo(s) + |Trim(s)| <= i < |s| :: IsWhitespace(s[i])
  {
    var a := TrimStart(s);
    var lo := TrimLo(s);
    assert a == s[lo..];
    var t := TrimEnd(a);
    TrimEndCutsWhitespace(a);
    forall i | lo + |t| <= i < |s| ensures IsWhitespace(s[i]) {
      assert s[i] == a[i - lo];
    }
  }

  /** Neither end of a non-empty `Trim(s)` is whitespace. */
  lemma TrimEndsNotWhitespace(s: string)
    ensures Trim(s) == [] || (!IsWhitespace(Trim(s)[0]) && !IsWhitespace(Trim(s)[|Trim(s)| - 1]))
  {
    var a := TrimStart(s);
    var t := TrimEnd(a);
    if t != [] {
      assert t == a[..|t|];
      assert t[0] == a[0];
    }
  }

  /** `Trim(s)` is a contiguous piece of `s` whose ends are not whitespace
      and everything cut off on either side is whitespace. */
  lemma TrimShape(s: string)
    ensures TrimLo(s) + |Trim(s)| <= |s|
    ensures Trim(s) == s[TrimLo(s)..TrimLo(s) + |Trim(s)|]
    ensures forall i | 0 <= i < TrimLo(s) :: IsWhitespace(s[i])
    ensures forall i | TrimLo(s) + |Trim(s)| <= i < |s| :: IsWhitespace(s[i])
    ensures Trim(s) == [] || (!IsWhitespace(Trim(s)[0]) && !IsWhitespace(Trim(s)[|Trim(s)| - 1]))
  {
    TrimIsSlice(s);
    TrimStartCutsWhitespace(s);
    TrimCutsWhitespaceRight(s);
    TrimEndsNotWhitespace(s);
  }

  /** A string trims to the empty string exactly when it is all whitespace:
      the JavaScript guard `!s.trim()` holds exactly for blank strings. */
  lemma {:induction false} TrimEmptyIffBlank(s: string)
    ensures Trim(s) == [] <==> Blank(s)
  {
    BlankIffAllWhitespace(s);
    TrimShape(s);
    if Trim(s) != [] {
      assert s[TrimLo(s)] == Trim(s)[0];
    }
  }

  /** A non-whitespace character anywhere in `s` makes `Trim(s)` non-empty. */
  lemma NonWhitespaceSurvivesTrim(s: string, k: nat)
    requires k < |s| && !IsWhitespace(s[k])
    ensures Trim(s) != []
  {
    TrimEmptyIffBlank(s);
    BlankIffAllWhitespace(s);
  }

  /** Trimming twice is trimming once. */
  lemma {:induction false} TrimIdempotent(s: string)
    ensures Trim(Trim(s)) == Trim(s)
  {
    var t := Trim(s);
    TrimShape(s);
    if t != [] {
      assert TrimStart(t) == t;
      assert TrimEnd(t) == t;
    }
  }

  function Min(a: int, b: int): int {
    if a <= b then a else b
  }

  /** JavaScript `s.substring(0, n)` for `n >= 0`. */
  function Prefix(s: string, n: nat): (r: string)
    ensures |r| == Min(n, |s|) && r <= s
    ensures |s| <= n ==> r == s
  {
    s[..Min(n, |s|)]
  }

  /** JavaScript `lines.join("\n")`. */
  function Join(lines: seq<string>): string {
    if lines == [] then ""
    else if |lines| == 1 then lines[0]
    else lines[0] + "\n" + Join(lines[1..])
  }

  /** Joining a longer list puts one separator before the last line. */
  lemma {:induction false} JoinSnoc(lines: seq<string>, last: string)
    requires lines != []
    ensures Join(lines + [last]) == Join(lines) + "\n" + last
  {
    if |lines| == 1 {
      assert (lines + [last])[1..] == [last];
    } else {
      assert (lines + [last])[1..] == lines[1..] + [last];
      JoinSnoc(lines[1..], last);
    }
  }

  /** The first index of `c` in `s`, or `|s|` if there is none. */
  function IndexOf(s: string, c: char): (i: nat)
    ensures i <= |s|
    ensures forall j | 0 <= j < i :: s[j] != c
    ensures i < |s| ==> s[i] == c
  {
    if s == [] then 0 else if s[0] == c then 0 else 1 + IndexOf(s[1..], c)
  }

  /** JavaScript `s.split("\n")`. */
  function Split(s: string): (parts: seq<string>)
    ensures parts != []
    decreases |s|
  {
    var i := IndexOf(s, '\n');
    if i == |s| then [s] else [s[..i]] + Split(s[i + 1..])
  }

  /** Splitting undoes joining, for lines without a newline. */
  lemma {:induction false} SplitJoin(lines: seq<string>)
    requires lines != []
    requires forall k | 0 <= k < |lines| :: '\n' !in lines[k]
    ensures Split(Join(lines)) == lines
  {
    var l := lines[0];
    if |lines| == 1 {
      assert IndexOf(l, '\n') == |l|;
    } else {
      var s := Join(lines);
      assert s == l + "\n" + Join(lines[1..]);
      assert IndexOf(s, '\n') == |l| by {
        assert forall j | 0 <= j < |l| :: s[j] == l[j] && s[j] != '\n';
        assert s[|l|] == '\n';
      }
      assert s[..|l|] == l;
      assert s[|l| + 1..] == Join(lines[1..]);
      SplitJoin(lines[1..]);
    }
  }
}
