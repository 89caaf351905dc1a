/** The string operations the chat page applies to an utterance: JavaScript's
    `toLowerCase`, `trim`, the `replace(/[^\w\s]/g, "")` deletion and `includes`. */
module Text {

  /** JavaScript's `\s` class, which is also the set of characters `trim` removes:
      the ECMAScript WhiteSpace and LineTerminator characters. */
  predicate IsSpace(c: char) {
    c == ' ' || c == '\t' || c == '\n' || c == '\r' || c == '\U{000B}' || c == '\U{000C}'
    || c == '\U{00A0}' || c == '\U{1680}' || ('\U{2000}' <= c <= '\U{200A}')
    || c == '\U{2028}' || c == '\U{2029}' || c == '\U{202F}' || c == '\U{205F}'
    || c == '\U{3000}' || c == '\U{FEFF}'
  }

  /** JavaScript's `\w` class (a regular expression without the `u` flag). */
  predicate IsWordChar(c: char) {
    'a' <= c <= 'z' || 'A' <= c <= 'Z' || '0' <= c <= '9' || c == '_'
  }

  predicate IsUpper(c: char) {
    'A' <= c <= 'Z'
  }

  function LowerChar(c: char): (d: char)
    ensures !IsUpper(d)
    ensures IsUpper(c) ==> d as int == c as int + 32
    ensures !IsUpper(c) ==> d == c
  {
    if IsUpper(c) then (c as int + 32) as char else c
  }

  /** `s.toLowerCase()`, for the ASCII letters. */
  function ToLower(s: string): (r: string)
    ensures |r| == |s|
    ensures forall i :: 0 <= i < |r| ==> !IsUpper(r[i])
    ensures forall i :: 0 <= i < |s| && !IsUpper(s[i]) ==> r[i] == s[i]
    ensures forall i :: 0 <= i < |s| && IsUpper(s[i]) ==> r[i] as int == s[i] as int + 32
  {
    seq(|s|, i requires 0 <= i < |s| => LowerChar(s[i]))
  }

  /** Leading whitespace removed. */
  function TrimStart(s: string): (r: string)
    ensures |r| <= |s| && r == s[|s| - |r|..]
    ensures r == [] || !IsSpace(r[0])
    ensures forall i :: 0 <= i < |s| - |r| ==> IsSpace(s[i])
    decreases |s|
  {
    if |s| > 0 && IsSpace(s[0]) then TrimStart(s[1..]) else s
  }

  /** Trailing whitespace removed. */
  function TrimEnd(s: string): (r: string)
    ensures |r| <= |s| && r == s[..|r|]
    ensures r == [] || !IsSpace(r[|r| - 1])
    ensures forall i :: |r| <= i < |s| ==> IsSpace(s[i])
    decreases |s|
  {
    if |s| > 0 && IsSpace(s[|s| - 1]) then TrimEnd(s[..|s| - 1]) else s
  }

  /** `s.trim()`: the longest slice of `s` that neither starts nor ends with whitespace. */
  function Trim(s: string): (r: string)
    ensures |r| <= |s|
    ensures r == [] || (!IsSpace(r[0]) && !IsSpace(r[|r| - 1]))
    ensures r == [] <==> forall i :: 0 <= i < |s| ==> IsSpace(s[i])
    ensures s == [] || (!IsSpace(s[0]) && !IsSpace(s[|s| - 1])) ==> r == s
  {
    TrimEnd(TrimStart(s))
  }

  /** The characters that `replace(/[^\w\s]/g, "")` keeps. */
  predicate Kept(c: char) {
    IsWordChar(c) || IsSpace(c)
  }

  /** `s.replace(/[^\w\s]/g, "")`: every character outside `\w` and `\s` deleted. */
  function StripNonWord(s: string): (r: string)
    ensures |r| <= |s|
    ensures forall i :: 0 <= i < |r| ==> Kept(r[i]) && r[i] in s
    ensures (forall i :: 0 <= i < |s| ==> Kept(s[i])) ==> r == s
  {
    if s == [] then []
    else (if Kept(s[0]) then [s[0]] else []) + StripNonWord(s[1..])
  }

  /** What `TrimEnd` keeps of a suffix `s[a..]` of `s` is a slice of `s`, and what it removes
      is whitespace of `s`. */
  lemma TrimEndOfSuffix(s: string, a: nat, front: string)
    requires a <= |s| && front == s[a..]
    ensures a + |TrimEnd(front)| <= |s| && TrimEnd(front) == s[a..a + |TrimEnd(front)|]
    ensures forall i :: a + |TrimEnd(front)| <= i < |s| ==> IsSpace(s[i])
  {
    var r := TrimEnd(front);
    assert r == front[..|r|] == s[a..a + |r|];
    forall i | a + |r| <= i < |s|
      ensures IsSpace(s[i])
    {
      assert s[i] == front[i - a];
    }
  }

  /** `trim` removes only edge whitespace: its result is the slice `s[a..b]`, and everything
      before and after that slice is whitespace. */
  lemma TrimIsSlice(s: string) returns (a: nat, b: nat)
    ensures a <= b <= |s| && Trim(s) == s[a..b]
    ensures forall i :: 0 <= i < a ==> IsSpace(s[i])
    ensures forall i :: b <= i < |s| ==> IsSpace(s[i])
  {
    var front := TrimStart(s);
    a := |s| - |front|;
    TrimEndOfSuffix(s, a, front);
    b := a + |TrimEnd(front)|;
    assert Trim(s) == TrimEnd(front);
  }

  /** Whitespace around a word that neither starts nor ends with whitespace is what `trim`
      removes. */
  lemma {:induction false} TrimPadded(pre: string, core: string, post: string)
    requires forall i :: 0 <= i < |pre| ==> IsSpace(pre[i])
    requires forall i :: 0 <= i < |post| ==> IsSpace(post[i])
    requires core != [] && !IsSpace(core[0]) && !IsSpace(core[|core| - 1])
    ensures Trim(pre + core + post) == core
    decreases |pre| + |post|
  {
    var s := pre + core + post;
    if pre != [] {
      assert s[0] == pre[0] && s[1..] == pre[1..] + core + post;
      TrimPadded(pre[1..], core, post);
      assert TrimStart(s) == TrimStart(s[1..]);
    } else if post != [] {
      var n := |post|;
      assert s == core + post;
      assert s[|s| - 1] == post[n - 1] && s[..|s| - 1] == [] + core + post[..n - 1];
      TrimPadded([], core, post[..n - 1]);
      TrimEndStart(s);
    } else {
      assert s == core;
    }
  }

  /** On a string that does not start with whitespace, trimming the last character first
      and trimming the end alone agree. */
  lemma TrimEndStart(s: string)
    requires |s| > 0 && IsSpace(s[|s| - 1])
    requires |s| == 1 || !IsSpace(s[0])
    ensures Trim(s) == Trim(s[..|s| - 1])
  {
    if |s| == 1 {
      assert TrimStart(s) == TrimStart(s[1..]);
    } else {
      assert TrimStart(s) == s;
      assert TrimStart(s[..|s| - 1]) == s[..|s| - 1];
    }
  }

  /** The deletion works character by character: on two pieces it is the deletion on each. */
  lemma {:induction false} StripAppend(x: string, y: string)
    ensures StripNonWord(x + y) == StripNonWord(x) + StripNonWord(y)
  {
    if x != [] {
      assert (x + y)[0] == x[0] && (x + y)[1..] == x[1..] + y;
      StripAppend(x[1..], y);
    } else {
      assert x + y == y;
    }
  }

  /** A single character survives the deletion exactly when it is a word or whitespace
      character. */
  lemma StripOne(c: char)
    ensures StripNonWord([c]) == if Kept(c) then [c] else []
  {
    assert [c][1..] == [];
  }

  /** A character outside `\w` and `\s` between word and whitespace characters is deleted
      and nothing else is: `"let's go"` becomes `"lets go"`. */
  lemma StripDropsOne(x: string, c: char, y: string)
    requires forall i :: 0 <= i < |x| ==> Kept(x[i])
    requires forall i :: 0 <= i < |y| ==> Kept(y[i])
    requires !Kept(c)
    ensures StripNonWord(x + [c] + y) == x + y
  {
    StripAppend(x + [c], y);
    StripAppend(x, [c]);
    StripOne(c);
  }

  lemma LowerLetsGo()
    ensures ToLower("Let's go") == "let's go"
  {
  }

  lemma StripLetsGo()
    ensures StripNonWord("let's go") == "lets go"
  {
    assert "let's go" == "let" + ['\''] + "s go";
    StripDropsOne("let", '\'', "s go");
    assert "let" + "s go" == "lets go";
  }

  lemma LetsGoEdges()
    ensures var lets := "lets go"; !IsSpace(lets[0]) && !IsSpace(lets[|lets| - 1])
  {
  }

  /** A message whose lower-cased, stripped form has no edge whitespace normalises to that
      form. */
  lemma NormalizeUntrimmed(msg: string, stripped: string)
    requires StripNonWord(ToLower(msg)) == stripped
    requires stripped != [] && !IsSpace(stripped[0]) && !IsSpace(stripped[|stripped| - 1])
    ensures Normalize(msg) == stripped
  {
  }

  /** The chat page's normal form of "Let's go" is "lets go", so the phrase "lets go" of the
      start question can match. */
  lemma LetsGoNormalizes()
    ensures Normalize("Let's go") == "lets go"
  {
    LowerLetsGo();
    StripLetsGo();
    LetsGoEdges();
    NormalizeUntrimmed("Let's go", "lets go");
  }

  /** The deletion introduces no upper-case letter. */
  lemma {:induction false} StripKeepsLower(s: string)
    requires forall i :: 0 <= i < |s| ==> !IsUpper(s[i])
    ensures forall i :: 0 <= i < |StripNonWord(s)| ==> !IsUpper(StripNonWord(s)[i])
  {
    if s != [] {
      StripKeepsLower(s[1..]);
    }
  }

  /** `trim` takes its characters from its input. */
  lemma TrimmedChars(s: string)
    requires forall i :: 0 <= i < |s| ==> Kept(s[i]) && !IsUpper(s[i])
    ensures forall c :: c in Trim(s) ==> Kept(c) && !IsUpper(c)
  {
    var a, b := TrimIsSlice(s);
    var r := Trim(s);
    forall c | c in r
      ensures Kept(c) && !IsUpper(c)
    {
      var i :| 0 <= i < |r| && r[i] == c;
      assert r[i] == s[a + i];
    }
  }

  /** Every character of a string normalised as the chat page does it is a lower-case word
      character or whitespace, and the result has no edge whitespace. */
  lemma NormalFormFacts(msg: string)
    ensures var r := Trim(StripNonWord(ToLower(msg)));
      && |r| <= |msg|
      && (r == [] || (!IsSpace(r[0]) && !IsSpace(r[|r| - 1])))
      && forall c :: c in r ==> Kept(c) && !IsUpper(c)
  {
    var lowered := ToLower(msg);
    StripKeepsLower(lowered);
    TrimmedChars(StripNonWord(lowered));
  }

  /** The normalised utterance of the chat page, `msg.toLowerCase().replace(/[^\w\s]/g,
      "").trim()`: no longer than the message, without edge whitespace, and made only of
      lower-case word characters and whitespace. */
  function Normalize(msg: string): (r: string)
    ensures |r| <= |msg|
    ensures r == [] || (!IsSpace(r[0]) && !IsSpace(r[|r| - 1]))
    ensures forall c :: c in r ==> Kept(c) && !IsUpper(c)
  {
    NormalFormFacts(msg);
    Trim(StripNonWord(ToLower(msg)))
  }

  /** A word of lower-case letters is its own normalised form, and its own trimmed form. */
  lemma LowerWordIsNormal(w: string)
    requires forall i :: 0 <= i < |w| ==> 'a' <= w[i] <= 'z'
    ensures Trim(w) == w && Normalize(w) == w
  {
    assert forall i :: 0 <= i < |w| ==> !IsUpper(w[i]) && !IsSpace(w[i]) && Kept(w[i]);
    assert ToLower(w) == w;
    assert StripNonWord(w) == w;
  }

  /** `s.includes(p)`, as a scan from the left. */
  function Contains(s: string, p: string): bool
    decreases |s|
  {
    if p <= s then true
    else if |s| == 0 then false
    else Contains(s[1..], p)
  }

  /** The scan finds `p` exactly when `p` occurs in `s` at some offset. */
  /** A string occurs in any text it is placed in. */
  lemma ContainsMiddle(before: string, p: string, after: string)
    ensures Contains(before + p + after, p)
  {
    var s := before + p + after;
    ContainsIffOccurs(s, p);
    assert s[|before|..][..|p|] == p;
  }

  lemma {:induction false} ContainsIffOccurs(s: string, p: string)
    ensures Contains(s, p) <==> exists i :: 0 <= i <= |s| - |p| && p <= s[i..]
    decreases |s|
  {
    if p <= s {
      assert s[0..] == s;
    } else if |s| > 0 {
      ContainsIffOccurs(s[1..], p);
      if Contains(s[1..], p) {
        var j :| 0 <= j <= |s| - 1 - |p| && p <= s[1..][j..];
        assert s[1..][j..] == s[j + 1..];
      }
      if exists i :: 0 <= i <= |s| - |p| && p <= s[i..] {
        var j :| 0 <= j <= |s| - |p| && p <= s[j..];
        assert j != 0;
        assert s[1..][j - 1..] == s[j..];
      }
    }
  }

  /** `phrases.some(p => s.includes(p))`. */
  function ContainsAny(s: string, phrases: seq<string>): bool
  {
    if phrases == [] then false else Contains(s, phrases[0]) || ContainsAny(s, phrases[1..])
  }

  /** The phrase test succeeds exactly when one of the phrases occurs in `s`. */
  lemma {:induction false} ContainsAnyIffSome(s: string, phrases: seq<string>)
    ensures ContainsAny(s, phrases) <==> exists k :: 0 <= k < |phrases| && Contains(s, phrases[k])
  {
    if phrases != [] {
      ContainsAnyIffSome(s, phrases[1..]);
      if ContainsAny(s, phrases[1..]) {
        var j :| 0 <= j < |phrases| - 1 && Contains(s, phrases[1..][j]);
        assert phrases[1..][j] == phrases[j + 1];
      }
      if exists k :: 1 <= k < |phrases| && Contains(s, phrases[k]) {
        var j :| 1 <= j < |phrases| && Contains(s, phrases[j]);
        assert phrases[1..][j - 1] == phrases[j];
      }
    }
  }

  /** A string in which character `c` does not occur contains no phrase in which it occurs:
      an occurrence of `p` in `s` puts every character of `p` into `s`. */
  lemma {:induction false} NoContainsWithout(s: string, p: string, c: char)
    requires c in p && c !in s
    ensures !Contains(s, p)
  {
    ContainsIffOccurs(s, p);
    forall i | 0 <= i <= |s| - |p|
      ensures !(p <= s[i..])
    {
      var k :| 0 <= k < |p| && p[k] == c;
      assert s[i + k] !in p[k..k + 1];
    }
  }
}
