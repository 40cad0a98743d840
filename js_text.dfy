/** The two string operations the artifact cleaners use: a global regular
    expression made of literal alternatives, replaced by the empty string,
    and `String.prototype.trim`. */
module JsText {

  /** The Markdown code-fence marker. */
  const Fence := "```"

  predicate StartsWith(s: string, p: string)
  {
    |p| <= |s| && s[..|p|] == p
  }

  /** A list of literal alternatives that all open with a fence and include
      the bare fence itself, such as `/```json|```/` or `/```/`. */
  predicate FenceAlternatives(alts: seq<string>)
  {
    Fence in alts && forall a | a in alts :: StartsWith(a, Fence)
  }

  /** The length of the first alternative that matches at the start of `s`,
      or 0 when none does; the regex engine tries alternatives in order. */
  function MatchLength(s: string, alts: seq<string>): (m: nat)
    requires forall a | a in alts :: a != []
    ensures m <= |s|
    ensures m > 0 <==> exists a | a in alts :: StartsWith(s, a)
  {
    if alts == [] then 0
    else if StartsWith(s, alts[0]) then
      assert alts[0] in alts;
      |alts[0]|
    else
      assert forall a | a in alts[1..] :: a in alts;
      assert forall a | a in alts :: a == alts[0] || a in alts[1..];
      MatchLength(s, alts[1..])
  }

  /** `s.replace(/a0|a1|.../g, "")`: scanning left to right, a match is
      removed and the scan resumes after it; a character where nothing
      matches is kept. */
  function Erase(s: string, alts: seq<string>): string
    requires forall a | a in alts :: a != []
    decreases |s|
  {
    if s == [] then []
    else
      var m := MatchLength(s, alts);
      if m > 0 then Erase(s[m..], alts) else [s[0]] + Erase(s[1..], alts)
  }

  /** No fence starts at any position of `s`. */
  predicate NoFence(s: string)
    decreases |s|
  {
    |s| < 3 || (s[..3] != Fence && NoFence(s[1..]))
  }

  /** The characters `trim` removes: ECMAScript WhiteSpace (tab, vertical
      tab, form feed, space, no-break space, byte order mark and the Zs
      category) and LineTerminator (LF, CR, U+2028, U+2029). */
  predicate IsSpace(c: char)
  {
    || c == '\t' || c == '\n' || c == '\U{B}' || c == '\U{C}' || c == '\r'
    || c == ' ' || c == '\U{A0}' || c == '\U{1680}'
    || ('\U{2000}' <= c <= '\U{200A}')
    || c == '\U{2028}' || c == '\U{2029}' || c == '\U{202F}' || c == '\U{205F}'
    || c == '\U{3000}' || c == '\U{FEFF}'
  }

  /** `s.trimStart()`: a suffix of `s` that does not open with white space,
      all of whose dropped characters are white space. */
  function TrimStart(s: string): (r: string)
    ensures |r| <= |s| && r == s[|s| - |r|..]
    ensures r != [] ==> !IsSpace(r[0])
    ensures forall k | 0 <= k < |s| - |r| :: IsSpace(s[k])
    decreases |s|
  {
    if s != [] && IsSpace(s[0]) then TrimStart(s[1..]) else s
  }

  /** `s.trimEnd()`: a prefix of `s` that does not close with white space,
      all of whose dropped characters are white space. */
  function TrimEnd(s: string): (r: string)
    ensures |r| <= |s| && r == s[..|r|]
    ensures r != [] ==> !IsSpace(r[|r| - 1])
    ensures forall k | |r| <= k < |s| :: IsSpace(s[k])
    decreases |s|
  {
    if s != [] && IsSpace(s[|s| - 1]) then TrimEnd(s[..|s| - 1]) else s
  }

  /** `s.trim()`. */
  function Trim(s: string): string
  {
    TrimEnd(TrimStart(s))
  }

  lemma {:induction false} NoFenceSuffix(s: string, k: nat)
    requires NoFence(s) && k <= |s|
    ensures NoFence(s[k..])
    decreases k
  {
    if k > 0 && |s| >= 3 {
      NoFenceSuffix(s[1..], k - 1);
      assert s[1..][k - 1..] == s[k..];
    }
  }

  lemma {:induction false} NoFencePrefix(s: string, k: nat)
    requires NoFence(s) && k <= |s|
    ensures NoFence(s[..k])
    decreases |s|
  {
    if k >= 3 {
      NoFencePrefix(s[1..], k - 1);
      assert s[..k][..3] == s[..3];
      assert s[..k][1..] == s[1..][..k - 1];
    }
  }

  /** Trimming never creates a fence. */
  lemma TrimKeepsNoFence(s: string)
    requires NoFence(s)
    ensures NoFence(Trim(s))
  {
    var t := TrimStart(s);
    NoFenceSuffix(s, |s| - |t|);
    NoFencePrefix(t, |TrimEnd(t)|);
  }

  /** Text that neither opens nor closes with white space is left as it is. */
  lemma TrimOfSpaceFree(s: string)
    requires s == [] || (!IsSpace(s[0]) && !IsSpace(s[|s| - 1]))
    ensures Trim(s) == s
  {
  }

  /** Where no fence opens, no alternative matches and the first character
      is kept. */
  lemma KeepsHead(s: string, alts: seq<string>)
    requires FenceAlternatives(alts)
    requires s != [] && !StartsWith(s, Fence)
    ensures MatchLength(s, alts) == 0
    ensures Erase(s, alts) == [s[0]] + Erase(s[1..], alts)
  {
    forall a | a in alts ensures !StartsWith(s, a) {
      NotOpenedBy(s, a);
    }
  }

  /** Text that does not open with a fence does not open with anything
      that itself opens with a fence. */
  lemma NotOpenedBy(s: string, a: string)
    requires StartsWith(a, Fence) && !StartsWith(s, Fence)
    ensures !StartsWith(s, a)
  {
    assert |s| < |a| || s[..|a|][..3] == s[..3];
    assert a[..3] == Fence;
  }

  /** Where a fence opens, some alternative matches and is removed. */
  lemma DropsFence(s: string, alts: seq<string>)
    requires FenceAlternatives(alts)
    requires StartsWith(s, Fence)
    ensures MatchLength(s, alts) >= 3
    ensures Erase(s, alts) == Erase(s[MatchLength(s, alts)..], alts)
  {
    assert forall a | a in alts :: a != [] by {
      forall a | a in alts ensures a != [] { assert |a| >= 3; }
    }
    MatchAtLeastFence(s, alts);
  }

  lemma {:induction false} MatchAtLeastFence(s: string, alts: seq<string>)
    requires forall a | a in alts :: StartsWith(a, Fence)
    requires exists a | a in alts :: StartsWith(s, a)
    ensures forall a | a in alts :: a != []
    ensures MatchLength(s, alts) >= 3
    decreases |alts|
  {
    assert forall a | a in alts :: a != [] by {
      forall a | a in alts ensures a != [] { assert |a| >= 3; }
    }
    if !StartsWith(s, alts[0]) {
      assert exists a | a in alts[1..] :: StartsWith(s, a) by {
        var a :| a in alts && StartsWith(s, a);
        assert a != alts[0];
        assert a in alts[1..];
      }
      MatchAtLeastFence(s, alts[1..]);
    } else {
      assert alts[0] in alts;
    }
  }

  /** After erasing with fence alternatives, no fence is left anywhere. */
  lemma {:induction false} EraseLeavesNoFence(s: string, alts: seq<string>)
    requires FenceAlternatives(alts)
    ensures forall a | a in alts :: a != []
    ensures NoFence(Erase(s, alts))
    decreases |s|
  {
    assert forall a | a in alts :: a != [] by {
      forall a | a in alts ensures a != [] { assert |a| >= 3; }
    }
    if s == [] {
    } else if StartsWith(s, Fence) {
      DropsFence(s, alts);
      EraseLeavesNoFence(s[MatchLength(s, alts)..], alts);
    } else {
      KeepsHead(s, alts);
      EraseLeavesNoFence(s[1..], alts);
      NoFenceAfterKeptHead(s, alts);
    }
  }

  /** Keeping the first character of text that does not open with a fence
      cannot form a fence with the characters kept after it. */
  lemma NoFenceAfterKeptHead(s: string, alts: seq<string>)
    requires FenceAlternatives(alts)
    requires s != [] && !StartsWith(s, Fence)
    requires NoFence(Erase(s[1..], alts))
    ensures NoFence([s[0]] + Erase(s[1..], alts))
  {
    var rest := Erase(s[1..], alts);
    var r := [s[0]] + rest;
    assert r[1..] == rest;
    if s[0] != '`' {
      assert |r| < 3 || r[..3][0] != Fence[0];
    } else if |s| == 1 {
      assert rest == [];
    } else if s[1] != '`' {
      NextKept(s, alts);
      assert |r| < 3 || r[..3][1] != Fence[1];
    } else if |s| == 2 {
      LastKept(s, alts);
    } else {
      assert s[2] != '`' by { assert s[..3] != Fence; }
      NextTwoKept(s, alts);
      assert r[..3][2] != Fence[2];
    }
  }

  /** The character after a kept one is kept too when no fence opens there. */
  lemma NextKept(s: string, alts: seq<string>)
    requires FenceAlternatives(alts)
    requires |s| >= 2 && s[1] != '`'
    ensures Erase(s[1..], alts) != [] && Erase(s[1..], alts)[0] == s[1]
  {
    KeepsHead(s[1..], alts);
  }

  /** A lone second character is kept as it is. */
  lemma LastKept(s: string, alts: seq<string>)
    requires FenceAlternatives(alts)
    requires |s| == 2
    ensures |Erase(s[1..], alts)| == 1
  {
    assert !StartsWith(s[1..], Fence);
    KeepsHead(s[1..], alts);
    assert s[1..][1..] == [];
  }

  /** Two backticks followed by another character: the second and third
      characters are both kept. */
  lemma NextTwoKept(s: string, alts: seq<string>)
    requires FenceAlternatives(alts)
    requires |s| >= 3 && s[2] != '`'
    ensures |Erase(s[1..], alts)| >= 2 && Erase(s[1..], alts)[1] == s[2]
  {
    assert !StartsWith(s[1..], Fence);
    KeepsHead(s[1..], alts);
    assert s[1..][1..] == s[2..];
    assert !StartsWith(s[2..], Fence);
    KeepsHead(s[2..], alts);
  }

  /** Fence-free text passes through unchanged. */
  lemma {:induction false} EraseFenceFree(s: string, alts: seq<string>)
    requires forall a | a in alts :: StartsWith(a, Fence)
    requires NoFence(s)
    ensures forall a | a in alts :: a != []
    ensures Erase(s, alts) == s
    decreases |s|
  {
    assert forall a | a in alts :: a != [] by {
      forall a | a in alts ensures a != [] { assert |a| >= 3; }
    }
    if s != [] {
      forall a | a in alts ensures !StartsWith(s, a) {
        NotOpenedBy(s, a);
      }
      NoFenceSuffix(s, 1);
      EraseFenceFree(s[1..], alts);
    }
  }
  /** Alternatives too long to match within `s` leave it untouched. */
  lemma {:induction false} EraseShort(s: string, alts: seq<string>)
    requires forall a | a in alts :: |a| > |s|
    ensures forall a | a in alts :: a != []
    ensures Erase(s, alts) == s
    decreases |s|
  {
    if s != [] {
      EraseShort(s[1..], alts);
    }
  }

  /** When every alternative is longer than five characters, fence-free
      text followed by a closing fence keeps that fence. */
  lemma {:induction false} EraseMissesClosingFence(body: string, alts: seq<string>)
    requires forall a | a in alts :: StartsWith(a, Fence) && |a| > 5
    requires NoFence(body)
    ensures forall a | a in alts :: a != []
    ensures Erase(body + Fence, alts) == body + Fence
    decreases |body|
  {
    var t := body + Fence;
    if |t| <= 5 {
      EraseShort(t, alts);
    } else {
      assert t[..3] == body[..3];
      assert !StartsWith(t, Fence);
      forall a | a in alts ensures !StartsWith(t, a) {
        NotOpenedBy(t, a);
      }
      HeadAndTail(body, Fence);
      NoFenceSuffix(body, 1);
      EraseMissesClosingFence(body[1..], alts);
    }
  }

  /** Splitting a non-empty text off the front of a concatenation. */
  lemma HeadAndTail(body: string, tail: string)
    requires body != []
    ensures (body + tail)[0] == body[0]
    ensures (body + tail)[1..] == body[1..] + tail
    ensures [body[0]] + body[1..] == body
  {
  }

  /** Inside a run of at most five characters that opens with a fence, the
      bare fence is the alternative that matches when every other one is
      longer than five. */
  lemma {:induction false} OnlyFenceFits(t: string, alts: seq<string>)
    requires |t| <= 5 && StartsWith(t, Fence)
    requires Fence in alts
    requires forall a | a in alts :: a == Fence || |a| > 5
    ensures forall a | a in alts :: a != []
    ensures MatchLength(t, alts) == 3
    decreases |alts|
  {
    assert forall a | a in alts :: a != [] by {
      forall a | a in alts ensures a != [] { assert a == Fence || |a| > 5; }
    }
    if alts[0] != Fence {
      assert alts[0] in alts;
      assert Fence in alts[1..];
      assert forall a | a in alts[1..] :: a in alts;
      OnlyFenceFits(t, alts[1..]);
    }
  }

  /** Erasing fence alternatives from fence-free text followed by a closing
      fence gives back exactly the text, when every alternative other than
      the bare fence is longer than five characters. */
  lemma {:induction false} EraseBeforeClosingFence(body: string, alts: seq<string>)
    requires FenceAlternatives(alts)
    requires forall a | a in alts :: a == Fence || |a| > 5
    requires NoFence(body)
    ensures forall a | a in alts :: a != []
    ensures Erase(body + Fence, alts) == body
    decreases |body|
  {
    assert forall a | a in alts :: a != [] by {
      forall a | a in alts ensures a != [] { assert StartsWith(a, Fence); }
    }
    var t := body + Fence;
    if StartsWith(t, Fence) {
      BacktickRunBeforeFence(body, alts);
    } else {
      assert body != [];
      KeepsHead(t, alts);
      HeadAndTail(body, Fence);
      NoFenceSuffix(body, 1);
      EraseBeforeClosingFence(body[1..], alts);
    }
  }

  /** The base case: the text is a run of fewer than three backticks, the
      first three characters are erased and the rest is kept. */
  lemma BacktickRunBeforeFence(body: string, alts: seq<string>)
    requires FenceAlternatives(alts)
    requires forall a | a in alts :: a == Fence || |a| > 5
    requires NoFence(body) && StartsWith(body + Fence, Fence)
    ensures forall a | a in alts :: a != []
    ensures Erase(body + Fence, alts) == body
  {
    var t := body + Fence;
    assert |body| < 3;
    OnlyFenceFits(t, alts);
    forall i | 0 <= i < |body| ensures body[i] == '`' {
      assert t[i] == body[i];
      assert t[..3][i] == t[i];
    }
    assert t[3..] == body;
    EraseFenceFree(body, alts);
  }

  /** A fence on its own is erased, when the other alternatives are longer
      than five characters. */
  lemma LoneFenceErased(alts: seq<string>)
    requires FenceAlternatives(alts)
    requires forall a | a in alts :: a == Fence || |a| > 5
    ensures forall a | a in alts :: a != []
    ensures Erase(Fence, alts) == []
  {
    DropsFence(Fence, alts);
    OnlyFenceFits(Fence, alts);
    assert Fence[3..] == [];
  }

  /** Text of three characters or more opens with a fence exactly when it
      still does with a closing fence appended. */
  lemma OpeningUnchanged(s: string)
    requires |s| >= 3
    ensures StartsWith(s + Fence, Fence) == StartsWith(s, Fence)
  {
    assert (s + Fence)[..3] == s[..3];
  }

  /** A match of length `m` at the start of text that ends before the
      closing fence: the rest is erased with the closing fence after it. */
  lemma ErasedBeforeClosingFence(s: string, alts: seq<string>, m: nat)
    requires FenceAlternatives(alts)
    requires StartsWith(s + Fence, Fence) && 3 <= m <= |s| && m == MatchLength(s + Fence, alts)
    ensures forall a | a in alts :: a != []
    ensures Erase(s + Fence, alts) == Erase(s[m..] + Fence, alts)
  {
    var t := s + Fence;
    DropsFence(t, alts);
    assert t[m..] == s[m..] + Fence;
  }

  /** Where no fence opens even with the closing fence appended, the first
      character is kept, and the closing fence stays behind it. */
  lemma HeadKeptBeforeFence(s: string, alts: seq<string>)
    requires FenceAlternatives(alts)
    requires s != [] && !StartsWith(s + Fence, Fence)
    ensures forall a | a in alts :: a != []
    ensures Erase(s + Fence, alts) == [s[0]] + Erase(s[1..] + Fence, alts)
  {
    var t := s + Fence;
    KeepsHead(t, alts);
    assert t[0] == s[0];
    assert t[1..] == s[1..] + Fence;
  }

  /** One or two backticks followed by a closing fence: the first three
      backticks are erased and the rest is kept, as it is on its own. */
  lemma ShortBacktickRun(s: string, alts: seq<string>)
    requires FenceAlternatives(alts)
    requires forall a | a in alts :: a == Fence || |a| > 5
    requires 0 < |s| < 3 && StartsWith(s + Fence, Fence)
    ensures forall a | a in alts :: a != []
    ensures Erase(s + Fence, alts) == Erase(s, alts)
  {
    var t := s + Fence;
    forall i | 0 <= i < |s| ensures s[i] == '`' {
      assert t[..3][i] == s[i];
    }
    assert t[3..] == s;
    DropsFence(t, alts);
    OnlyFenceFits(t, alts);
  }
}
