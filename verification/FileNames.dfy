/** The file-name sanitizer and the name schema (schemas.ts), over UTF-16 code units. */
module FileNames {
  import opened Basics

  const MAX_FILENAME_LENGTH: nat := 255

  type CodeUnit = c: int | 0 <= c < 0x1_0000
  type Name = seq<CodeUnit>

  const SLASH: CodeUnit := 0x2F
  const BACKSLASH: CodeUnit := 0x5C
  const DOT: CodeUnit := 0x2E
  const UNDERSCORE: CodeUnit := 0x5F

  /** "unnamed_file" */
  const FALLBACK: Name := [0x75, 0x6E, 0x6E, 0x61, 0x6D, 0x65, 0x64, 0x5F, 0x66, 0x69, 0x6C, 0x65]

  /** What String.prototype.trim removes: white space and line terminators. */
  predicate IsSpace(c: CodeUnit) {
    || 0x09 <= c <= 0x0D || c == 0x20 || c == 0xA0 || c == 0x1680 || 0x2000 <= c <= 0x200A
    || c == 0x2028 || c == 0x2029 || c == 0x202F || c == 0x205F || c == 0x3000 || c == 0xFEFF
  }

  predicate IsSeparator(c: CodeUnit) {
    c == SLASH || c == BACKSLASH
  }

  // ----- the pipeline -----

  /** replace(/[/\\]/g, "_") */
  function ReplaceSeparators(s: Name): (r: Name)
    ensures |r| == |s|
    ensures forall i :: 0 <= i < |s| ==> r[i] == if IsSeparator(s[i]) then UNDERSCORE else s[i]
  {
    seq(|s|, i requires 0 <= i < |s| => if IsSeparator(s[i]) then UNDERSCORE else s[i])
  }

  function SkipDots(s: Name): (r: Name)
    ensures |r| <= |s| && (s != [] && s[0] == DOT ==> |r| < |s|)
    ensures r == s[|s| - |r|..] && (r != [] ==> r[0] != DOT)
  {
    if s != [] && s[0] == DOT then SkipDots(s[1..]) else s
  }

  /** replace(/\.\.+/g, "_"): each maximal run of two or more dots becomes one underscore. */
  function CollapseDots(s: Name): (r: Name)
    decreases |s|
  {
    if s == [] then []
    else if |s| >= 2 && s[0] == DOT && s[1] == DOT then [UNDERSCORE] + CollapseDots(SkipDots(s))
    else [s[0]] + CollapseDots(s[1..])
  }

  function TrimStart(s: Name): Name {
    if s != [] && IsSpace(s[0]) then TrimStart(s[1..]) else s
  }

  function TrimEnd(s: Name): Name {
    if s != [] && IsSpace(s[|s| - 1]) then TrimEnd(s[..|s| - 1]) else s
  }

  function Trim(s: Name): Name {
    TrimEnd(TrimStart(s))
  }

  /** The name before it is cut to its length. */
  function Trimmed(name: Name): Name {
    Trim(CollapseDots(ReplaceSeparators(name)))
  }

  function Sanitize(name: Name): Name {
    var trimmed := Trimmed(name);
    var cut := trimmed[..Min(|trimmed|, MAX_FILENAME_LENGTH)];
    if |cut| > 0 then cut else FALLBACK
  }

  // ----- what a name may look like -----

  predicate NoSeparator(s: Name) {
    forall i :: 0 <= i < |s| ==> !IsSeparator(s[i])
  }

  predicate NoDotDot(s: Name) {
    forall i {:trigger s[i]} :: 0 <= i < |s| - 1 ==> !(s[i] == DOT && s[i + 1] == DOT)
  }

  /** The name schema of the offer. */
  predicate Accepts(s: Name) {
    1 <= |s| <= MAX_FILENAME_LENGTH && NoSeparator(s) && s != [DOT] && s != [DOT, DOT]
  }

  lemma {:induction false} CollapseIsSafe(s: Name)
    requires NoSeparator(s)
    ensures NoSeparator(CollapseDots(s)) && NoDotDot(CollapseDots(s))
    ensures CollapseDots(s) != [] && CollapseDots(s)[0] == DOT ==> s != [] && s[0] == DOT
    decreases |s|
  {
    if s == [] {
    } else if |s| >= 2 && s[0] == DOT && s[1] == DOT {
      var rest := SkipDots(s);
      assert forall i :: 0 <= i < |rest| ==> rest[i] == s[|s| - |rest| + i];
      CollapseIsSafe(rest);
    } else {
      assert forall i :: 0 <= i < |s[1..]| ==> s[1..][i] == s[i + 1];
      CollapseIsSafe(s[1..]);
      var r, tail := CollapseDots(s), CollapseDots(s[1..]);
      forall i {:trigger r[i]} | 0 <= i < |r| - 1
        ensures !(r[i] == DOT && r[i + 1] == DOT)
      {
        if i > 0 { assert r[i] == tail[i - 1] && r[i + 1] == tail[i]; }
      }
    }
  }

  /** Trimming cuts a middle piece out. */
  lemma {:induction false} TrimStartIsSuffix(s: Name)
    ensures |TrimStart(s)| <= |s| && TrimStart(s) == s[|s| - |TrimStart(s)|..]
  {
    if s != [] && IsSpace(s[0]) { TrimStartIsSuffix(s[1..]); }
  }

  lemma {:induction false} TrimEndIsPrefix(s: Name)
    ensures |TrimEnd(s)| <= |s| && TrimEnd(s) == s[..|TrimEnd(s)|]
  {
    if s != [] && IsSpace(s[|s| - 1]) { TrimEndIsPrefix(s[..|s| - 1]); }
  }

  lemma TrimIsSlice(s: Name) returns (lo: nat, hi: nat)
    ensures lo <= hi <= |s| && Trim(s) == s[lo..hi]
  {
    TrimStartIsSuffix(s);
    TrimEndIsPrefix(TrimStart(s));
    lo := |s| - |TrimStart(s)|;
    hi := lo + |Trim(s)|;
    assert s[lo..][..|Trim(s)|] == s[lo..hi];
  }

  lemma SliceIsSafe(s: Name, lo: nat, hi: nat)
    requires lo <= hi <= |s| && NoSeparator(s) && NoDotDot(s)
    ensures NoSeparator(s[lo..hi]) && NoDotDot(s[lo..hi])
  {
    var r := s[lo..hi];
    forall i {:trigger r[i]} | 0 <= i < |r| - 1
      ensures !(r[i] == DOT && r[i + 1] == DOT)
    {
      assert r[i] == s[lo + i] && r[i + 1] == s[lo + i + 1];
    }
  }

  /** Whatever the input: 1 to 255 code units, no separator, no "..". */
  lemma SanitizeIsSafe(name: Name)
    ensures 1 <= |Sanitize(name)| <= MAX_FILENAME_LENGTH
    ensures NoSeparator(Sanitize(name)) && NoDotDot(Sanitize(name))
  {
    var base, t := CollapseDots(ReplaceSeparators(name)), Trimmed(name);
    CollapseIsSafe(ReplaceSeparators(name));
    var lo, hi := TrimIsSlice(base);
    SliceIsSafe(base, lo, hi);
    var n := Min(|t|, MAX_FILENAME_LENGTH);
    SliceIsSafe(t, 0, n);
    assert t[0..n] == t[..n];
  }

  // ----- names that stay as they are -----

  lemma {:induction false} CollapseKeepsClean(s: Name)
    requires NoDotDot(s)
    ensures CollapseDots(s) == s
  {
    if s != [] {
      var rest := s[1..];
      forall i {:trigger rest[i]} | 0 <= i < |rest| - 1
        ensures !(rest[i] == DOT && rest[i + 1] == DOT)
      {
        assert rest[i] == s[i + 1] && rest[i + 1] == s[i + 2];
      }
      assert !(|s| >= 2 && s[0] == DOT && s[1] == DOT);
      CollapseKeepsClean(rest);
    }
  }

  /** A name that the sanitizer leaves alone. */
  predicate Clean(s: Name) {
    1 <= |s| <= MAX_FILENAME_LENGTH && NoSeparator(s) && NoDotDot(s) && Trim(s) == s
  }

  lemma PipelineOfSafe(s: Name)
    requires NoSeparator(s) && NoDotDot(s)
    ensures CollapseDots(ReplaceSeparators(s)) == s
  {
    assert ReplaceSeparators(s) == s;
    CollapseKeepsClean(s);
  }

  /** The sanitizer leaves a name alone exactly when it is clean. */
  lemma FixpointIffClean(s: Name)
    ensures Sanitize(s) == s <==> Clean(s)
  {
    if Clean(s) {
      PipelineOfSafe(s);
      assert s[..|s|] == s;
    }
    if Sanitize(s) == s {
      SanitizeIsSafe(s);
      PipelineOfSafe(s);
      FallbackIsTrimmed();
      SameLengthSlice(s);
    }
  }

  lemma SameLengthSlice(s: Name)
    ensures |Trim(s)| <= |s| && (|Trim(s)| == |s| ==> Trim(s) == s)
  {
    var lo, hi := TrimIsSlice(s);
  }

  lemma FallbackIsTrimmed()
    ensures Trim(FALLBACK) == FALLBACK
  {
    assert TrimStart(FALLBACK) == FALLBACK;
    assert TrimEnd(FALLBACK) == FALLBACK;
  }

  // ----- sanitizing twice -----

  lemma {:induction false} TrimStartsBare(s: Name)
    ensures TrimStart(s) != [] ==> !IsSpace(TrimStart(s)[0])
  {
    if s != [] && IsSpace(s[0]) { TrimStartsBare(s[1..]); }
  }

  lemma {:induction false} TrimEndsBare(s: Name)
    ensures TrimEnd(s) != [] ==> !IsSpace(TrimEnd(s)[|TrimEnd(s)| - 1])
  {
    if s != [] && IsSpace(s[|s| - 1]) { TrimEndsBare(s[..|s| - 1]); }
  }

  predicate Bare(s: Name) {
    s != [] ==> !IsSpace(s[0]) && !IsSpace(s[|s| - 1])
  }

  lemma TrimIsBare(s: Name)
    ensures Bare(Trim(s))
  {
    TrimStartsBare(s);
    TrimEndIsPrefix(TrimStart(s));
    TrimEndsBare(TrimStart(s));
  }

  lemma BareIffTrimmed(s: Name)
    ensures Trim(s) == s <==> Bare(s)
  {
    TrimIsBare(s);
  }

  /**
   * Both ends sanitize, the receiver what the sender has already sanitized.  They
   * agree on a name exactly unless the cut to 255 code units falls right behind a
   * white space.
   */
  lemma EndsAgreeIff(name: Name)
    ensures Sanitize(Sanitize(name)) == Sanitize(name)
            <==> |Trimmed(name)| <= MAX_FILENAME_LENGTH || !IsSpace(Trimmed(name)[MAX_FILENAME_LENGTH - 1])
  {
    var t := Trimmed(name);
    SanitizeIsSafe(name);
    FixpointIffClean(Sanitize(name));
    BareIffTrimmed(Sanitize(name));
    TrimIsBare(CollapseDots(ReplaceSeparators(name)));
    if t == [] {
      FallbackIsTrimmed();
    } else if |t| <= MAX_FILENAME_LENGTH {
      assert Sanitize(name) == t;
    } else {
      assert Sanitize(name) == t[..MAX_FILENAME_LENGTH];
    }
  }

  /** 254 letters, a blank and a letter: the second pass takes the blank away. */
  lemma EndsDisagree()
    ensures var name := seq(254, _ => 0x61) + [0x20, 0x61];
            Sanitize(name) == name[..255] && Sanitize(Sanitize(name)) != Sanitize(name)
  {
    var name: Name := seq(254, _ => 0x61) + [0x20, 0x61];
    assert name[254] == 0x20 && name[255] == 0x61;
    assert forall i :: 0 <= i < |name| ==> name[i] == 0x61 || name[i] == 0x20;
    PipelineOfSafe(name);
    BareIffTrimmed(name);
    EndsAgreeIff(name);
  }

  // ----- names that the schema refuses -----

  lemma {:induction false} CollapseWithoutUnderscore(s: Name)
    ensures UNDERSCORE !in CollapseDots(s) ==> CollapseDots(s) == s
    decreases |s|
  {
    if s != [] {
      if |s| >= 2 && s[0] == DOT && s[1] == DOT {
        assert CollapseDots(s)[0] == UNDERSCORE;
      } else {
        assert forall c :: c in CollapseDots(s[1..]) ==> c in CollapseDots(s);
        CollapseWithoutUnderscore(s[1..]);
      }
    }
  }

  lemma {:induction false} SpacesAround(s: Name, c: CodeUnit)
    requires Trim(s) == [c]
    ensures forall i :: 0 <= i < |s| ==> IsSpace(s[i]) || s[i] == c
  {
    SpacesBefore(s);
    SpacesAfter(TrimStart(s));
    TrimStartIsSuffix(s);
    var t := TrimStart(s);
    forall i | 0 <= i < |s|
      ensures IsSpace(s[i]) || s[i] == c
    {
      if i >= |s| - |t| {
        assert s[i] == t[i - (|s| - |t|)];
        if i - (|s| - |t|) < 1 { assert TrimEnd(t)[0] == t[0] by { TrimEndIsPrefix(t); } }
      }
    }
  }

  lemma {:induction false} SpacesBefore(s: Name)
    ensures forall i :: 0 <= i < |s| - |TrimStart(s)| ==> IsSpace(s[i])
  {
    if s != [] && IsSpace(s[0]) {
      SpacesBefore(s[1..]);
      forall i | 0 <= i < |s| - |TrimStart(s)| ensures IsSpace(s[i]) { if i > 0 { assert s[i] == s[1..][i - 1]; } }
    }
  }

  lemma {:induction false} SpacesAfter(s: Name)
    ensures forall i :: |TrimEnd(s)| <= i < |s| ==> IsSpace(s[i])
  {
    if s != [] && IsSpace(s[|s| - 1]) {
      SpacesAfter(s[..|s| - 1]);
      forall i | |TrimEnd(s)| <= i < |s| ensures IsSpace(s[i]) { if i < |s| - 1 { assert s[i] == s[..|s| - 1][i]; } }
    }
  }

  /** The receiver's schema takes a sanitized name unless the input was, but for white space around it, a single dot. */
  lemma SchemaAcceptsIff(name: Name)
    ensures Accepts(Sanitize(name)) <==> Trim(name) != [DOT]
  {
    SanitizeIsSafe(name);
    var base := CollapseDots(ReplaceSeparators(name));
    if Sanitize(name) == [DOT] {
      assert Trim(base) == [DOT] by { assert |Trim(base)| == 1; }
      SpacesAround(base, DOT);
      assert UNDERSCORE !in base;
      CollapseWithoutUnderscore(ReplaceSeparators(name));
      assert forall i :: 0 <= i < |name| ==> ReplaceSeparators(name)[i] != UNDERSCORE;
      assert ReplaceSeparators(name) == name;
    } else if Trim(name) == [DOT] {
      SpacesAround(name, DOT);
      assert NoSeparator(name);
      OneDotNoDotDot(name);
      PipelineOfSafe(name);
    }
    NotTwoDots(Sanitize(name));
  }

  /** A name that the sanitizer lets through and the schema refuses. */
  lemma SingleDotIsRefused()
    ensures Sanitize([DOT]) == [DOT] && !Accepts(Sanitize([DOT]))
  {
    PipelineOfSafe([DOT]);
    BareIffTrimmed([DOT]);
  }

  lemma NotTwoDots(s: Name)
    requires NoDotDot(s)
    ensures s != [DOT, DOT]
  {
    assert |s| == 2 ==> !(s[0] == DOT && s[0 + 1] == DOT);
  }

  /** Between the first and the last dot there is nothing to trim away. */
  lemma OneDotNoDotDot(s: Name)
    requires Trim(s) == [DOT]
    ensures NoDotDot(s)
  {
    TrimStartIsSuffix(s);
    SpacesBefore(s);
    var t := TrimStart(s);
    SpacesAfter(t);
    forall i {:trigger s[i]} | 0 <= i < |s| - 1
      ensures !(s[i] == DOT && s[i + 1] == DOT)
    {
      var k := |s| - |t|;
      if i >= k { assert s[i + 1] == t[i + 1 - k]; }
    }
  }
}
