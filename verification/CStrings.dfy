/** C strings inside character buffers, and the library calls that cut them up:
    strtok_r, strlen, strcmp and strncpy (ISO/IEC 9899:2011, sections 7.24.5.8,
    7.24.6.3, 7.24.4.2 and 7.24.2.4).  The pure splitting functions at the end
    say what a run of strtok_r calls visits. */
module CStrings {
  datatype Option<+T> = None | Some(value: T)

  const NUL: char := '\0'

  /** The text of a C string: it cannot contain its own terminator. */
  type CText = s: string | NUL !in s

  /** The buffer `b` holds the C string `t` at offset `p`. */
  ghost predicate CStringAt(b: seq<char>, p: nat, t: string) {
    p + |t| < |b| && b[p..p + |t|] == t && b[p + |t|] == NUL && NUL !in t
  }

  /** What a C reader sees of `s`: everything before the first terminator. */
  function UpToNul(s: string): (r: CText)
    ensures |r| <= |s| && r == s[..|r|]
    ensures |r| < |s| ==> s[|r|] == NUL
  {
    if s == "" || s[0] == NUL then "" else [s[0]] + UpToNul(s[1..])
  }

  lemma UpToNulWhole(s: string)
    requires NUL !in s
    ensures UpToNul(s) == s
  {
  }

  // ---------------------------------------------------------------- splitting

  /** `s` cut at every character of `d`: one piece more than there are cuts. */
  function Split(s: string, d: string): (r: seq<string>)
    ensures |r| > 0
  {
    if s == "" then [""]
    else if s[0] in d then [""] + Split(s[1..], d)
    else var r := Split(s[1..], d); [[s[0]] + r[0]] + r[1..]
  }

  function NonEmpty(ss: seq<string>): (r: seq<string>) {
    if ss == [] then []
    else (if ss[0] == "" then [] else [ss[0]]) + NonEmpty(ss[1..])
  }

  /** The nonempty pieces of `s`, in left-to-right order. */
  function Segments(s: string, d: string): (r: seq<string>) {
    NonEmpty(Split(s, d))
  }

  /** Drops leading delimiters. */
  function Skip(s: string, d: string): (r: string)
    ensures r != "" ==> r[0] !in d
    ensures |r| <= |s|
  {
    if s == "" || s[0] !in d then s else Skip(s[1..], d)
  }

  /** The longest delimiter-free prefix. */
  function Head(s: string, d: string): (r: string)
    ensures |r| <= |s|
  {
    if s == "" || s[0] in d then "" else [s[0]] + Head(s[1..], d)
  }

  /** What follows the first delimiter. */
  function Tail(s: string, d: string): (r: string)
  {
    if s == "" then "" else if s[0] in d then s[1..] else Tail(s[1..], d)
  }

  /** Head is the part in front of the first delimiter, Tail the part behind it. */
  lemma {:induction false} HeadTail(s: string, d: string)
    ensures var n := |Head(s, d)|;
            && Head(s, d) == s[..n]
            && (forall k :: 0 <= k < n ==> s[k] !in d)
            && (n < |s| ==> s[n] in d)
            && Tail(s, d) == if n < |s| then s[n + 1..] else ""
  {
    if s != "" && s[0] !in d {
      HeadTail(s[1..], d);
      var n := |Head(s[1..], d)|;
      assert Head(s, d) == [s[0]] + s[1..][..n] == s[..n + 1];
      assert forall k :: 0 < k < n + 1 ==> s[k] == s[1..][k - 1];
    }
  }

  lemma NonEmptyCons(x: string, ss: seq<string>)
    ensures NonEmpty([x] + ss) == (if x == "" then [] else [x]) + NonEmpty(ss)
  {
    assert ([x] + ss)[1..] == ss;
  }

  lemma {:induction false} SplitStep(s: string, d: string)
    ensures var h := Head(s, d);
            Split(s, d) == if |h| == |s| then [h] else [h] + Split(Tail(s, d), d)
  {
    if s == "" {
    } else if s[0] in d {
    } else {
      SplitStep(s[1..], d);
      var h := Head(s[1..], d);
      assert Head(s, d) == [s[0]] + h;
      assert Tail(s, d) == Tail(s[1..], d);
      if |h| == |s[1..]| {
        assert Split(s, d) == [[s[0]] + h] + [h][1..];
      } else {
        var r := Split(Tail(s, d), d);
        assert ([h] + r)[1..] == r;
        assert Split(s, d) == [[s[0]] + h] + r;
      }
    }
  }

  lemma {:induction false} SegmentsSkip(s: string, d: string)
    ensures Segments(s, d) == Segments(Skip(s, d), d)
  {
    if s != "" && s[0] in d {
      NonEmptyCons("", Split(s[1..], d));
      SegmentsSkip(s[1..], d);
    }
  }

  /** One strtok_r step, seen on the pure segments: the first segment is the head of
      the skipped text, the others are the segments of its tail, which is shorter. */
  lemma SegmentsStep(s: string, d: string)
    ensures Skip(s, d) == "" ==> Segments(s, d) == []
    ensures var t := Skip(s, d);
            t != "" ==> Head(t, d) != ""
                        && Segments(s, d) == [Head(t, d)] + Segments(Tail(t, d), d)
                        && |Tail(t, d)| < |s|
  {
    var t := Skip(s, d);
    SegmentsSkip(s, d);
    SplitStep(t, d);
    HeadTail(t, d);
    if t == "" {
      assert Split(t, d) == [""];
      NonEmptyCons("", []);
      assert [""] == [""] + [];
    } else {
      var h := Head(t, d);
      assert h != "";
      if |h| == |t| {
        assert Tail(t, d) == "";
        assert Split("", d) == [""];
        NonEmptyCons("", []);
        assert [""] == [""] + [];
        NonEmptyCons(h, []);
        assert [h] == [h] + [];
      } else {
        NonEmptyCons(h, Split(Tail(t, d), d));
      }
    }
  }

  /** Nothing is lost or invented: every segment is nonempty and delimiter-free, and
      the segments together hold exactly the non-delimiter characters in order. */
  lemma {:induction false} SegmentsExact(s: string, d: string)
    ensures forall g :: g in Segments(s, d) ==> g != "" && forall c :: c in g ==> c !in d
    ensures Concat(Segments(s, d)) == Without(s, d)
    decreases |s|
  {
    SegmentsStep(s, d);
    var t := Skip(s, d);
    WithoutSkip(s, d);
    if t != "" {
      var h := Head(t, d);
      HeadTail(t, d);
      SegmentsExact(Tail(t, d), d);
      WithoutHead(t, d);
    }
  }

  function Concat(ss: seq<string>): (r: string) {
    if ss == [] then "" else ss[0] + Concat(ss[1..])
  }

  /** `s` with every character of `d` removed. */
  function Without(s: string, d: string): (r: string) {
    if s == "" then "" else (if s[0] in d then "" else [s[0]]) + Without(s[1..], d)
  }

  lemma {:induction false} WithoutSkip(s: string, d: string)
    ensures Without(s, d) == Without(Skip(s, d), d)
  {
    if s != "" && s[0] in d {
      WithoutSkip(s[1..], d);
    }
  }

  lemma {:induction false} WithoutHead(s: string, d: string)
    ensures Without(s, d) == Head(s, d) + Without(Tail(s, d), d)
  {
    if s == "" {
    } else if s[0] in d {
      assert Head(s, d) == "" && Without(s, d) == Without(s[1..], d);
    } else {
      WithoutHead(s[1..], d);
      assert Head(s, d) + Without(Tail(s, d), d)
          == [s[0]] + (Head(s[1..], d) + Without(Tail(s[1..], d), d));
    }
  }

  /** A delimiter-free piece in front of a delimiter is split off whole. */
  lemma {:induction false} SplitAt(a: string, c: char, b: string, d: string)
    requires forall x :: x in a ==> x !in d
    requires c in d
    ensures Split(a + [c] + b, d) == [a] + Split(b, d)
  {
    var s := a + [c] + b;
    if a == "" {
      assert s[1..] == b;
    } else {
      SplitAt(a[1..], c, b, d);
      assert s[1..] == a[1..] + [c] + b;
      assert s[0] == a[0] && a[0] in a;
      var r := Split(b, d);
      assert ([a[1..]] + r)[1..] == r;
      assert [a[0]] + a[1..] == a;
    }
  }

  lemma SegmentsAt(a: string, c: char, b: string, d: string)
    requires c in d && forall x :: x in a ==> x !in d
    ensures Segments(a + [c] + b, d) == (if a == "" then [] else [a]) + Segments(b, d)
  {
    SplitAt(a, c, b, d);
    NonEmptyCons(a, Split(b, d));
  }

  /** A text without delimiters is its own only segment. */
  lemma {:induction false} SegmentsWhole(a: string, d: string)
    requires a != "" && forall x :: x in a ==> x !in d
    ensures Segments(a, d) == [a]
  {
    SplitStep(a, d);
    HeadTail(a, d);
    assert Head(a, d) == a;
    NonEmptyCons(a, []);
    assert [a] == [a] + [];
  }

  function Join(ss: seq<string>, c: char): (r: string) {
    if ss == [] then "" else if |ss| == 1 then ss[0] else ss[0] + [c] + Join(ss[1..], c)
  }

  /** Tokenizing a joined list of nonempty separator-free names returns the list. */
  lemma {:induction false} JoinRoundTrip(ss: seq<string>, c: char)
    requires forall s :: s in ss ==> s != "" && c !in s
    ensures Segments(Join(ss, c), [c]) == ss
  {
    if ss == [] {
      SegmentsStep("", [c]);
    } else if |ss| == 1 {
      assert ss[0] in ss;
      SegmentsWhole(ss[0], [c]);
    } else {
      assert ss[0] in ss && forall s :: s in ss[1..] ==> s in ss;
      JoinRoundTrip(ss[1..], c);
      SegmentsAt(ss[0], c, Join(ss[1..], c), [c]);
    }
  }

  // ------------------------------------------------------------ library calls

  /** The number of leading delimiters (strspn). */
  method Strspn(b: array<char>, p: nat, delim: string, ghost text: string) returns (n: nat)
    requires CStringAt(b[..], p, text) && NUL !in delim
    ensures n <= |text| && text[n..] == Skip(text, delim)
  {
    CharsAt(b[..], p, text);
    assert text[0..] == text;
    n := 0;
    while b[p + n] in delim
      invariant n <= |text|
      invariant Skip(text, delim) == Skip(text[n..], delim)
      decreases |text| - n
    {
      SkipOne(text, n, delim);
      n := n + 1;
    }
    assert n == |text| || text[n..][0] == text[n];
  }

  lemma SkipOne(text: string, n: nat, delim: string)
    requires n < |text| && text[n] in delim
    ensures Skip(text[n..], delim) == Skip(text[n + 1..], delim)
  {
    assert text[n..][1..] == text[n + 1..];
  }

  /** The number of characters before the first delimiter or terminator (strcspn). */
  method Strcspn(b: array<char>, p: nat, delim: string, ghost text: string) returns (n: nat)
    requires CStringAt(b[..], p, text) && NUL !in delim
    ensures n == |Head(text, delim)|
  {
    CharsAt(b[..], p, text);
    n := 0;
    while b[p + n] != NUL && b[p + n] !in delim
      invariant n <= |text|
      invariant |Head(text, delim)| == n + |Head(text[n..], delim)|
      decreases |text| - n
    {
      assert text[n..][1..] == text[n + 1..];
      n := n + 1;
    }
  }

  /** strtok_r on the C string `text` at `start`.  A token is cut out by writing a
      terminator over the delimiter that ends it; nothing in front of `start` and, when
      no token is left, nothing at all is written. */
  method StrtokR(b: array<char>, start: nat, delim: string, ghost text: string)
    returns (tok: Option<nat>, save: nat)
    requires CStringAt(b[..], start, text) && NUL !in delim
    modifies b
    ensures tok.None? <==> Skip(text, delim) == ""
    ensures tok.None? ==> b[..] == old(b[..]) && CStringAt(b[..], save, "")
    ensures tok.Some? ==>
      && start <= tok.value < save
      && CStringAt(b[..], tok.value, Head(Skip(text, delim), delim))
      && CStringAt(b[..], save, Tail(Skip(text, delim), delim))
    ensures tok.Some? && Tail(Skip(text, delim), delim) != ""
            ==> tok.value + |Head(Skip(text, delim), delim)| < save
    ensures b[..start] == old(b[..start])
  {
    hide CStringAt, Skip, Head, Tail;
    ghost var before := b[..];
    ghost var t := Skip(text, delim);
    var n := Strspn(b, start, delim, text);
    var i := start + n;
    SuffixAt(before, start, text, n);
    CutHead(before, i, t, delim);
    if b[i] == NUL {
      return None, i;
    }
    n := Strcspn(b, i, delim, t);
    var j := i + n;
    if b[j] == NUL {
      return Some(i), j;
    }
    b[j] := NUL;
    assert b[..] == before[j := NUL];
    assert b[..start] == b[..][..start] && before[..start] == before[..i][..start];
    return Some(i), j + 1;
  }

  /** The effect of ending the head of a C string with a terminator. */
  lemma CutHead(b: seq<char>, p: nat, t: string, d: string)
    requires CStringAt(b, p, t)
    ensures var n := |Head(t, d)|;
            && p + n < |b| && (b[p] == NUL <==> t == "") && (t == "" ==> n == 0)
            && (t != "" && t[0] !in d ==> n > 0)
            && if b[p + n] == NUL then
                 CStringAt(b, p, Head(t, d)) && CStringAt(b, p + n, "") && Tail(t, d) == ""
               else
                 var c := b[p + n := NUL];
                 CStringAt(c, p, Head(t, d)) && CStringAt(c, p + n + 1, Tail(t, d)) && c[..p] == b[..p]
  {
    hide CStringAt;
    CharsAt(b, p, t);
    HeadTail(t, d);
    var n := |Head(t, d)|;
    if n == |t| {
      assert Head(t, d) == t;
      SuffixAt(b, p, t, n);
      assert t[n..] == "";
    } else {
      CutAt(b, b[p + n := NUL], p, t, n);
    }
  }

  lemma CharsAt(b: seq<char>, p: nat, t: string)
    requires CStringAt(b, p, t)
    ensures p + |t| < |b| && b[p + |t|] == NUL
    ensures forall k :: 0 <= k < |t| ==> b[p + k] == t[k] && b[p + k] != NUL
  {
    assert forall k :: 0 <= k < |t| ==> b[p..p + |t|][k] == t[k] && t[k] in t;
  }

  lemma SuffixAt(b: seq<char>, p: nat, t: string, n: nat)
    requires CStringAt(b, p, t) && n <= |t|
    ensures CStringAt(b, p + n, t[n..])
  {
    assert b[p + n..p + |t|] == b[p..p + |t|][n..];
  }

  /** Writing one terminator inside a C string leaves two C strings. */
  lemma CutAt(b: seq<char>, c: seq<char>, p: nat, t: string, n: nat)
    requires CStringAt(b, p, t) && n < |t| && c == b[p + n := NUL]
    ensures CStringAt(c, p, t[..n]) && CStringAt(c, p + n + 1, t[n + 1..])
    ensures c[..p] == b[..p]
  {
    assert c[p..p + n] == b[p..p + |t|][..n];
    assert c[p + n + 1..p + |t|] == b[p..p + |t|][n + 1..];
  }

  method Strlen(b: array<char>, p: nat, ghost text: string) returns (n: nat)
    requires CStringAt(b[..], p, text)
    ensures n == |text|
  {
    CharsAt(b[..], p, text);
    n := 0;
    while b[p + n] != NUL
      invariant n <= |text|
      decreases |text| - n
    {
      n := n + 1;
    }
  }

  /** strcmp, reduced to its test for zero. */
  method StrEqual(b: array<char>, p: nat, s: CText, ghost text: string) returns (same: bool)
    requires CStringAt(b[..], p, text)
    ensures same <==> text == s
  {
    CharsAt(b[..], p, text);
    var i := 0;
    while i < |s| && b[p + i] != NUL && b[p + i] == s[i]
      invariant i <= |s| && i <= |text|
      invariant text[..i] == s[..i]
      decreases |s| - i
    {
      i := i + 1;
    }
    same := i == |s| && b[p + i] == NUL;
    assert i < |s| && i < |text| ==> text[i] != s[i];
    assert same ==> text == text[..i] && s == s[..i];
  }

  /** strncpy of the C string `text` at `src[p]`, padded with terminators to `n`
      characters and left unterminated when the text is longer. */
  method Strncpy(dst: array<char>, src: seq<char>, p: nat, n: nat, ghost text: string)
    requires n <= dst.Length && CStringAt(src, p, text)
    modifies dst
    ensures forall k :: 0 <= k < n ==> dst[k] == if k < |text| then text[k] else NUL
    ensures dst[n..] == old(dst[n..])
  {
    CharsAt(src, p, text);
    var i := 0;
    while i < n && src[p + i] != NUL
      invariant i <= n && i <= |text|
      invariant forall k :: 0 <= k < i ==> dst[k] == text[k]
      invariant dst[n..] == old(dst[n..])
    {
      dst[i] := src[p + i];
      i := i + 1;
    }
    while i < n
      invariant i <= n
      invariant i < n ==> |text| <= i
      invariant forall k :: 0 <= k < i ==> dst[k] == if k < |text| then text[k] else NUL
      invariant dst[n..] == old(dst[n..])
    {
      dst[i] := NUL;
      i := i + 1;
    }
  }

  /** snprintf and vsnprintf (ISO/IEC 9899:2011, sections 7.21.6.5 and 7.21.6.12): `text`
      is the complete formatted output; a failed conversion gives a negative result and an unspecified buffer. */
  method Snprintf(b: array<char>, size: nat, text: string, fails: bool) returns (len: int)
    requires 0 < size <= b.Length
    modifies b
    ensures fails <==> len < 0
    ensures !fails ==> len == |text|
    ensures !fails ==> CStringAt(b[..], 0, UpToNul(if |text| < size then text else text[..size - 1]))
  {
    if fails {
      return -1;
    }
    var n := if |text| < size then |text| else size - 1;
    forall k | 0 <= k < n {
      b[k] := text[k];
    }
    b[n] := NUL;
    ghost var t := text[..n];
    ghost var m := |UpToNul(t)|;
    assert t == if |text| < size then text else text[..size - 1];
    assert b[0..0 + m] == t[..m];
    assert m < n ==> b[m] == t[m];
    return |text|;
  }

  /** The copy that strdup makes. */
  method CopyString(t: CText) returns (b: array<char>)
    ensures fresh(b) && CStringAt(b[..], 0, t)
  {
    b := new char[|t| + 1];
    forall k | 0 <= k < |t| {
      b[k] := t[k];
    }
    b[|t|] := NUL;
    assert b[0..0 + |t|] == t;
  }

  /** Reads the C string at an offset. */
  method TextAt(b: array<char>, p: nat, ghost text: string) returns (s: string)
    requires CStringAt(b[..], p, text)
    ensures s == text
  {
    CharsAt(b[..], p, text);
    s := "";
    while b[p + |s|] != NUL
      invariant s <= text
      decreases |text| - |s|
    {
      s := s + [b[p + |s|]];
    }
  }
}
