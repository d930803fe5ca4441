/** The `libva.conf` reader va_parseConfig, on top of destructive buffers, and what it
    computes: the value of a key in the configuration text, else in the environment. */
module Config {
  import opened CStrings

  const LINE_SIZE: nat := 1024    // the line buffer and the caller's value buffer
  const SEPARATORS: string := "=\n"

  // ------------------------------------------------------------ specification

  /** What one fgets call with room for `n` characters takes from `s`. */
  function NextChunk(s: string, n: nat): (r: string)
    ensures |r| <= n && |r| <= |s| && r == s[..|r|]
    ensures s != "" && n > 0 ==> r != ""
  {
    if s == "" || n == 0 then "" else if s[0] == '\n' then "\n" else [s[0]] + NextChunk(s[1..], n - 1)
  }

  lemma ChunkGrows(s: string, n: nat)
    ensures |NextChunk(s, n)| == if s == "" || n == 0 then 0
                                 else if s[0] == '\n' then 1
                                 else 1 + |NextChunk(s[1..], n - 1)|
  {
  }

  /** The whole text as successive fgets calls deliver it. */
  function Chunks(s: string, n: nat): (r: seq<string>)
    requires n > 0
    decreases |s|
  {
    if s == "" then [] else var c := NextChunk(s, n); [c] + Chunks(s[|c|..], n)
  }

  /** The binding a chunk makes: its first two nonempty fields. */
  function Binding(chunk: string): (r: Option<(string, string)>) {
    var g := Segments(UpToNul(chunk), SEPARATORS);
    if |g| >= 2 then Some((g[0], g[1])) else None
  }

  /** The first chunk that binds the key wins. */
  function Lookup(chunks: seq<string>, key: string): (r: Option<string>) {
    if chunks == [] then None
    else match Binding(chunks[0])
      case Some(kv) => if kv.0 == key then Some(kv.1) else Lookup(chunks[1..], key)
      case None => Lookup(chunks[1..], key)
  }

  /** The setting of a key: the file beats the environment. */
  function Setting(conf: Option<string>, env: Option<CText>, key: string): (r: Option<string>) {
    var inFile := if conf.Some? then Lookup(Chunks(conf.value, LINE_SIZE - 1), key) else None;
    if inFile.Some? then inFile else env
  }

  // ------------------------------------------------- the method and its files

  class File {
    const text: string
    var pos: nat
    var open: bool
    constructor (t: string)
      ensures text == t && pos == 0 && open
    {
      text, pos, open := t, 0, true;
    }

    ghost predicate Valid() reads this { open && pos <= |text| }

    /** fgets (ISO/IEC 9899:2011, section 7.21.7.2) with room for `n` characters. */
    method Fgets(b: array<char>, n: nat) returns (ok: bool)
      requires Valid() && 1 < n <= b.Length
      modifies this`pos, b
      ensures Valid()
      ensures ok <==> old(pos) < |text|
      ensures var c := NextChunk(text[old(pos)..], n - 1);
              pos == old(pos) + |c| && (ok ==> b[..|c|] == c && b[|c|] == NUL)
      ensures !ok ==> b[..] == old(b[..])
    {
      hide NextChunk;
      ghost var rest := text[pos..];
      ghost var start := pos;
      var i := 0;
      var more := true;
      while more && i < n - 1 && pos < |text|
        invariant open && start <= pos <= |text| && pos == start + i && i <= n - 1
        invariant b[..i] == rest[..i]
        invariant |NextChunk(rest, n - 1)| == i + if more then |NextChunk(text[pos..], n - 1 - i)| else 0
        invariant i == 0 ==> b[..] == old(b[..]) && more
        decreases |text| - pos, more
      {
        ChunkGrows(text[pos..], n - 1 - i);
        assert text[pos..][1..] == text[pos + 1..] && rest[i] == text[pos];
        b[i] := text[pos];
        more := text[pos] != '\n';
        i := i + 1;
        pos := pos + 1;
      }
      ChunkGrows(text[pos..], n - 1 - i);
      if i == 0 {
        return false;
      }
      b[i] := NUL;
      return true;
    }
  }

  /** The part of the C library that opens the configuration file; it counts the
      files that are open. */
  class FileSystem {
    const conf: Option<string>
    var openFiles: int
    constructor (c: Option<string>)
      ensures conf == c && openFiles == 0
    {
      conf, openFiles := c, 0;
    }

    method Fopen() returns (f: File?)
      modifies this
      ensures (f != null) == conf.Some?
      ensures f != null ==> fresh(f) && f.open && f.pos == 0 && f.text == conf.value
      ensures openFiles == old(openFiles) + if f == null then 0 else 1
    {
      f := null;
      if conf.Some? {
        f := new File(conf.value);
        openFiles := openFiles + 1;
      }
    }

    method Fclose(f: File)
      requires f.open
      modifies this, f`open
      ensures !f.open && openFiles == old(openFiles) - 1
    {
      f.open := false;
      openFiles := openFiles - 1;
    }
  }

  /** The two statements that store a value in the caller's buffer: the value as a C
      string, or what fits of it, with terminators behind. */
  method Store(envValue: array?<char>, src: seq<char>, p: nat, ghost text: string)
    requires envValue != null ==> envValue.Length >= LINE_SIZE
    requires CStringAt(src, p, text)
    modifies envValue
    ensures envValue != null ==>
              && CStringAt(envValue[..], 0, if |text| <= 1023 then text else text[..1023])
              && (forall k :: |text| <= k < 1024 ==> envValue[k] == NUL)
              && envValue[LINE_SIZE..] == old(envValue[LINE_SIZE..])
  {
    if envValue != null {
      Strncpy(envValue, src, p, LINE_SIZE, text);
      envValue[LINE_SIZE - 1] := NUL;
      ghost var v := if |text| <= 1023 then text else text[..1023];
      assert envValue[..][0..|v|] == v;
    }
  }

  /** The body of the reading loop: splits one line in place and compares its first
      field with the key; on a match `value` is the offset of its second field. */
  method MatchLine(oneline: array<char>, key: CText, ghost chunk: string) returns (found: bool, value: nat)
    requires CStringAt(oneline[..], 0, UpToNul(chunk))
    modifies oneline
    ensures found <==> Binding(chunk).Some? && Binding(chunk).value.0 == key
    ensures found ==> CStringAt(oneline[..], value, Binding(chunk).value.1)
  {
    ghost var line := UpToNul(chunk);
    found, value := false, 0;
    var len := Strlen(oneline, 0, line);
    BindingStep(chunk);
    if len == 1 {
      return;
    }
    var token, saveptr := StrtokR(oneline, 0, SEPARATORS, line);
    ghost var name := if token.None? then "" else Head(Skip(line, SEPARATORS), SEPARATORS);
    ghost var rest := if token.None? then "" else Tail(Skip(line, SEPARATORS), SEPARATORS);
    ghost var cut := oneline[..];
    var second, _ := StrtokR(oneline, saveptr, SEPARATORS, rest);
    if token.None? || second.None? {
      return;
    }
    Below(cut, oneline[..], token.value, saveptr, name);
    found := StrEqual(oneline, token.value, key, name);
    value := second.value;
  }

  /** The reading loop: stops at the first line that binds the key. */
  method SearchFile(fp: File, key: CText, envValue: array?<char>) returns (found: bool)
    requires fp.open && fp.pos == 0
    requires envValue != null ==> envValue.Length >= LINE_SIZE
    modifies fp`pos, envValue
    ensures found <==> Lookup(Chunks(fp.text, LINE_SIZE - 1), key).Some?
    ensures found && envValue != null ==>
              var v := Lookup(Chunks(fp.text, LINE_SIZE - 1), key).value;
              && CStringAt(envValue[..], 0, if |v| <= 1023 then v else v[..1023])
              && (forall k :: |v| <= k < 1024 ==> envValue[k] == NUL)
              && envValue[LINE_SIZE..] == old(envValue[LINE_SIZE..])
    ensures !found && envValue != null ==> envValue[..] == old(envValue[..])
  {
    hide Chunks, Lookup, Binding, CStringAt, UpToNul, NextChunk;
    var oneline := new char[LINE_SIZE];
    ghost var result := Lookup(Chunks(fp.text, LINE_SIZE - 1), key);
    ghost var rest := fp.text;
    assert fp.text[0..] == fp.text;
    var ok := fp.Fgets(oneline, LINE_SIZE);
    while ok
      invariant fp.open && fp.pos <= |fp.text| && |rest| <= |fp.text|
      invariant envValue != null ==> envValue[..] == old(envValue[..])
      invariant result == Lookup(Chunks(rest, LINE_SIZE - 1), key)
      invariant ok <==> rest != ""
      invariant var c := NextChunk(rest, LINE_SIZE - 1);
                && rest[|c|..] == fp.text[fp.pos..]
                && (ok ==> oneline[..|c|] == c && oneline[|c|] == NUL)
      decreases |rest|
    {
      ghost var chunk := NextChunk(rest, LINE_SIZE - 1);
      ChunkStep(rest, key);
      LineAt(oneline[..], chunk);
      var hit, value := MatchLine(oneline, key, chunk);
      if hit {
        Store(envValue, oneline[..], value, Binding(chunk).value.1);
        return true;
      }
      rest := rest[|chunk|..];
      ok := fp.Fgets(oneline, LINE_SIZE);
    }
    NothingLeft(key);
    return false;
  }

  method ParseConfig(env: Option<CText>, fs: FileSystem, getenv: CText -> Option<CText>, envValue: array?<char>)
    returns (ret: int)
    requires envValue != null ==> envValue.Length >= LINE_SIZE
    modifies fs, envValue
    ensures ret == 0 || ret == 1
    ensures ret == 0 <==> env.Some? && Setting(fs.conf, getenv(env.value), env.value).Some?
    ensures ret == 0 && envValue != null ==>
              var v := Setting(fs.conf, getenv(env.value), env.value).value;
              && CStringAt(envValue[..], 0, if |v| <= 1023 then v else v[..1023])
              && (forall k :: |v| <= k < 1024 ==> envValue[k] == NUL)
              && envValue[LINE_SIZE..] == old(envValue[LINE_SIZE..])
    ensures ret == 1 && envValue != null ==> envValue[..] == old(envValue[..])
    ensures fs.openFiles == old(fs.openFiles)
  {
    if env.None? {
      return 1;
    }
    var key := env.value;
    var fp := fs.Fopen();
    if fp != null {
      var found := SearchFile(fp, key, envValue);
      fs.Fclose(fp);
      if found {
        return 0;
      }
    }
    var v := getenv(key);
    if v.Some? {
      assert CStringAt(v.value + [NUL], 0, v.value);
      Store(envValue, v.value + [NUL], 0, v.value);
      return 0;
    }
    return 1;
  }

  lemma ChunkStep(s: string, key: string)
    requires s != ""
    ensures var c := NextChunk(s, LINE_SIZE - 1);
            Lookup(Chunks(s, LINE_SIZE - 1), key)
            == if Binding(c).Some? && Binding(c).value.0 == key then Some(Binding(c).value.1)
               else Lookup(Chunks(s[|c|..], LINE_SIZE - 1), key)
  {
  }

  lemma NothingLeft(key: string)
    ensures Lookup(Chunks("", LINE_SIZE - 1), key) == None
  {
  }

  lemma LineAt(b: seq<char>, chunk: string)
    requires |chunk| < |b| && b[..|chunk|] == chunk && b[|chunk|] == NUL
    ensures CStringAt(b, 0, UpToNul(chunk))
  {
    var n := |UpToNul(chunk)|;
    assert b[0..0 + n] == chunk[..n];
    assert n < |chunk| ==> b[..|chunk|][n] == chunk[n];
  }

  /** The test that skips one-character lines never changes the outcome. */
  lemma ShortLine(line: string, d: string)
    requires |line| == 1
    ensures |Segments(line, d)| < 2
  {
    SegmentsStep(line, d);
    var t := Skip(line, d);
    if t != "" {
      HeadTail(t, d);
      SegmentsStep("", d);
    }
  }

  /** A binding in terms of the two strtok_r calls that look for it. */
  lemma BindingStep(chunk: string)
    ensures var line := UpToNul(chunk);
            var t := Skip(line, SEPARATORS);
            var u := Skip(Tail(t, SEPARATORS), SEPARATORS);
            && Binding(chunk) == (if t != "" && u != ""
                                  then Some((Head(t, SEPARATORS), Head(u, SEPARATORS))) else None)
            && (|line| == 1 ==> Binding(chunk) == None)
  {
    var line := UpToNul(chunk);
    SegmentsStep(line, SEPARATORS);
    SegmentsStep(Tail(Skip(line, SEPARATORS), SEPARATORS), SEPARATORS);
    if |line| == 1 {
      ShortLine(line, SEPARATORS);
    }
  }

  /** A token in front of the restart point survives the next call. */
  lemma Below(b: seq<char>, c: seq<char>, p: nat, save: nat, t: string)
    requires CStringAt(b, p, t) && save <= |b| && |c| == |b|
    requires p + |t| < save && c[..save] == b[..save]
    ensures CStringAt(c, p, t)
  {
    assert forall k :: 0 <= k < save ==> c[k] == c[..save][k] == b[..save][k] == b[k];
  }

  // ------------------------------------------------------------- round trips

  /** A pair that a `name=value` line can carry. */
  ghost predicate Carried(p: (string, string)) {
    && p.0 != "" && p.1 != ""
    && (forall c :: c in p.0 ==> c != '=' && c != '\n' && c != NUL)
    && (forall c :: c in p.1 ==> c != '=' && c != '\n' && c != NUL)
  }

  function Line(p: (string, string)): (r: string) {
    p.0 + ['='] + p.1
  }

  function Render(ps: seq<(string, string)>): (r: string) {
    if ps == [] then "" else Line(ps[0]) + ['\n'] + Render(ps[1..])
  }

  function FirstBound(ps: seq<(string, string)>, key: string): (r: Option<string>) {
    if ps == [] then None else if ps[0].0 == key then Some(ps[0].1) else FirstBound(ps[1..], key)
  }

  lemma {:induction false} ChunkOfLine(s: string, t: string, n: nat)
    requires forall c :: c in s ==> c != '\n'
    ensures |s| < n ==> NextChunk(s + ['\n'] + t, n) == s + ['\n']
    ensures |s| >= n ==> NextChunk(s + ['\n'] + t, n) == s[..n]
  {
    var w := s + ['\n'] + t;
    if s == "" {
    } else if n > 0 {
      assert forall c :: c in s[1..] ==> c in s;
      ChunkOfLine(s[1..], t, n - 1);
      assert w[0] == s[0] && s[0] in s;
      assert w[1..] == s[1..] + ['\n'] + t;
      assert |s| >= n ==> [s[0]] + s[1..][..n - 1] == s[..n];
    }
  }

  /** Text that is neither cut nor ended by the reader. */
  ghost predicate Plain(s: string) {
    forall c :: c in s ==> c != '=' && c != '\n' && c != NUL
  }

  lemma PlainParts(s: string, k: nat)
    requires Plain(s) && k <= |s|
    ensures Plain(s[..k]) && Plain(s[k..])
  {
    assert forall c :: c in s[..k] || c in s[k..] ==> c in s;
  }

  /** A line's name and value are its fields, whether or not its end is in the chunk. */
  lemma FieldsOf(x: string, v: string)
    requires Plain(x) && Plain(v)
    ensures var chunk := x + ['='] + v;
            var bound := if x != "" && v != "" then Some((x, v)) else None;
            Binding(chunk) == bound && Binding(chunk + ['\n']) == bound
  {
    var chunk := x + ['='] + v;
    UpToNulWhole(chunk);
    UpToNulWhole(chunk + ['\n']);
    SegmentsAt(x, '=', v, SEPARATORS);
    SegmentsAt(x, '=', v + ['\n'], SEPARATORS);
    assert chunk + ['\n'] == x + ['='] + (v + ['\n']);
    OneField(v);
  }

  /** Text without separators has no second field. */
  lemma OneField(s: string)
    requires Plain(s)
    ensures Segments(s, SEPARATORS) == (if s == "" then [] else [s])
    ensures Segments(s + ['\n'], SEPARATORS) == (if s == "" then [] else [s])
    ensures Binding(s) == None && Binding(s + ['\n']) == None
  {
    UpToNulWhole(s);
    UpToNulWhole(s + ['\n']);
    assert s + ['\n'] == s + ['\n'] + "";
    SegmentsAt(s, '\n', "", SEPARATORS);
    SegmentsStep("", SEPARATORS);
    if s != "" {
      SegmentsWhole(s, SEPARATORS);
    }
  }

  /** The rest of a cut value binds nothing. */
  lemma {:induction false} PlainTail(s: string, rest: string, key: string)
    requires Plain(s)
    ensures Lookup(Chunks(s + ['\n'] + rest, LINE_SIZE - 1), key) == Lookup(Chunks(rest, LINE_SIZE - 1), key)
    decreases |s|
  {
    hide Chunks, Lookup, Binding;
    var n, w := LINE_SIZE - 1, s + ['\n'] + rest;
    ChunkOfLine(s, rest, n);
    ChunkStep(w, key);
    if |s| < n {
      OneField(s);
      assert w[|s| + 1..] == rest;
    } else {
      PlainParts(s, n);
      OneField(s[..n]);
      assert w[n..] == s[n..] + ['\n'] + rest;
      PlainTail(s[n..], rest, key);
    }
  }

  /** What the reader makes of one line: of a name longer than a chunk only the end counts,
      a value is cut where its chunk ends, and a line whose name ends with a chunk, or leaves
      no room for a value, binds nothing. */
  function CarriedBinding(p: (string, string)): (r: Option<(string, string)>) {
    LastChunk(p.0, p.1, |p.0| % (LINE_SIZE - 1))
  }

  /** The chunk that starts with the last `off` characters of the name. */
  function LastChunk(x: string, v: string, off: nat): (r: Option<(string, string)>)
    requires off <= |x| && off < LINE_SIZE - 1
  {
    var room := LINE_SIZE - 2 - off;
    if off == 0 || room == 0 then None
    else Some((x[|x| - off..], if |v| <= room then v else v[..room]))
  }

  function FirstCarried(ps: seq<(string, string)>, key: string): (r: Option<string>) {
    if ps == [] then None
    else match CarriedBinding(ps[0])
      case Some(kv) => if kv.0 == key then Some(kv.1) else FirstCarried(ps[1..], key)
      case None => FirstCarried(ps[1..], key)
  }

  /** The chunk in which a name ends. */
  lemma ShortName(x: string, v: string, rest: string, key: string)
    requires Plain(x) && Plain(v) && v != "" && |x| < LINE_SIZE - 1
    ensures var b := CarriedBinding((x, v));
            Lookup(Chunks(x + ['='] + v + ['\n'] + rest, LINE_SIZE - 1), key)
            == if b.Some? && b.value.0 == key then Some(b.value.1) else Lookup(Chunks(rest, LINE_SIZE - 1), key)
  {
    hide Chunks, Lookup, Binding;
    var n, l := LINE_SIZE - 1, x + ['='] + v;
    var s := l + ['\n'] + rest;
    assert x[|x| - |x| % n..] == x;
    ChunkOfLine(l, rest, n);
    ChunkStep(s, key);
    if |l| < n {
      FieldsOf(x, v);
      assert s[|l| + 1..] == rest;
    } else {
      var room := n - 1 - |x|;
      PlainParts(v, room);
      FieldsOf(x, v[..room]);
      assert l[..n] == x + ['='] + v[..room];
      assert s[n..] == v[room..] + ['\n'] + rest;
      PlainTail(v[room..], rest, key);
      assert |v| == room ==> v[..room] == v;
    }
  }

  lemma SameEnd(x: string, v: string)
    requires |x| >= LINE_SIZE - 1
    ensures CarriedBinding((x[LINE_SIZE - 1..], v)) == CarriedBinding((x, v))
  {
    SameOffset(|x|);
    SameLastChunk(x, v, |x| % (LINE_SIZE - 1));
  }

  lemma SameLastChunk(x: string, v: string, off: nat)
    requires off < LINE_SIZE - 1 && off + LINE_SIZE - 1 <= |x|
    ensures LastChunk(x[LINE_SIZE - 1..], v, off) == LastChunk(x, v, off)
  {
    var y := x[LINE_SIZE - 1..];
    assert y[|y| - off..] == x[|x| - off..];
  }

  lemma SameOffset(m: nat)
    requires m >= LINE_SIZE - 1
    ensures m % (LINE_SIZE - 1) + LINE_SIZE - 1 <= m
    ensures (m - (LINE_SIZE - 1)) % (LINE_SIZE - 1) == m % (LINE_SIZE - 1)
  {
  }

  lemma {:induction false} LineStep(x: string, v: string, rest: string, key: string)
    requires Plain(x) && Plain(v) && v != ""
    ensures var b := CarriedBinding((x, v));
            Lookup(Chunks(x + ['='] + v + ['\n'] + rest, LINE_SIZE - 1), key)
            == if b.Some? && b.value.0 == key then Some(b.value.1) else Lookup(Chunks(rest, LINE_SIZE - 1), key)
    decreases |x|
  {
    hide Chunks, Lookup, Binding, CarriedBinding, NextChunk;
    var n := LINE_SIZE - 1;
    if |x| < n {
      ShortName(x, v, rest, key);
    } else {
      var l := x + ['='] + v;
      var s := l + ['\n'] + rest;
      ChunkOfLine(l, rest, n);
      ChunkStep(s, key);
      PlainParts(x, n);
      assert l[..n] == x[..n];
      OneField(x[..n]);
      assert s[n..] == x[n..] + ['='] + v + ['\n'] + rest;
      LineStep(x[n..], v, rest, key);
      SameEnd(x, v);
    }
  }

  /** What a rendered configuration says about a key, for lines of any length. */
  lemma {:induction false} LookupRendered(ps: seq<(string, string)>, key: string)
    requires forall p :: p in ps ==> Carried(p)
    ensures Lookup(Chunks(Render(ps), LINE_SIZE - 1), key) == FirstCarried(ps, key)
  {
    if ps == [] {
      NothingLeft(key);
    } else {
      assert ps[0] in ps && forall p :: p in ps[1..] ==> p in ps;
      LookupRendered(ps[1..], key);
      assert Render(ps) == ps[0].0 + ['='] + ps[0].1 + ['\n'] + Render(ps[1..]);
      LineStep(ps[0].0, ps[0].1, Render(ps[1..]), key);
    }
  }

  /** A pair is read back unchanged if and only if its line fits one chunk. */
  lemma CarriedWhole(p: (string, string))
    requires Carried(p)
    ensures CarriedBinding(p) == Some(p) <==> |Line(p)| <= LINE_SIZE - 1
  {
    var n := LINE_SIZE - 1;
    if |p.0| < n {
      assert |p.0| % n == |p.0| && p.0[0..] == p.0;
    }
  }

  /** So, when every line fits, parsing a rendered configuration finds the first value
      bound to a key. */
  lemma ConfigRoundTrip(ps: seq<(string, string)>, key: string)
    requires forall p :: p in ps ==> Carried(p) && |Line(p)| <= LINE_SIZE - 1
    ensures Lookup(Chunks(Render(ps), LINE_SIZE - 1), key) == FirstBound(ps, key)
  {
    LookupRendered(ps, key);
    AllWhole(ps, key);
  }

  lemma {:induction false} AllWhole(ps: seq<(string, string)>, key: string)
    requires forall p :: p in ps ==> Carried(p) && |Line(p)| <= LINE_SIZE - 1
    ensures FirstCarried(ps, key) == FirstBound(ps, key)
  {
    if ps != [] {
      assert ps[0] in ps && forall p :: p in ps[1..] ==> p in ps;
      CarriedWhole(ps[0]);
      AllWhole(ps[1..], key);
    }
  }

  /** A rendered configuration file decides a key it binds, whatever the environment
      says, and leaves any other key to the environment. */
  lemma FileBeatsEnvironment(ps: seq<(string, string)>, env: Option<CText>, key: string)
    requires forall p :: p in ps ==> Carried(p)
    ensures Setting(Some(Render(ps)), env, key)
            == if FirstCarried(ps, key).Some? then FirstCarried(ps, key) else env
    ensures Setting(None, env, key) == env
  {
    LookupRendered(ps, key);
  }

  /** A single binding round-trips exactly when its line fits one chunk. */
  lemma OneLineRoundTrip(p: (string, string))
    requires Carried(p)
    ensures Lookup(Chunks(Render([p]), LINE_SIZE - 1), p.0) == Some(p.1) <==> |Line(p)| <= LINE_SIZE - 1
  {
    LookupRendered([p], p.0);
    CarriedWhole(p);
    assert FirstCarried([], p.0) == None;
  }

  /** A value that a line of a configuration file binds is never too long for the buffer. */
  lemma {:induction false} CarriedFits(ps: seq<(string, string)>, key: string)
    ensures FirstCarried(ps, key).Some? ==> |FirstCarried(ps, key).value| < 1023
  {
    if ps != [] {
      CarriedFits(ps[1..], key);
    }
  }

  /** Looking up a key in a configuration file made of name=value lines: the buffer holds
      the value of the first line that binds it, else what fits of the environment's. */
  method ReadBack(ps: seq<(string, string)>, key: CText, getenv: CText -> Option<CText>, envValue: array<char>)
    returns (ret: int)
    requires envValue.Length >= LINE_SIZE && forall p :: p in ps ==> Carried(p)
    modifies envValue
    ensures ret == if FirstCarried(ps, key).Some? || getenv(key).Some? then 0 else 1
    ensures FirstCarried(ps, key).Some? ==> CStringAt(envValue[..], 0, FirstCarried(ps, key).value)
    ensures FirstCarried(ps, key).None? && getenv(key).Some? ==>
              var v := getenv(key).value; CStringAt(envValue[..], 0, if |v| <= 1023 then v else v[..1023])
    ensures ret == 1 ==> envValue[..] == old(envValue[..])
    ensures FirstBound(ps, key).Some? && (forall p :: p in ps ==> |Line(p)| <= 1023) ==>
              ret == 0 && CStringAt(envValue[..], 0, FirstBound(ps, key).value)
  {
    var fs := new FileSystem(Some(Render(ps)));
    ret := ParseConfig(Some(key), fs, getenv, envValue);
    FileBeatsEnvironment(ps, getenv(key), key);
    CarriedFits(ps, key);
    if forall p :: p in ps ==> |Line(p)| <= 1023 {
      AllWhole(ps, key);
    }
  }
}
