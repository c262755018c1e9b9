/** Names of chunk files: directory, file id, chunk id and version, and back again. */
module ChunkName {
  import opened Common

  // ----- numbers as text

  function DigitChar(d: nat): char
    requires d < 10
  {
    '0' + d as char
  }

  predicate IsDigit(c: char) { '0' <= c <= '9' }

  function DigitValue(c: char): nat
    requires IsDigit(c)
  {
    c as int - '0' as int
  }

  function Digits(n: nat): string {
    if n < 10 then [DigitChar(n)] else Digits(n / 10) + [DigitChar(n % 10)]
  }

  /** How an integer is printed. */
  function Show(i: int): string {
    if i < 0 then "-" + Digits(-i) else Digits(i)
  }

  /** Value of the digits at the head of the text, after those that make up `acc`. */
  function Accumulate(s: string, acc: nat): nat {
    if s == [] || !IsDigit(s[0]) then acc else Accumulate(s[1..], 10 * acc + DigitValue(s[0]))
  }

  predicate IsSpace(c: char) { c == ' ' || '\t' <= c <= '\r' }

  function SkipSpace(s: string): string {
    if s != [] && IsSpace(s[0]) then SkipSpace(s[1..]) else s
  }

  /** How the C library reads an integer: white space, a sign, digits; the rest is ignored. */
  function Atoll(s: string): int {
    var t := SkipSpace(s);
    if t != [] && t[0] == '-' then 0 - Accumulate(t[1..], 0)
    else if t != [] && t[0] == '+' then Accumulate(t[1..], 0)
    else Accumulate(t, 0)
  }

  predicate AllDigits(s: string) { forall i | 0 <= i < |s| :: IsDigit(s[i]) }

  lemma {:induction false} DigitsAreDigits(n: nat)
    ensures AllDigits(Digits(n)) && Digits(n) != []
  {
    if n >= 10 { DigitsAreDigits(n / 10); }
  }

  lemma {:induction false} AccumulateLast(s: string, c: char, acc: nat)
    requires AllDigits(s) && IsDigit(c)
    ensures Accumulate(s + [c], acc) == 10 * Accumulate(s, acc) + DigitValue(c)
  {
    if s == [] {
      assert (s + [c])[1..] == [];
    } else {
      assert (s + [c])[1..] == s[1..] + [c];
      AccumulateLast(s[1..], c, 10 * acc + DigitValue(s[0]));
    }
  }

  lemma {:induction false} ReadDigits(n: nat)
    ensures Accumulate(Digits(n), 0) == n
  {
    if n >= 10 {
      ReadDigits(n / 10);
      DigitsAreDigits(n / 10);
      AccumulateLast(Digits(n / 10), DigitChar(n % 10), 0);
    } else {
      assert [DigitChar(n)][1..] == [];
    }
  }

  /** What was printed is read back. */
  lemma ReadsBack(i: int)
    ensures Atoll(Show(i)) == i
  {
    if i < 0 {
      ReadDigits(-i);
      assert ("-" + Digits(-i))[1..] == Digits(-i);
    } else {
      ReadDigits(i);
      DigitsAreDigits(i);
    }
  }

  // ----- splitting

  function Find(s: string, c: char): (k: nat)
    ensures k <= |s| && (k < |s| ==> s[k] == c)
  {
    if s == [] || s[0] == c then 0 else 1 + Find(s[1..], c)
  }

  function Split(s: string, sep: char): seq<string>
    decreases |s|
  {
    var k := Find(s, sep);
    if k == |s| then [s] else [s[..k]] + Split(s[k + 1..], sep)
  }

  lemma {:induction false} FindIn(a: string, rest: string, c: char)
    requires c !in a && rest != [] && rest[0] == c
    ensures Find(a + rest, c) == |a|
  {
    if a == [] {
      assert a + rest == rest;
    } else {
      assert (a + rest)[1..] == a[1..] + rest;
      FindIn(a[1..], rest, c);
    }
  }

  lemma {:induction false} FindNone(a: string, c: char)
    requires c !in a
    ensures Find(a, c) == |a|
  {
    if a != [] { FindNone(a[1..], c); }
  }

  lemma SplitFirst(a: string, b: string, sep: char)
    requires sep !in a
    ensures Split(a + [sep] + b, sep) == [a] + Split(b, sep)
  {
    var s := a + [sep] + b;
    assert s == a + ([sep] + b);
    FindIn(a, [sep] + b, sep);
    assert s[..|a|] == a && s[|a| + 1..] == b;
  }

  lemma SplitLast(a: string, sep: char)
    requires sep !in a
    ensures Split(a, sep) == [a]
  {
    FindNone(a, sep);
  }

  method FindFrom(path: string, curr: nat, separator: char) returns (next: nat)
    requires curr <= |path|
    ensures next == curr + Find(path[curr..], separator)
  {
    next := curr;
    while next < |path| && path[next] != separator
      invariant curr <= next <= |path|
      invariant Find(path[curr..], separator) == next - curr + Find(path[next..], separator)
    {
      assert path[next..][1..] == path[next + 1..];
      next := next + 1;
    }
  }

  lemma SplitStep(path: string, curr: nat, next: nat, separator: char)
    requires curr <= next <= |path| && next == curr + Find(path[curr..], separator)
    ensures Split(path[curr..], separator) ==
            if next == |path| then [path[curr..next]] else [path[curr..next]] + Split(path[next + 1..], separator)
  {
    assert path[curr..][..next - curr] == path[curr..next];
    if next == |path| { assert path[curr..] == path[curr..next]; }
    if next < |path| { assert path[curr..][next - curr + 1..] == path[next + 1..]; }
  }

  lemma SplitAdvance(before: seq<string>, path: string, curr: nat, next: nat, separator: char)
    requires curr <= next < |path| && next == curr + Find(path[curr..], separator)
    ensures before + Split(path[curr..], separator) == (before + [path[curr..next]]) + Split(path[next + 1..], separator)
  {
    SplitStep(path, curr, next, separator);
    Associates(before, [path[curr..next]], Split(path[next + 1..], separator));
  }

  lemma Associates(a: seq<string>, b: seq<string>, c: seq<string>)
    ensures a + (b + c) == (a + b) + c
  {
  }

  /** Moves two indexes over the text, and collects what lies between separators. */
  method SplitPath(path: string, separator: char) returns (component: seq<string>)
    ensures component == Split(path, separator)
  {
    component := [];
    var curr := 0;
    assert path[0..] == path;
    var next := FindFrom(path, curr, separator);
    while next < |path|
      invariant curr <= next <= |path| && next == curr + Find(path[curr..], separator)
      invariant component + Split(path[curr..], separator) == Split(path, separator)
      decreases |path| - curr
    {
      SplitAdvance(component, path, curr, next, separator);
      component := component + [path[curr..next]];
      curr := next + 1;
      next := FindFrom(path, curr, separator);
    }
    SplitStep(path, curr, next, separator);
    component := component + [path[curr..next]];
  }

  // ----- names

  /** Position of the last slash, or -1. */
  function LastSlash(s: string): (k: int)
    ensures -1 <= k < |s| && (k >= 0 ==> s[k] == '/')
    ensures forall j | k < j < |s| :: s[j] != '/'
  {
    if s == [] then -1
    else if s[|s| - 1] == '/' then |s| - 1
    else LastSlash(s[..|s| - 1])
  }

  datatype Name = Name(dir: string, fileId: int, chunkId: int, version: int)

  function FileName(n: Name): string {
    Show(n.fileId) + "." + (Show(n.chunkId) + "." + Show(n.version))
  }

  function MakeChunkPathname(n: Name): string {
    n.dir + "/" + FileName(n)
  }

  /** None: not the name of a chunk. */
  function ParsePathname(path: string): Option<Name> {
    var slash := LastSlash(path);
    if slash < 0 then None
    else
      var parts := Split(path[slash + 1..], '.');
      if |parts| != 3 then None
      else Some(Name(path[..slash], Atoll(parts[0]), Atoll(parts[1]), Atoll(parts[2])))
  }

  lemma ShowIsPlain(i: int)
    ensures '.' !in Show(i) && '/' !in Show(i)
  {
    DigitsAreDigits(if i < 0 then -i else i);
  }

  lemma FileNameSplits(n: Name)
    ensures Split(FileName(n), '.') == [Show(n.fileId), Show(n.chunkId), Show(n.version)]
    ensures '/' !in FileName(n)
  {
    var a, b, c := Show(n.fileId), Show(n.chunkId), Show(n.version);
    ShowIsPlain(n.fileId);
    ShowIsPlain(n.chunkId);
    ShowIsPlain(n.version);
    SplitFirst(a, b + "." + c, '.');
    SplitFirst(b, c, '.');
    SplitLast(c, '.');
  }

  lemma LastSlashIs(s: string, k: nat)
    requires k < |s| && s[k] == '/' && forall j | k < j < |s| :: s[j] != '/'
    ensures LastSlash(s) == k
  {
  }

  lemma SlashFound(dir: string, name: string, path: string)
    requires '/' !in name && path == dir + "/" + name
    ensures LastSlash(path) == |dir| && path[..|dir|] == dir && path[|dir| + 1..] == name
  {
    assert |path| == |dir| + 1 + |name|;
    forall j | |dir| < j < |path| ensures path[j] != '/' {
      var i := j - |dir| - 1;
      assert path[j] == name[i];
      assert name[i] in name;
    }
    LastSlashIs(path, |dir|);
  }

  /** Parsing gives back what the name was made of, whatever dots and slashes the directory has. */
  lemma NamesRoundTrip(n: Name)
    ensures ParsePathname(MakeChunkPathname(n)) == Some(n)
  {
    FileNameSplits(n);
    SlashFound(n.dir, FileName(n), MakeChunkPathname(n));
    ReadsBack(n.fileId);
    ReadsBack(n.chunkId);
    ReadsBack(n.version);
  }

  /** Different chunks never share a file. */
  lemma NamesAreUnique(m: Name, n: Name)
    requires MakeChunkPathname(m) == MakeChunkPathname(n)
    ensures m == n
  {
    NamesRoundTrip(m);
    NamesRoundTrip(n);
  }
}
