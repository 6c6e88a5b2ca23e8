/** `stan3_c_api.hpp`: the helpers that move strings between C++ and the C
    caller: a bounded copy into the caller's error buffer, and the
    conversions between `argc`/`argv` and a vector of strings. A C string
    is a `char` array read up to its first NUL; a null pointer is `null`. */
module CApiHelpers {

  /** No NUL character occurs in `s`. */
  predicate NoNul(s: string)
  {
    forall k :: 0 <= k < |s| ==> s[k] != '\0'
  }

  /** The C string stored at the start of `s`: everything before the first
      NUL (all of `s` when it holds none). */
  function CStringOf(s: string): (r: string)
    ensures |r| <= |s| && r == s[..|r|]
    ensures NoNul(r)
    ensures |r| < |s| ==> s[|r|] == '\0'
    decreases |s|
  {
    if s == [] || s[0] == '\0' then [] else [s[0]] + CStringOf(s[1..])
  }

  /** A NUL-free prefix of `s` followed by a NUL (or by the end of `s`) is
      the C string stored in `s`. */
  lemma CStringOfUnique(s: string, p: nat)
    requires p <= |s| && NoNul(s[..p]) && (p < |s| ==> s[p] == '\0')
    ensures CStringOf(s) == s[..p]
  {
    var r := CStringOf(s);
    forall k | 0 <= k < p
      ensures s[k] != '\0'
    {
      assert s[..p][k] == s[k];
    }
  }

  /** What `strncpy(dst, src.c_str(), n)` writes into dst[0..n), for
      n <= |src|: the characters of the C string of `src`, then NUL padding. */
  function Strncpy(src: string, n: nat): (r: string)
    requires n <= |src|
    ensures |r| == n
    ensures forall k :: 0 <= k < n ==> r[k] == (if k < |CStringOf(src)| then src[k] else '\0')
  {
    var c := CStringOf(src);
    if n <= |c| then src[..n] else c + seq(n - |c|, _ => '\0')
  }

  /** The number of characters `copy_error_message` copies. */
  function CopyLength(msg: string, bufferSize: nat): (n: nat)
    requires bufferSize > 0
    ensures n <= |msg| && n < bufferSize
    ensures n == |msg| || n == bufferSize - 1
  {
    if |msg| < bufferSize - 1 then |msg| else bufferSize - 1
  }

  /** The buffer contents after copying `msg` into a usable buffer of
      `bufferSize` characters whose contents were `before`: the copied
      characters, a NUL at the copy length, and everything after it as it
      was; an empty buffer is left alone. */
  predicate CopiedInto(before: string, after: string, bufferSize: nat, msg: string)
  {
    if bufferSize == 0 then after == before
    else
      var n := CopyLength(msg, bufferSize);
      && |before| == |after| && n < |before|
      && after[..n] == Strncpy(msg, n) && after[n] == '\0' && after[n + 1..] == before[n + 1..]
  }

  /** Position `i` of a `strncpy` copy holds the message's character while
      no NUL has been met, and NUL from the first NUL on. */
  lemma StrncpyAt(msg: string, n: nat, i: nat)
    requires i < n <= |msg|
    ensures Strncpy(msg, n)[i] == if NoNul(msg[..i + 1]) then msg[i] else '\0'
  {
    var c := CStringOf(msg);
    if i < |c| {
      assert msg[..i + 1] == c[..i + 1];
    } else {
      assert msg[..i + 1][|c|] == '\0';
    }
  }

  /** `copy_error_message`: nothing is written through a null pointer or
      into an empty buffer; otherwise at most `bufferSize - 1` characters of
      the message are copied (`strncpy`, which stops at a NUL in the message
      and pads with NULs) and a NUL is written after them. */
  method CopyErrorMessage(msg: string, buffer: array?<char>, bufferSize: nat)
    requires buffer != null ==> bufferSize <= buffer.Length
    modifies buffer
    ensures buffer != null ==> CopiedInto(old(buffer[..]), buffer[..], bufferSize, msg)
  {
    if buffer != null && bufferSize > 0 {
      var copyLen := if |msg| < bufferSize - 1 then |msg| else bufferSize - 1;
      var i := 0;
      var ended := false;
      while i < copyLen
        invariant 0 <= i <= copyLen
        invariant ended <==> !NoNul(msg[..i])
        invariant forall k :: 0 <= k < i ==> buffer[k] == Strncpy(msg, copyLen)[k]
        invariant forall k :: i <= k < buffer.Length ==> buffer[k] == old(buffer[k])
      {
        assert msg[..i + 1] == msg[..i] + [msg[i]];
        ended := ended || msg[i] == '\0';
        StrncpyAt(msg, copyLen, i);
        buffer[i] := if ended then '\0' else msg[i];
        i := i + 1;
      }
      buffer[copyLen] := '\0';
    }
  }

  /** `argv_to_vector`: the first `argc` C strings of `argv`, in order. */
  method ArgvToVector(argc: int, argv: array<array?<char>>) returns (args: seq<string>)
    requires 0 <= argc <= argv.Length
    requires forall i :: 0 <= i < argc ==> argv[i] != null && '\0' in argv[i][..]
    ensures |args| == argc
    ensures forall i :: 0 <= i < argc ==> args[i] == CStringOf(argv[i][..])
  {
    args := [];
    var i := 0;
    while i < argc
      invariant 0 <= i <= argc
      invariant |args| == i
      invariant forall k :: 0 <= k < i ==> args[k] == CStringOf(argv[k][..])
    {
      args := args + [CStringOf(argv[i][..])];
      i := i + 1;
    }
  }

  /** `strcpy(dst, src.c_str())`: the C string of `src` and its terminating
      NUL; the rest of `dst` is untouched. */
  method StrCpy(dst: array<char>, src: string)
    requires |CStringOf(src)| < dst.Length
    modifies dst
    ensures dst[..|CStringOf(src)| + 1] == CStringOf(src) + ['\0']
    ensures dst[|CStringOf(src)| + 1..] == old(dst[|CStringOf(src)| + 1..])
  {
    ghost var c := CStringOf(src);
    var i := 0;
    while i < |src| && src[i] != '\0'
      invariant 0 <= i <= |c|
      invariant forall k :: 0 <= k < i ==> dst[k] == c[k]
      invariant forall k :: i <= k < dst.Length ==> dst[k] == old(dst[k])
    {
      dst[i] := src[i];
      i := i + 1;
    }
    dst[i] := '\0';
    assert dst[..|c| + 1] == c + ['\0'];
  }

  /** `vector_to_argv`: a new array of `args.size()` new C strings, each
      holding one argument and its terminator. */
  method VectorToArgv(args: seq<string>) returns (argc: int, argv: array<array?<char>>)
    requires |args| <= 0x7fff_ffff
    ensures argc == |args| && argv.Length == argc && fresh(argv)
    ensures forall i :: 0 <= i < argc ==>
              && argv[i] != null && fresh(argv[i]) && argv[i].Length == |args[i]| + 1
              && argv[i][..|CStringOf(args[i])| + 1] == CStringOf(args[i]) + ['\0']
    ensures forall i :: 0 <= i < argc && NoNul(args[i]) ==> argv[i][..] == args[i] + ['\0']
    ensures forall i, j :: 0 <= i < j < argc ==> argv[i] != argv[j]
  {
    argc := |args|;
    argv := new array?<char>[argc];
    var i := 0;
    while i < argc
      invariant 0 <= i <= argc
      invariant forall k :: 0 <= k < i ==>
                  && argv[k] != null && fresh(argv[k]) && argv[k].Length == |args[k]| + 1
                  && argv[k][..|CStringOf(args[k])| + 1] == CStringOf(args[k]) + ['\0']
      invariant forall j, k :: 0 <= j < k < i ==> argv[j] != argv[k]
    {
      var s := new char[|args[i]| + 1];
      StrCpy(s, args[i]);
      argv[i] := s;
      i := i + 1;
    }
    forall i | 0 <= i < argc && NoNul(args[i])
      ensures argv[i][..] == args[i] + ['\0']
    {
      CStringOfUnique(args[i], |args[i]|);
      assert argv[i][..] == argv[i][..|CStringOf(args[i])| + 1];
    }
  }

  /** Converting a vector to `argv` and back gives each argument up to its
      first NUL: arguments without NULs come back unchanged. */
  method ArgvRoundTrip(args: seq<string>) returns (back: seq<string>)
    requires |args| <= 0x7fff_ffff
    ensures |back| == |args|
    ensures forall i :: 0 <= i < |args| ==> back[i] == CStringOf(args[i])
    ensures (forall i :: 0 <= i < |args| ==> NoNul(args[i])) ==> back == args
  {
    var argc, argv := VectorToArgv(args);
    forall i | 0 <= i < argc
      ensures '\0' in argv[i][..]
      ensures CStringOf(argv[i][..]) == CStringOf(args[i])
    {
      var c := CStringOf(args[i]);
      assert argv[i][..][..|c| + 1] == c + ['\0'];
      assert argv[i][..][|c|] == '\0';
      CStringOfUnique(argv[i][..], |c|);
    }
    back := ArgvToVector(argc, argv);
    if forall i :: 0 <= i < |args| ==> NoNul(args[i]) {
      forall i | 0 <= i < |args|
        ensures back[i] == args[i]
      {
        CStringOfUnique(args[i], |args[i]|);
      }
    }
  }

  /** The C string read back from the buffer after a copy is the start of
      the message's C string: all of it when the message fits, and so the
      whole message when it also holds no NUL. */
  lemma CopyReadsBack(before: string, after: string, bufferSize: nat, msg: string)
    requires bufferSize > 0 && CopiedInto(before, after, bufferSize, msg)
    ensures var n := CopyLength(msg, bufferSize);
            CStringOf(after) == CStringOf(msg)[..if n < |CStringOf(msg)| then n else |CStringOf(msg)|]
    ensures |msg| < bufferSize && NoNul(msg) ==> CStringOf(after) == msg
  {
    var n := CopyLength(msg, bufferSize);
    var c := CStringOf(msg);
    var p := if n < |c| then n else |c|;
    assert after[..p] == msg[..p] == c[..p];
    assert p < n ==> after[p] == '\0';
    assert after[..n][..p] == after[..p];
    CStringOfUnique(after, p);
    if |msg| < bufferSize && NoNul(msg) {
      CStringOfUnique(msg, |msg|);
    }
  }
}
