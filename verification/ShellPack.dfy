/** The shell client of shell/main.c: the arguments are packed into one command buffer, each
    followed by a NUL. */
module ShellPack {

  const SHELL_MAX_CMD_LEN: nat := 1024
  const NUL: char := '\0'

  datatype Outcome =
    | NoArguments
    | OpenFailed
    | TooLong
    | Sent(cmd: seq<char>)

  ghost predicate NulFree(a: seq<char>) {
    forall i :: 0 <= i < |a| ==> a[i] != NUL
  }

  ghost predicate AllNulFree(args: seq<seq<char>>) {
    forall i :: 0 <= i < |args| ==> NulFree(args[i])
  }

  function PackedLength(args: seq<seq<char>>): nat {
    if args == [] then 0 else PackedLength(args[..|args| - 1]) + |args[|args| - 1]| + 1
  }

  /** The wire form: every argument followed by a NUL. */
  function Packed(args: seq<seq<char>>): (r: seq<char>)
    ensures |r| == PackedLength(args)
  {
    if args == [] then [] else Packed(args[..|args| - 1]) + args[|args| - 1] + [NUL]
  }

  /** What a receiver reads: the pieces that end in a NUL (an unterminated rest is dropped). */
  function SplitAtNul(s: seq<char>, piece: seq<char> := []): seq<seq<char>> {
    if s == [] then []
    else if s[0] == NUL then [piece] + SplitAtNul(s[1..], [])
    else SplitAtNul(s[1..], piece + [s[0]])
  }

  lemma PackedLengthGrows(args: seq<seq<char>>, k: nat)
    requires k <= |args|
    ensures PackedLength(args[..k]) <= PackedLength(args)
  {
    if k == |args| {
      assert args[..k] == args;
    } else {
      PackedLengthGrows(args[..|args| - 1], k);
      assert args[..|args| - 1][..k] == args[..k];
    }
  }

  /** The packing loop of `main`, with the outcome of `ipc_open` as `fd`.  The buffer is written
      only inside its 1024 bytes, the call rejects exactly the argument lists whose wire form
      does not fit, and what it sends is the wire form. */
  method ShellMain(argv: seq<seq<char>>, fd: int) returns (outcome: Outcome)
    ensures outcome.NoArguments? <==> |argv| <= 1
    ensures outcome.OpenFailed? <==> |argv| > 1 && fd < 0
    ensures outcome.TooLong? <==> |argv| > 1 && fd >= 0 && PackedLength(argv[1..]) > SHELL_MAX_CMD_LEN
    ensures outcome.Sent? ==> outcome.cmd == Packed(argv[1..])
  {
    if |argv| <= 1 {
      return NoArguments;
    }
    if fd < 0 {
      return OpenFailed;
    }
    var cmd := new char[SHELL_MAX_CMD_LEN];
    var cmdLen := 0;
    var i := 1;
    while i < |argv|
      invariant 1 <= i <= |argv|
      invariant cmdLen <= SHELL_MAX_CMD_LEN
      invariant cmd[..cmdLen] == Packed(argv[1..i])
    {
      var paraLen := |argv[i]|;
      assert argv[1..i + 1][..i - 1] == argv[1..i];
      if cmdLen + paraLen >= SHELL_MAX_CMD_LEN {
        PackedLengthGrows(argv[1..], i);
        assert argv[1..][..i] == argv[1..i + 1];
        return TooLong;
      }
      Memcpy(cmd, cmdLen, argv[i]);
      cmdLen := cmdLen + paraLen;
      cmd[cmdLen] := NUL;
      cmdLen := cmdLen + 1;
      assert cmd[..cmdLen] == Packed(argv[1..i]) + argv[i] + [NUL];
      i := i + 1;
    }
    assert argv[1..i] == argv[1..];
    outcome := Sent(cmd[..cmdLen]);
  }

  method Memcpy(dest: array<char>, at: nat, src: seq<char>)
    requires at + |src| <= dest.Length
    modifies dest
    ensures dest[..at + |src|] == old(dest[..at]) + src
    ensures dest[at + |src|..] == old(dest[at + |src|..])
  {
    forall k | 0 <= k < |src| {
      dest[at + k] := src[k];
    }
  }

  lemma {:induction false} SplitAppends(s: seq<char>, piece: seq<char>, a: seq<char>)
    requires |s| > 0 ==> s[|s| - 1] == NUL
    requires s == [] ==> piece == []
    requires NulFree(a)
    ensures SplitAtNul(s + a + [NUL], piece) == SplitAtNul(s, piece) + [a]
  {
    if s == [] {
      assert s + a + [NUL] == a + [NUL];
      SplitOne(a, []);
      assert [] + a == a;
    } else {
      assert (s + a + [NUL])[1..] == s[1..] + a + [NUL];
      if s[0] == NUL {
        SplitAppends(s[1..], [], a);
        assert [piece] + (SplitAtNul(s[1..], []) + [a]) == ([piece] + SplitAtNul(s[1..], [])) + [a];
      } else {
        SplitAppends(s[1..], piece + [s[0]], a);
      }
    }
  }

  lemma {:induction false} SplitOne(a: seq<char>, piece: seq<char>)
    requires NulFree(a)
    ensures SplitAtNul(a + [NUL], piece) == [piece + a]
  {
    if a == [] {
      assert a + [NUL] == [NUL] && piece + a == piece;
    } else {
      assert (a + [NUL])[1..] == a[1..] + [NUL];
      SplitOne(a[1..], piece + [a[0]]);
      assert piece + [a[0]] + a[1..] == piece + a;
    }
  }

  /** Splitting the wire form at its NULs recovers exactly the arguments. */
  lemma {:induction false} SplitRecovers(args: seq<seq<char>>)
    requires AllNulFree(args)
    ensures SplitAtNul(Packed(args)) == args
  {
    if args != [] {
      var n := |args| - 1;
      SplitRecovers(args[..n]);
      SplitAppends(Packed(args[..n]), [], args[n]);
      assert args == args[..n] + [args[n]];
    }
  }

  /** So no two argument lists share a wire form. */
  lemma PackedIsInjective(args: seq<seq<char>>, others: seq<seq<char>>)
    requires AllNulFree(args) && AllNulFree(others) && Packed(args) == Packed(others)
    ensures args == others
  {
    SplitRecovers(args);
    SplitRecovers(others);
  }
}
