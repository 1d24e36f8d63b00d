/**
 * The argument vector handed to the child: the wrapper's own arguments
 * with its `--claude` option removed, in both the separate-value form
 * (`--claude PATH`) and the attached form (`--claude=PATH`). Everything
 * else is passed on in order.
 */
module Args {

  const ClaudeFlag := "--claude"
  const ClaudeAssign := "--claude="

  /** `prefix` is a prefix of `s`, as Go's strings.HasPrefix. */
  predicate HasPrefix(s: string, prefix: string) {
    |prefix| <= |s| && s[..|prefix|] == prefix
  }

  /** Whether `arg` is the attached form of the option. */
  predicate IsAssign(arg: string) {
    HasPrefix(arg, ClaudeAssign)
  }

  /**
   * The arguments passed on, scanned from the front: a `--claude` that has
   * an element after it is dropped together with that element; an element
   * starting with `--claude=` is dropped; anything else is kept. A
   * trailing `--claude` has no value after it and is kept.
   */
  function Passthrough(raw: seq<string>): seq<string>
    decreases |raw|
  {
    if raw == [] then []
    else if raw[0] == ClaudeFlag && 1 < |raw| then Passthrough(raw[2..])
    else if IsAssign(raw[0]) then Passthrough(raw[1..])
    else [raw[0]] + Passthrough(raw[1..])
  }

  /** `sub` is `s` with some elements removed, the rest in their order. */
  predicate IsSubsequence(sub: seq<string>, s: seq<string>)
    decreases |s|
  {
    if sub == [] then true
    else if s == [] then false
    else (sub[0] == s[0] && IsSubsequence(sub[1..], s[1..])) || IsSubsequence(sub, s[1..])
  }

  /** The index loop of the source, which skips the option's value by advancing the index twice. */
  method PassthroughArgs(rawArgs: seq<string>) returns (args: seq<string>)
    ensures args == Passthrough(rawArgs)
    ensures IsSubsequence(args, rawArgs)
    ensures forall k :: 0 <= k < |args| ==> !IsAssign(args[k])
  {
    args := [];
    var i := 0;
    while i < |rawArgs|
      invariant 0 <= i <= |rawArgs|
      invariant args + Passthrough(rawArgs[i..]) == Passthrough(rawArgs)
    {
      var arg := rawArgs[i];
      if arg == ClaudeFlag && i + 1 < |rawArgs| {
        i := i + 1;
      } else if IsAssign(arg) {
      } else {
        args := args + [arg];
      }
      i := i + 1;
      assert rawArgs[i - 1..][1..] == rawArgs[i..];
    }
    assert rawArgs[i..] == [];
    PassthroughIsSubsequence(rawArgs);
    PassthroughDropsAssign(rawArgs);
  }

  lemma {:induction false} SubsequenceSkip(sub: seq<string>, s: seq<string>, n: nat)
    requires n <= |s|
    requires IsSubsequence(sub, s[n..])
    ensures IsSubsequence(sub, s)
    decreases n
  {
    if n > 0 {
      assert s[1..][n - 1..] == s[n..];
      SubsequenceSkip(sub, s[1..], n - 1);
    }
  }

  /** The result keeps some of the arguments, in their original order. */
  lemma {:induction false} PassthroughIsSubsequence(raw: seq<string>)
    ensures IsSubsequence(Passthrough(raw), raw)
    decreases |raw|
  {
    if raw == [] {
    } else if raw[0] == ClaudeFlag && 1 < |raw| {
      PassthroughIsSubsequence(raw[2..]);
      SubsequenceSkip(Passthrough(raw[2..]), raw, 2);
    } else if IsAssign(raw[0]) {
      PassthroughIsSubsequence(raw[1..]);
      SubsequenceSkip(Passthrough(raw[1..]), raw, 1);
    } else {
      PassthroughIsSubsequence(raw[1..]);
      var r := Passthrough(raw);
      assert r[0] == raw[0] && r[1..] == Passthrough(raw[1..]);
    }
  }

  /** No attached-form option reaches the child. */
  lemma {:induction false} PassthroughDropsAssign(raw: seq<string>)
    ensures forall k :: 0 <= k < |Passthrough(raw)| ==> !IsAssign(Passthrough(raw)[k])
    decreases |raw|
  {
    if raw == [] {
    } else if raw[0] == ClaudeFlag && 1 < |raw| {
      PassthroughDropsAssign(raw[2..]);
    } else {
      PassthroughDropsAssign(raw[1..]);
    }
  }

  /** A `--claude` reaches the child only as the final argument, with no value after it. */
  lemma {:induction false} PassthroughFlagOnlyLast(raw: seq<string>)
    ensures forall k :: 0 <= k < |Passthrough(raw)| && Passthrough(raw)[k] == ClaudeFlag ==>
      k == |Passthrough(raw)| - 1 && raw[|raw| - 1] == ClaudeFlag
    decreases |raw|
  {
    if raw == [] {
    } else if raw[0] == ClaudeFlag && 1 < |raw| {
      PassthroughFlagOnlyLast(raw[2..]);
    } else if IsAssign(raw[0]) {
      PassthroughFlagOnlyLast(raw[1..]);
    } else {
      PassthroughFlagOnlyLast(raw[1..]);
      var r := Passthrough(raw);
      if raw[0] == ClaudeFlag {
        assert |raw| == 1;
        assert raw[1..] == [];
      }
      forall k | 0 < k < |r| && r[k] == ClaudeFlag
        ensures k == |r| - 1 && raw[|raw| - 1] == ClaudeFlag
      {
        assert Passthrough(raw[1..])[k - 1] == ClaudeFlag;
        assert raw[1..][|raw[1..]| - 1] == raw[|raw| - 1];
      }
    }
  }

  /** Arguments that never mention the option are passed on unchanged. */
  lemma {:induction false} PassthroughUnchanged(raw: seq<string>)
    requires forall k :: 0 <= k < |raw| ==> raw[k] != ClaudeFlag && !IsAssign(raw[k])
    ensures Passthrough(raw) == raw
    decreases |raw|
  {
    if raw != [] {
      PassthroughUnchanged(raw[1..]);
    }
  }

  /** Each removed `--claude VALUE` pair or `--claude=VALUE` element leaves the rest unaffected. */
  lemma OptionRemoved(value: string, rest: seq<string>)
    ensures Passthrough([ClaudeFlag, value] + rest) == Passthrough(rest)
    ensures Passthrough([ClaudeAssign + value] + rest) == Passthrough(rest)
  {
    assert ([ClaudeFlag, value] + rest)[2..] == rest;
    assert ([ClaudeAssign + value] + rest)[1..] == rest;
    assert (ClaudeAssign + value)[..|ClaudeAssign|] == ClaudeAssign;
  }
}
