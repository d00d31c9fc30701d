/** Which arguments of a compiler command name output files, and how the executor redirects them. */
module Redirection {
  import opened Collections
  import opened Messages

  const U16: nat := 0x1_0000

  // ---------- the client reads the command line ----------

  predicate Remotes(arg: string) { arg == "-c" || arg == "-s" || arg == "-e" || arg == "-MD" || Prepares(arg) }
  predicate Prepares(arg: string) { arg == "-M" || arg == "-MM" }

  /** Argument `k` announces that the next one is an output file. */
  predicate Announces(args: seq<string>, k: int) {
    1 <= k < |args| - 1 && (args[k] == "-o" || args[k] == "-MF")
  }

  /** The positions of output files among the first `n + 1` arguments. */
  function Outputs(args: seq<string>, n: nat): seq<nat> {
    if n == 0 then [] else Outputs(args, n - 1) + (if Announces(args, n - 1) then [n] else [])
  }

  /** The positions are exactly those after an announcement, in increasing order. */
  lemma {:induction false} OutputsExact(args: seq<string>, n: nat)
    ensures forall k: nat :: k in Outputs(args, n) <==> k <= n && Announces(args, k - 1)
    ensures forall a, b :: 0 <= a < b < |Outputs(args, n)| ==> Outputs(args, n)[a] < Outputs(args, n)[b]
    ensures forall a :: 0 <= a < |Outputs(args, n)| ==> 2 <= Outputs(args, n)[a] <= n && Outputs(args, n)[a] < |args|
  {
    if n == 0 {
    } else {
      OutputsExact(args, n - 1);
      var o, o' := Outputs(args, n - 1), Outputs(args, n);
      forall k: nat ensures k in o' <==> k <= n && Announces(args, k - 1) {
        assert k in o' <==> k in o || (Announces(args, n - 1) && k == n);
      }
      forall a | 0 <= a < |o| ensures o[a] in o && o[a] < n {
      }
    }
  }

  /** Positions are stored as 16-bit integers. */
  function Narrow(xs: seq<nat>): seq<nat> {
    seq(|xs|, k requires 0 <= k < |xs| => xs[k] % U16)
  }

  /** The stored positions are right: there are none, or the last fits in 16 bits. */
  predicate Storable(args: seq<string>) {
    var o := Outputs(args, |args|);
    o == [] || o[|o| - 1] < 65536
  }

  /** The stored positions are the right ones exactly if the last is below 65536; wrong or not, they are in range. */
  lemma NarrowExact(args: seq<string>)
    ensures InRange(args, Narrow(Outputs(args, |args|)))
    ensures Narrow(Outputs(args, |args|)) == Outputs(args, |args|) <==> Storable(args)
    ensures |args| <= 65536 ==> Storable(args)
  {
    var o := Outputs(args, |args|);
    OutputsExact(args, |args|);
    NarrowSorted(o);
    NarrowBelow(args, o);
  }

  lemma NarrowBelow(args: seq<string>, o: seq<nat>)
    requires InRange(args, o)
    ensures InRange(args, Narrow(o))
  {
  }

  lemma NarrowSorted(o: seq<nat>)
    requires forall a, b :: 0 <= a < b < |o| ==> o[a] < o[b]
    ensures Narrow(o) == o <==> (o == [] || o[|o| - 1] < U16)
  {
    if o != [] {
      var n := |o| - 1;
      if o[n] < U16 {
        forall k | 0 <= k < |o| ensures Narrow(o)[k] == o[k] {
          assert o[k] <= o[n];
        }
      } else {
        assert Narrow(o)[n] == o[n] % U16 != o[n];
      }
    }
  }

  /** A command with an output beyond position 65535, whose stored position names another argument. */
  lemma FarOutputMisplaced()
    ensures exists args: seq<string> :: |args| > 0 && Narrow(Outputs(args, |args|)) != Outputs(args, |args|)
  {
    var args: seq<string> := seq(U16 + 1, k => if k == U16 - 1 then "-o" else "x");
    OutputsExact(args, |args|);
    assert Announces(args, U16 - 1);
    assert U16 in Outputs(args, |args|);
    NarrowExact(args);
  }

  /** What the flags mean, one by one. */
  lemma FlagsMean(args: seq<string>, k: nat)
    requires 1 <= k < |args|
    ensures Remotes(args[k]) <==> args[k] in {"-c", "-s", "-e", "-MD", "-M", "-MM"}
    ensures Prepares(args[k]) <==> args[k] in {"-M", "-MM"}
    ensures k + 1 in Outputs(args, |args|) <==> k + 1 < |args| && args[k] in {"-o", "-MF"}
  {
    OutputsExact(args, |args|);
  }

  /** An ordinary compilation is remote, not urgent, and its output is the argument after `-o`. */
  method Compilation() returns (local: bool, urgent: bool, outs: seq<nat>)
    ensures !local && !urgent && outs == [4]
  {
    var args := ["g++", "test.cpp", "-c", "-o", "test.o"];
    NoOutputs(args, 3);
    OneOutput(args, 4);
    NarrowOne(4);
    assert Remotes(args[2]);
    local, urgent, outs := HandleGnu(args);
  }

  /** A generation of dependencies is remote and urgent, and its output is the argument after `-MF`. */
  method Dependencies() returns (local: bool, urgent: bool, outs: seq<nat>)
    ensures !local && urgent && outs == [4]
  {
    var args := ["g++", "-MM", "test.cpp", "-MF", "test.d"];
    NoOutputs(args, 3);
    OneOutput(args, 4);
    NarrowOne(4);
    assert Remotes(args[1]) && Prepares(args[1]);
    local, urgent, outs := HandleGnu(args);
  }

  /** A link is local. */
  method Linking() returns (local: bool, urgent: bool, outs: seq<nat>)
    ensures local && !urgent && outs == [3]
  {
    var args := ["g++", "test.o", "-o", "test"];
    NoOutputs(args, 2);
    OneOutput(args, 3);
    NarrowOne(3);
    local, urgent, outs := HandleGnu(args);
  }

  /** One announcement, just before the last argument. */
  lemma OneOutput(args: seq<string>, last: nat)
    requires 2 <= last && last + 1 == |args| && Announces(args, last - 1) && Outputs(args, last - 1) == []
    ensures Outputs(args, last + 1) == [last]
  {
    OutputsStep(args, last);
    assert !Announces(args, last);
    OutputsStep(args, last + 1);
  }

  lemma OutputsStep(args: seq<string>, n: nat)
    requires n > 0
    ensures Outputs(args, n) == Outputs(args, n - 1) + if Announces(args, n - 1) then [n] else []
  {
  }

  lemma NarrowOne(x: nat)
    requires x < 65536
    ensures Narrow([x]) == [x]
  {
  }

  lemma {:induction false} NoOutputs(args: seq<string>, n: nat)
    requires forall k :: 0 <= k < n ==> !Announces(args, k)
    ensures Outputs(args, n) == []
  {
    if n == 0 {
    } else {
      NoOutputs(args, n - 1);
      assert !Announces(args, n - 1);
    }
  }

  method HandleGnu(args: seq<string>) returns (keepLocal: bool, priorityTask: bool, outputArgs: seq<nat>)
    ensures keepLocal <==> forall k :: 1 <= k < |args| ==> !Remotes(args[k])
    ensures priorityTask <==> exists k :: 1 <= k < |args| && Prepares(args[k])
    ensures outputArgs == Narrow(Outputs(args, |args|)) && InRange(args, outputArgs)
  {
    keepLocal, priorityTask, outputArgs := true, false, [];
    if |args| == 0 {
      return;
    }
    var k := 1;
    assert Outputs(args, 1) == Outputs(args, 0) + [];
    while k < |args|
      invariant 1 <= k <= |args|
      invariant keepLocal <==> forall j :: 1 <= j < k ==> !Remotes(args[j])
      invariant priorityTask <==> exists j :: 1 <= j < k && Prepares(args[j])
      invariant outputArgs == Narrow(Outputs(args, k))
    {
      var arg := args[k];
      NarrowNext(args, k);
      if arg == "-c" || arg == "-s" || arg == "-e" || arg == "-MD" {
        keepLocal := false;
      } else if k < |args| - 1 && (arg == "-o" || arg == "-MF") {
        outputArgs := outputArgs + [(k + 1) % U16];
      } else if arg == "-M" || arg == "-MM" {
        keepLocal := false;
        priorityTask := true;
      }
      k := k + 1;
    }
    NarrowExact(args);
  }

  lemma NarrowNext(args: seq<string>, k: nat)
    requires 1 <= k < |args|
    ensures Narrow(Outputs(args, k + 1))
         == if Announces(args, k) then Narrow(Outputs(args, k)) + [(k + 1) % U16] else Narrow(Outputs(args, k))
  {
    OutputsStep(args, k + 1);
    NarrowStep(Outputs(args, k), if Announces(args, k) then [k + 1] else []);
  }

  lemma NarrowStep(xs: seq<nat>, ys: seq<nat>)
    ensures Narrow(xs + ys) == Narrow(xs) + Narrow(ys)
    ensures |ys| == 1 ==> Narrow(ys) == [ys[0] % U16]
  {
  }

  // ---------- unique names ----------

  function Digit(d: nat): char
    requires d < 10
  {
    ['0', '1', '2', '3', '4', '5', '6', '7', '8', '9'][d]
  }

  function Decimal(n: nat): string {
    if n < 10 then [Digit(n)] else Decimal(n / 10) + [Digit(n % 10)]
  }

  function Value(s: string): int {
    if s == "" then 0 else 10 * Value(s[..|s| - 1]) + (s[|s| - 1] as int - '0' as int)
  }

  lemma {:induction false} DecimalRoundTrip(n: nat)
    ensures Value(Decimal(n)) == n
  {
    if n < 10 {
      assert Decimal(n)[..0] == "";
    } else {
      DecimalRoundTrip(n / 10);
      assert Decimal(n)[..|Decimal(n)| - 1] == Decimal(n / 10);
    }
  }

  /** The names tried: the base name, then with suffix 1, 2, and so on. */
  function Candidate(base: string, n: nat): string {
    if n == 0 then base else base + "." + Decimal(n)
  }

  lemma CandidatesDiffer(base: string, a: nat, b: nat)
    requires a < b
    ensures Candidate(base, a) != Candidate(base, b)
  {
    if a > 0 && Candidate(base, a) == Candidate(base, b) {
      var p := base + ".";
      assert Candidate(base, a)[|p|..] == Decimal(a) && Candidate(base, b)[|p|..] == Decimal(b);
      DecimalRoundTrip(a);
      DecimalRoundTrip(b);
    }
  }

  function Tried(base: string, n: nat): set<string> {
    set k: nat | 0 <= k < n :: Candidate(base, k)
  }

  lemma NotTried(base: string, n: nat)
    ensures Candidate(base, n) !in Tried(base, n)
  {
    forall k: nat | k < n ensures Candidate(base, k) != Candidate(base, n) {
      CandidatesDiffer(base, k, n);
    }
  }

  lemma {:induction false} TriedCount(base: string, n: nat)
    ensures |Tried(base, n)| == n
  {
    if n > 0 {
      TriedCount(base, n - 1);
      NotTried(base, n - 1);
      assert Tried(base, n) == Tried(base, n - 1) + {Candidate(base, n - 1)};
    } else {
      assert Tried(base, n) == {};
    }
  }

  /** If the first `n` candidates are all taken, at least `n` names are taken. */
  lemma Pigeonhole(base: string, n: nat, taken: set<string>)
    requires forall k :: 0 <= k < n ==> Candidate(base, k) in taken
    ensures n <= |taken|
  {
    TriedCount(base, n);
    SubsetSize(Tried(base, n), taken);
  }

  function Components(path: string): seq<string> {
    if path == "" then [""]
    else if path[0] == '/' then [""] + Components(path[1..])
    else var rest := Components(path[1..]); [[path[0]] + rest[0]] + rest[1..]
  }

  function LastNormal(parts: seq<string>): string {
    if parts == [] then "unknown"
    else
      var last := parts[|parts| - 1];
      if last == "" || last == "." then LastNormal(parts[..|parts| - 1])
      else if last == ".." then "unknown"
      else last
  }

  /** The last component of a path, empty and `.` components aside; `unknown` if there is none or it is `..`. */
  function BaseName(path: string): string { LastNormal(Components(path)) }

  predicate NoSlash(s: string) { forall k :: 0 <= k < |s| ==> s[k] != '/' }

  lemma {:induction false} ComponentsClean(path: string)
    ensures |Components(path)| >= 1 && forall k :: 0 <= k < |Components(path)| ==> NoSlash(Components(path)[k])
    decreases |path|
  {
    if path == "" {
    } else {
      ComponentsClean(path[1..]);
    }
  }

  lemma {:induction false} BareComponent(name: string)
    requires NoSlash(name)
    ensures Components(name) == [name]
    decreases |name|
  {
    if name == "" {
    } else {
      BareComponent(name[1..]);
      assert [name[0]] + name[1..] == name;
    }
  }

  /** A name after a slash is one more component. */
  lemma {:induction false} ComponentsMore(path: string, name: string)
    requires NoSlash(name)
    ensures Components(path + "/" + name) == Components(path) + [name]
    decreases |path|
  {
    BareComponent(name);
    ComponentsClean(path);
    if path == "" {
      assert (path + "/" + name)[1..] == name;
    } else {
      ComponentsMore(path[1..], name);
      ComponentsClean(path[1..]);
      assert (path + "/" + name)[1..] == path[1..] + "/" + name;
    }
  }

  lemma {:induction false} LastNormalClean(parts: seq<string>)
    requires forall k :: 0 <= k < |parts| ==> NoSlash(parts[k])
    ensures NoSlash(LastNormal(parts))
    decreases |parts|
  {
    if parts == [] {
    } else {
      LastNormalClean(parts[..|parts| - 1]);
    }
  }

  lemma LastNormalMore(parts: seq<string>, name: string)
    ensures LastNormal(parts + [name])
         == if name == "" || name == "." then LastNormal(parts) else if name == ".." then "unknown" else name
  {
    assert (parts + [name])[..|parts|] == parts;
  }

  /** What the base name of a path is: it has no slash; it is what follows the last slash, except that an empty or `.`
      end is passed over and for `..` there is none; and a path without a slash is its own base name. */
  lemma BaseNameExact(path: string, name: string)
    requires NoSlash(name)
    ensures NoSlash(BaseName(path))
    ensures name != "" && name != "." && name != ".." ==> BaseName(path + "/" + name) == BaseName(name) == name
    ensures BaseName(path + "/") == BaseName(path) && BaseName(path + "/.") == BaseName(path)
    ensures BaseName(path + "/..") == BaseName("") == BaseName(".") == BaseName("..") == "unknown"
  {
    ComponentsClean(path);
    LastNormalClean(Components(path));
    ComponentsMore(path, name);
    LastNormalMore(Components(path), name);
    BareComponent(name);
    LastNormalMore([], name);
    assert path + "/" + "" == path + "/" && path + "/" + "." == path + "/." && path + "/" + ".." == path + "/..";
    assert [] + [name] == [name];
    Specials(path);
  }

  lemma Specials(path: string)
    ensures BaseName(path + "/" + "") == BaseName(path) && BaseName(path + "/" + ".") == BaseName(path)
    ensures BaseName(path + "/" + "..") == BaseName("") == BaseName(".") == BaseName("..") == "unknown"
  {
    ComponentsMore(path, "");
    LastNormalMore(Components(path), "");
    ComponentsMore(path, ".");
    LastNormalMore(Components(path), ".");
    ComponentsMore(path, "..");
    LastNormalMore(Components(path), "..");
    BareComponent("");
    BareComponent(".");
    BareComponent("..");
    LastNormalMore([], "");
    LastNormalMore([], ".");
    LastNormalMore([], "..");
    assert [] + [""] == [""] && [] + ["."] == ["."] && [] + [".."] == [".."];
  }

  function InDir(dir: string, name: string): string { dir + "/" + name }

  /** `name` is `base`, possibly with a number after it. */
  ghost predicate NamedAfter(base: string, name: string) {
    exists n: nat :: name == Candidate(base, n)
  }

  /** The first candidate, from the `n`-th on, that is not taken. */
  function FirstFree(base: string, taken: set<string>, n: nat): (name: string)
    requires forall k :: 0 <= k < n ==> Candidate(base, k) in taken
    ensures name !in taken && NamedAfter(base, name)
    decreases |taken| + 1 - n
  {
    Pigeonhole(base, n, taken);
    if Candidate(base, n) in taken then
      Pigeonhole(base, n + 1, taken); FirstFree(base, taken, n + 1)
    else Candidate(base, n)
  }

  /** The second output of the same name gets a dot and a one. */
  lemma SecondOfName(base: string)
    ensures FirstFree(base, {}, 0) == base
    ensures FirstFree(base, {base}, 0) == base + ".1"
  {
    assert Candidate(base, 0) == base && Candidate(base, 1) == base + "." + ['1'];
    assert base + "." + ['1'] == base + ".1";
    assert |base + ".1"| > |base|;
  }

  /** Finds the first candidate that is not taken, after looking at no more than one more than there are names
      taken. */
  method GenerateUniqueFile(dir: string, taken: set<string>, outputName: string)
    returns (path: string, taken': set<string>, tries: nat)
    ensures var name := FirstFree(BaseName(outputName), taken, 0);
      name == Candidate(BaseName(outputName), tries) && path == InDir(dir, name) && taken' == taken + {name}
    ensures tries <= |taken| && (forall k :: 0 <= k < tries ==> Candidate(BaseName(outputName), k) in taken)
  {
    var base := BaseName(outputName);
    var name := base;
    var idx := 1;
    while name in taken
      invariant idx >= 1 && name == Candidate(base, idx - 1)
      invariant forall k :: 0 <= k < idx - 1 ==> Candidate(base, k) in taken
      invariant FirstFree(base, taken, idx - 1) == FirstFree(base, taken, 0)
      decreases |taken| + 1 - idx
    {
      Pigeonhole(base, idx, taken);
      name := base + "." + Decimal(idx);
      idx := idx + 1;
    }
    Pigeonhole(base, idx - 1, taken);
    path, taken', tries := InDir(dir, name), taken + {name}, idx - 1;
  }

  // ---------- redirecting ----------

  predicate InRange(args: seq<string>, outs: seq<nat>) {
    forall k :: 0 <= k < |outs| ==> outs[k] < |args|
  }

  /** The arguments after redirection, and the paths, given the names already taken. */
  function Redirect(args: seq<string>, outs: seq<nat>, dir: string, taken: set<string>): (r: (seq<string>, seq<string>))
    requires InRange(args, outs)
    decreases |outs|
  {
    if outs == [] then (args, [])
    else
      var name := FirstFree(BaseName(args[outs[0]]), taken, 0);
      var r := Redirect(args[outs[0] := InDir(dir, name)], outs[1..], dir, taken + {name});
      (r.0, [InDir(dir, name)] + r.1)
  }

  lemma InDirInjective(dir: string, a: string, b: string)
    requires InDir(dir, a) == InDir(dir, b)
    ensures a == b
  {
    assert InDir(dir, a)[|dir| + 1..] == a && InDir(dir, b)[|dir| + 1..] == b;
  }

  /** One path for each index, none a name already taken, no two the same. */
  lemma {:induction false} RedirectDistinct(args: seq<string>, outs: seq<nat>, dir: string, taken: set<string>)
    requires InRange(args, outs)
    ensures var paths := Redirect(args, outs, dir, taken).1;
      && |paths| == |outs|
      && (forall k, t :: 0 <= k < |paths| && t in taken ==> paths[k] != InDir(dir, t))
      && (forall a, b :: 0 <= a < b < |paths| ==> paths[a] != paths[b])
    decreases |outs|
  {
    if outs == [] {
    } else {
      var name := FirstFree(BaseName(args[outs[0]]), taken, 0);
      var args1 := args[outs[0] := InDir(dir, name)];
      RedirectDistinct(args1, outs[1..], dir, taken + {name});
      var rest := Redirect(args1, outs[1..], dir, taken + {name}).1;
      var paths := [InDir(dir, name)] + rest;
      forall k, t | 0 <= k < |paths| && t in taken ensures paths[k] != InDir(dir, t) {
        if k == 0 && paths[k] == InDir(dir, t) {
          InDirInjective(dir, name, t);
        }
        assert t in taken + {name};
      }
      assert name in taken + {name};
    }
  }

  /** The argument at an index gets the path made for the last mention of that index; other arguments stay. */
  lemma {:induction false} RedirectPlaces(args: seq<string>, outs: seq<nat>, dir: string, taken: set<string>)
    requires InRange(args, outs)
    ensures var (args', paths) := Redirect(args, outs, dir, taken);
      && |args'| == |args| && |paths| == |outs|
      && (forall j :: 0 <= j < |args| && j !in outs ==> args'[j] == args[j])
      && (forall k :: 0 <= k < |outs| && outs[k] !in outs[k + 1..] ==> args'[outs[k]] == paths[k])
    decreases |outs|
  {
    if outs == [] {
    } else {
      var name := FirstFree(BaseName(args[outs[0]]), taken, 0);
      var args1, rest := args[outs[0] := InDir(dir, name)], outs[1..];
      RedirectPlaces(args1, rest, dir, taken + {name});
      var (args', paths) := Redirect(args, outs, dir, taken);
      forall k | 0 <= k < |outs| && outs[k] !in outs[k + 1..] ensures args'[outs[k]] == paths[k] {
        if k > 0 {
          assert rest[k - 1] == outs[k] && rest[k..] == outs[k + 1..];
        }
      }
      forall j | 0 <= j < |args| && j !in outs ensures args'[j] == args[j] {
        assert j !in rest;
      }
    }
  }

  /** Every path lies in the directory and is named after the argument it replaces. */
  lemma {:induction false} RedirectNames(args: seq<string>, outs: seq<nat>, dir: string, taken: set<string>, k: nat)
    requires InRange(args, outs) && k < |outs| && outs[k] !in outs[..k]
    ensures |Redirect(args, outs, dir, taken).1| == |outs|
    ensures exists name ::
      NamedAfter(BaseName(args[outs[k]]), name) && Redirect(args, outs, dir, taken).1[k] == InDir(dir, name)
    decreases |outs|
  {
    RedirectDistinct(args, outs, dir, taken);
    if k == 0 {
    } else {
      var name := FirstFree(BaseName(args[outs[0]]), taken, 0);
      var args1, rest := args[outs[0] := InDir(dir, name)], outs[1..];
      assert rest[k - 1] == outs[k] && outs[..k] == [outs[0]] + rest[..k - 1];
      RedirectNames(args1, rest, dir, taken + {name}, k - 1);
    }
  }

  /** The argument at an index is the path made for it exactly if the index is not mentioned again. */
  lemma RedirectExact(args: seq<string>, outs: seq<nat>, dir: string, k: nat)
    requires InRange(args, outs) && k < |outs|
    ensures var (args', paths) := Redirect(args, outs, dir, {});
      |args'| == |args| && |paths| == |outs| && (args'[outs[k]] == paths[k] <==> outs[k] !in outs[k + 1..])
  {
    RedirectPlaces(args, outs, dir, {});
    RedirectDistinct(args, outs, dir, {});
    var r := Redirect(args, outs, dir, {});
    MentionExact(r.0, outs, r.1, k);
  }

  lemma MentionExact(args: seq<string>, outs: seq<nat>, paths: seq<string>, k: nat)
    requires InRange(args, outs) && |paths| == |outs| && k < |outs|
    requires forall l :: 0 <= l < |outs| && outs[l] !in outs[l + 1..] ==> args[outs[l]] == paths[l]
    requires forall a, b :: 0 <= a < b < |paths| ==> paths[a] != paths[b]
    ensures args[outs[k]] == paths[k] <==> outs[k] !in outs[k + 1..]
  {
    if outs[k] in outs[k + 1..] {
      assert outs[k + 1..] == outs[k + 1..|outs|];
      var l := LastMention(outs, k, |outs|);
      assert outs[l + 1..] == outs[l + 1..|outs|];
      assert args[outs[l]] == paths[l] && paths[k] != paths[l];
    }
  }

  /** The last mention, among the first `n` indices, of the index mentioned at `k`. */
  lemma {:induction false} LastMention(outs: seq<nat>, k: nat, n: nat) returns (l: nat)
    requires k < n <= |outs| && outs[k] in outs[k + 1..n]
    ensures k < l < n && outs[l] == outs[k] && outs[k] !in outs[l + 1..n]
    decreases n
  {
    if outs[n - 1] == outs[k] && k < n - 1 {
      l := n - 1;
    } else {
      assert outs[k] in outs[k + 1..n - 1];
      l := LastMention(outs, k, n - 1);
    }
  }

  lemma OutputsNotRepeated(args: seq<string>, k: nat)
    requires k < |Outputs(args, |args|)|
    ensures var outs := Outputs(args, |args|); outs[k] !in outs[k + 1..] && outs[k] !in outs[..k]
  {
    OutputsExact(args, |args|);
  }

  /** One output, of those the command line announces. */
  lemma AlignedAt(args: seq<string>, dir: string, k: nat)
    requires k < |Outputs(args, |args|)|
    ensures InRange(args, Outputs(args, |args|))
    ensures var outs := Outputs(args, |args|); var r := Redirect(args, outs, dir, {});
      && |r.0| == |args| && |r.1| == |outs| && r.0[outs[k]] == r.1[k]
      && exists name :: NamedAfter(BaseName(args[outs[k]]), name) && r.1[k] == InDir(dir, name)
  {
    var outs := Outputs(args, |args|);
    OutputsExact(args, |args|);
    OutputsNotRepeated(args, k);
    RedirectExact(args, outs, dir, k);
    RedirectNames(args, outs, dir, {}, k);
  }

  lemma OthersStay(args: seq<string>, dir: string, j: nat)
    requires j < |args| && !Announces(args, j - 1)
    ensures InRange(args, Outputs(args, |args|))
    ensures var r := Redirect(args, Outputs(args, |args|), dir, {}); |r.0| == |args| && r.0[j] == args[j]
  {
    OutputsExact(args, |args|);
    RedirectPlaces(args, Outputs(args, |args|), dir, {});
  }

  /** For the positions the client stores, if they are right, the k-th path stands at the k-th position. */
  lemma RedirectAligned(args: seq<string>, dir: string)
    requires Storable(args)
    ensures InRange(args, Narrow(Outputs(args, |args|))) && Narrow(Outputs(args, |args|)) == Outputs(args, |args|)
    ensures var outs := Narrow(Outputs(args, |args|)); var r := Redirect(args, outs, dir, {});
      && |r.0| == |args| && |r.1| == |outs|
      && (forall k :: 0 <= k < |outs| ==> r.0[outs[k]] == r.1[k])
      && (forall k :: 0 <= k < |outs| ==>
            exists name :: NamedAfter(BaseName(args[outs[k]]), name) && r.1[k] == InDir(dir, name))
      && (forall j :: 0 <= j < |args| && !Announces(args, j - 1) ==> r.0[j] == args[j])
      && (forall a, b :: 0 <= a < b < |r.1| ==> r.1[a] != r.1[b])
  {
    NarrowExact(args);
    var outs := Outputs(args, |args|);
    RedirectPlaces(args, outs, dir, {});
    RedirectDistinct(args, outs, dir, {});
    var r := Redirect(args, outs, dir, {});
    forall k | 0 <= k < |outs|
      ensures r.0[outs[k]] == r.1[k]
      ensures exists name :: NamedAfter(BaseName(args[outs[k]]), name) && r.1[k] == InDir(dir, name)
    {
      AlignedAt(args, dir, k);
    }
    forall j | 0 <= j < |args| && !Announces(args, j - 1) ensures r.0[j] == args[j] {
      OthersStay(args, dir, j);
    }
  }

  lemma RedirectStep(args: seq<string>, outs: seq<nat>, k: nat, dir: string, taken: set<string>)
    requires k < |outs| && InRange(args, outs[k..])
    ensures outs[k] < |args|
    ensures var name := FirstFree(BaseName(args[outs[k]]), taken, 0);
      var args1 := args[outs[k] := InDir(dir, name)];
      && InRange(args1, outs[k + 1..])
      && var r := Redirect(args1, outs[k + 1..], dir, taken + {name});
         Redirect(args, outs[k..], dir, taken) == (r.0, [InDir(dir, name)] + r.1)
  {
    assert outs[k..][0] == outs[k] && outs[k..][1..] == outs[k + 1..];
    var name := FirstFree(BaseName(args[outs[k]]), taken, 0);
    assert InRange(args[outs[k] := InDir(dir, name)], outs[k..]);
    var rest := outs[k + 1..];
    forall j | 0 <= j < |rest| ensures rest[j] < |args| {
      assert rest[j] == outs[k..][j + 1];
    }
  }

  /** The in-place form, as the executor runs it; a temporary directory that cannot be created is an error. */
  method RedirectOutputs(args: array<string>, outputArgs: seq<nat>, tempDir: Option<string>)
    returns (paths: Option<seq<string>>)
    requires InRange(args[..], outputArgs)
    modifies args
    ensures outputArgs == [] ==> paths == Some([]) && args[..] == old(args[..])
    ensures outputArgs != [] && tempDir.None? ==> paths == None && args[..] == old(args[..])
    ensures outputArgs != [] && tempDir.Some? ==>
      paths.Some? && (args[..], paths.value) == Redirect(old(args[..]), outputArgs, tempDir.value, {})
  {
    if outputArgs == [] {
      return Some([]);
    }
    if tempDir.None? {
      return None;
    }
    var dir := tempDir.value;
    var files: seq<string> := [];
    var taken: set<string> := {};
    var k := 0;
    ghost var all := Redirect(args[..], outputArgs, dir, {});
    assert outputArgs[0..] == outputArgs && files + all.1 == all.1;
    while k < |outputArgs|
      invariant 0 <= k <= |outputArgs|
      invariant InRange(args[..], outputArgs[k..])
      invariant var r := Redirect(args[..], outputArgs[k..], dir, taken); all == (r.0, files + r.1)
    {
      ghost var before := args[..];
      RedirectStep(before, outputArgs, k, dir, taken);
      var i := outputArgs[k];
      var path, taken', _ := GenerateUniqueFile(dir, taken, args[i]);
      args[i] := path;
      assert args[..] == before[i := path];
      ghost var r := Redirect(args[..], outputArgs[k + 1..], dir, taken');
      assert files + ([path] + r.1) == (files + [path]) + r.1;
      files := files + [path];
      taken := taken';
      k := k + 1;
    }
    assert outputArgs[k..] == [] && files + [] == files;
    paths := Some(files);
  }
}
