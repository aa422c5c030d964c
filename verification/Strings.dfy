/** The string operations of Go's strings package that the modelled code uses. */
module Strings {

  /** strings.Contains */
  predicate Contains(s: string, sub: string) {
    exists i :: 0 <= i <= |s| && sub <= s[i..]
  }

  predicate HasSuffix(s: string, suffix: string) {
    |suffix| <= |s| && s[|s| - |suffix|..] == suffix
  }

  /** strings.Split with a one-character separator. */
  function Split(s: string, sep: char): (parts: seq<string>)
    ensures |parts| > 0
    ensures forall i :: 0 <= i < |parts| ==> sep !in parts[i]
  {
    if s == [] then [""]
    else
      var rest := Split(s[1..], sep);
      if s[0] == sep then [""] + rest else [[s[0]] + rest[0]] + rest[1..]
  }

  /** Splitting after a first part that has no separator. */
  lemma {:induction false} SplitFirst(a: string, sep: char, b: string)
    requires sep !in a
    ensures Split(a + [sep] + b, sep) == [a] + Split(b, sep)
  {
    if a == [] {
      assert (a + [sep] + b)[1..] == b;
    } else {
      assert (a + [sep] + b)[1..] == a[1..] + [sep] + b;
      SplitFirst(a[1..], sep, b);
      assert a == [a[0]] + a[1..];
    }
  }

  lemma {:induction false} SplitNone(a: string, sep: char)
    requires sep !in a
    ensures Split(a, sep) == [a]
  {
    if a != [] {
      SplitNone(a[1..], sep);
      assert a == [a[0]] + a[1..];
    }
  }

  /** The first part is what comes before the first separator. */
  lemma {:induction false} SplitHead(s: string, sep: char)
    ensures if |Split(s, sep)| == 1 then s == Split(s, sep)[0] else Split(s, sep)[0] + [sep] <= s
  {
    if s != [] {
      SplitHead(s[1..], sep);
      assert s == [s[0]] + s[1..];
    }
  }

  /** strings.Join(parts, " && ") */
  function JoinCommands(parts: seq<string>): (r: string) {
    if parts == [] then ""
    else if |parts| == 1 then parts[0]
    else parts[0] + " && " + JoinCommands(parts[1..])
  }

  /** appendToCommand */
  function AppendToCommand(orig: string, commands: seq<string>): (r: string) {
    if |orig| > 0 then orig + " && " + JoinCommands(commands) else JoinCommands(commands)
  }

  /** Appending group after group gives the one &&-chain of all commands. */
  lemma {:induction false} AppendIsJoin(a: seq<string>, b: seq<string>)
    requires b != [] && forall i :: 0 <= i < |a| ==> a[i] != ""
    ensures AppendToCommand(JoinCommands(a), b) == JoinCommands(a + b)
  {
    if a == [] {
      assert a + b == b;
    } else if |a| == 1 {
      assert (a + b)[1..] == b;
    } else {
      assert (a + b)[1..] == a[1..] + b;
      AppendIsJoin(a[1..], b);
      assert JoinCommands(a[1..]) != "";
    }
  }

  /** Decimal text of a number. */
  function Decimal(n: int): (r: string)
    decreases if n < 0 then 1 - n else n
  {
    if n < 0 then "-" + Decimal(-n)
    else if n < 10 then [(n + 48) as char]
    else Decimal(n / 10) + [(n % 10 + 48) as char]
  }
}
