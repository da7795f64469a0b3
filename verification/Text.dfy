/** The string operations the controllers rely on: decimal numerals, join, split and the
    expansion of $(VAR) references in container environment values. */
module Text {
  function Digit(d: nat): (c: char)
    requires d < 10
    ensures '0' <= c <= '9'
  {
    '0' + d as char
  }

  function Decimal(n: nat): (s: string)
    ensures s != [] && forall i | 0 <= i < |s| :: '0' <= s[i] <= '9'
    decreases n
  {
    if n < 10 then [Digit(n)] else Decimal(n / 10) + [Digit(n % 10)]
  }

  /** The number a string of digits denotes. */
  function Value(s: string): int {
    if s == [] then 0 else 10 * Value(s[..|s| - 1]) + (s[|s| - 1] as int - '0' as int)
  }

  lemma {:induction false} DecimalDenotes(n: nat)
    ensures Value(Decimal(n)) == n
    decreases n
  {
    if n < 10 {
      assert Decimal(n)[..0] == [];
    } else {
      DecimalDenotes(n / 10);
      assert Decimal(n)[..|Decimal(n)| - 1] == Decimal(n / 10);
    }
  }

  function Join(parts: seq<string>, separator: string): string {
    if parts == [] then ""
    else if |parts| == 1 then parts[0]
    else parts[0] + separator + Join(parts[1..], separator)
  }

  /** The pieces between the separators: one more piece than there are separators. */
  function Split(s: string, separator: char): (parts: seq<string>)
    ensures parts != []
    ensures forall i | 0 <= i < |parts| :: separator !in parts[i]
  {
    if s == "" then [""]
    else
      var rest := Split(s[1..], separator);
      if s[0] == separator then [""] + rest else [[s[0]] + rest[0]] + rest[1..]
  }

  lemma {:induction false} SplitAtSeparator(piece: string, rest: string, separator: char)
    requires separator !in piece
    ensures Split(piece + [separator] + rest, separator) == [piece] + Split(rest, separator)
    decreases piece
  {
    var s := piece + [separator] + rest;
    if piece == "" {
      assert s[1..] == rest;
    } else {
      SplitAtSeparator(piece[1..], rest, separator);
      assert s[1..] == piece[1..] + [separator] + rest;
      assert [piece[0]] + piece[1..] == piece;
    }
  }

  lemma {:induction false} SplitWithoutSeparator(piece: string, separator: char)
    requires separator !in piece
    ensures Split(piece, separator) == [piece]
    decreases piece
  {
    if piece != "" {
      SplitWithoutSeparator(piece[1..], separator);
      assert [piece[0]] + piece[1..] == piece;
    }
  }

  /** Splitting undoes joining exactly for a nonempty list of pieces free of the separator. */
  lemma {:induction false} SplitUndoesJoin(parts: seq<string>, separator: char)
    ensures Split(Join(parts, [separator]), separator) == parts
            <==> parts != [] && forall i | 0 <= i < |parts| :: separator !in parts[i]
    decreases parts
  {
    if |parts| == 1 {
      if separator !in parts[0] { SplitWithoutSeparator(parts[0], separator); }
    } else if |parts| > 1 {
      if separator !in parts[0] {
        SplitUndoesJoin(parts[1..], separator);
        SplitAtSeparator(parts[0], Join(parts[1..], [separator]), separator);
        assert parts == [parts[0]] + parts[1..];
        assert forall i | 0 <= i < |parts[1..]| :: parts[1..][i] == parts[i + 1];
        assert Split(Join(parts, [separator]), separator)[1..] == Split(Join(parts[1..], [separator]), separator);
        if forall i | 0 <= i < |parts[1..]| :: separator !in parts[1..][i] {
          forall i | 0 <= i < |parts| ensures separator !in parts[i] {
            if i > 0 { assert separator !in parts[1..][i - 1]; }
          }
        }
      }
    }
  }

  function IndexOf(s: string, c: char): (i: nat)
    ensures i <= |s| && (i < |s| ==> s[i] == c) && c !in s[..i]
  {
    if s == "" || s[0] == c then 0
    else
      var i := IndexOf(s[1..], c) + 1;
      assert s[..i] == [s[0]] + s[1..][..i - 1];
      i
  }

  lemma {:induction false} IndexIsFirst(s: string, c: char, i: nat)
    requires i < |s| && s[i] == c && c !in s[..i]
    ensures IndexOf(s, c) == i
    decreases s
  {
    if i > 0 {
      assert s[0] in s[..i] && s[..i][1..] == s[1..][..i - 1];
      IndexIsFirst(s[1..], c, i - 1);
    }
  }

  /** Kubernetes' expansion of an environment value: $(NAME) becomes the value of NAME and stays
      as written when NAME is not set, $$ becomes $, any other text is copied. */
  function Expand(s: string, environment: map<string, string>): string
    decreases |s|
  {
    if s == "" then ""
    else if s[0] != '$' || |s| == 1 then [s[0]] + Expand(s[1..], environment)
    else if s[1] == '$' then "$" + Expand(s[2..], environment)
    else if s[1] == '(' then
      var close := IndexOf(s[2..], ')');
      if close == |s| - 2 then "$(" + Expand(s[2..], environment)
      else
        var name := s[2..][..close];
        (if name in environment then environment[name] else "$(" + name + ")") +
        Expand(s[3 + close..], environment)
    else s[..2] + Expand(s[2..], environment)
  }

  lemma {:induction false} PlainTextExpandsToItself(s: string, environment: map<string, string>)
    requires '$' !in s
    ensures Expand(s, environment) == s
    decreases s
  {
    if s != "" {
      PlainTextExpandsToItself(s[1..], environment);
      assert [s[0]] + s[1..] == s;
    }
  }

  lemma ReferenceExpands(name: string, rest: string, environment: map<string, string>)
    requires ')' !in name && name in environment
    ensures Expand("$(" + name + ")" + rest, environment) == environment[name] + Expand(rest, environment)
  {
    var s := "$(" + name + ")" + rest;
    assert s[2..] == name + ")" + rest;
    assert s[2..][..|name|] == name;
    IndexIsFirst(s[2..], ')', |name|);
    assert s[3 + |name|..] == rest;
  }

  /** A reference to a variable that is not set stays as it is, an unclosed one too; two dollar signs stand for
      one, and a dollar sign before anything else for itself. */
  lemma UnsetReferenceStays(name: string, rest: string, environment: map<string, string>)
    requires ')' !in name && name !in environment
    ensures Expand("$(" + name + ")" + rest, environment) == "$(" + name + ")" + Expand(rest, environment)
  {
    var s := "$(" + name + ")" + rest;
    assert s[2..] == name + ")" + rest;
    assert s[2..][..|name|] == name;
    IndexIsFirst(s[2..], ')', |name|);
    assert s[3 + |name|..] == rest;
  }

  lemma OtherDollarsStay(c: char, rest: string, environment: map<string, string>)
    ensures Expand("$$" + rest, environment) == "$" + Expand(rest, environment)
    ensures ')' !in rest ==> Expand("$(" + rest, environment) == "$(" + Expand(rest, environment)
    ensures c != '$' && c != '(' ==> Expand("$" + [c] + rest, environment) == "$" + [c] + Expand(rest, environment)
    ensures Expand("$", environment) == "$"
  {
    assert ("$$" + rest)[2..] == rest;
    assert ("$(" + rest)[2..] == rest;
    assert ("$" + [c] + rest)[2..] == rest && ("$" + [c] + rest)[..2] == "$" + [c];
    assert IndexOf(rest, ')') < |rest| ==> ')' in rest;
  }

  /** Two texts that end alike agree on every character of the shorter of their known tails. */
  lemma TailsAgree(a: string, s: string, b: string, t: string, fromEnd: nat)
    requires a + s == b + t && 1 <= fromEnd <= |s| && fromEnd <= |t|
    ensures s[|s| - fromEnd] == t[|t| - fromEnd]
  {
    assert (a + s)[|a + s| - fromEnd] == s[|s| - fromEnd];
    assert (b + t)[|b + t| - fromEnd] == t[|t| - fromEnd];
  }

  lemma Associative(a: string, b: string, c: string)
    ensures a + b + c == a + (b + c)
  {}

  lemma SameTailSameHead(a: string, b: string, tail: string)
    requires a + tail == b + tail
    ensures a == b
  {
    assert a == (a + tail)[..|a|] && b == (b + tail)[..|b|];
  }

  lemma SameHeadSameTail(head: string, a: string, b: string)
    requires head + a == head + b
    ensures a == b
  {
    assert a == (head + a)[|head|..] && b == (head + b)[|head|..];
  }

  /** A name that differs from all the used ones. */
  lemma {:induction false} UnusedName(used: set<string>) returns (unused: string)
    ensures unused !in used && unused != "" && unused[0] == 'x'
    ensures forall name | name in used :: |name| < |unused|
    decreases used
  {
    if used == {} {
      unused := "x";
    } else {
      var one :| one in used;
      var rest := UnusedName(used - {one});
      unused := seq(|one| + |rest| + 1, _ => 'x');
      forall name | name in used ensures |name| < |unused| {
        assert name == one || name in used - {one};
      }
    }
  }

  /** The prefix test of Go's strings package. */
  predicate HasPrefix(s: string, prefix: string) {
    |s| >= |prefix| && s[..|prefix|] == prefix
  }
}
