// The few operations of Go's strings package that the annotation formats rest on,
// and the laws that make those formats reversible.
module Strings {

  datatype Option<+T> = None | Some(value: T)

  // unicode.IsSpace
  predicate IsSpace(c: char) {
    || c in "\t\n\r "
    || c == '\U{000B}' || c == '\U{000C}' || c == '\U{0085}' || c == '\U{00A0}' || c == '\U{1680}'
    || '\U{2000}' <= c <= '\U{200A}' || c == '\U{2028}' || c == '\U{2029}' || c == '\U{202F}'
    || c == '\U{205F}' || c == '\U{3000}'
  }

  function TrimLeft(s: string): string {
    if s != [] && IsSpace(s[0]) then TrimLeft(s[1..]) else s
  }

  function TrimRight(s: string): string {
    if s != [] && IsSpace(s[|s| - 1]) then TrimRight(s[..|s| - 1]) else s
  }

  // strings.TrimSpace
  function TrimSpace(s: string): string {
    TrimRight(TrimLeft(s))
  }

  // No white space at either end.
  predicate Trimmed(s: string) {
    s != [] ==> !IsSpace(s[0]) && !IsSpace(s[|s| - 1])
  }

  lemma {:induction false} TrimRightShape(s: string)
    ensures TrimRight(s) <= s
    ensures TrimRight(s) != [] ==> !IsSpace(TrimRight(s)[|TrimRight(s)| - 1])
  {
    if s != [] && IsSpace(s[|s| - 1]) {
      TrimRightShape(s[..|s| - 1]);
    }
  }

  lemma {:induction false} TrimLeftShape(s: string)
    ensures TrimLeft(s) != [] ==> !IsSpace(TrimLeft(s)[0])
    ensures forall c :: c in TrimLeft(s) ==> c in s
  {
    if s != [] && IsSpace(s[0]) {
      TrimLeftShape(s[1..]);
    }
  }

  lemma TrimSpaceShape(s: string)
    ensures Trimmed(TrimSpace(s))
    ensures forall c :: c in TrimSpace(s) ==> c in s
  {
    TrimLeftShape(s);
    TrimRightShape(TrimLeft(s));
    var t := TrimSpace(s);
    forall c | c in t ensures c in s {
      var i :| 0 <= i < |t| && t[i] == c;
      assert TrimLeft(s)[i] == c;
    }
  }

  lemma TrimSpaceFixpoint(s: string)
    requires Trimmed(s)
    ensures TrimSpace(s) == s
  {}

  // strings.Split with a one-character separator
  function Split(s: string, sep: char): (parts: seq<string>)
    ensures |parts| >= 1
  {
    if s == [] then [[]]
    else if s[0] == sep then [[]] + Split(s[1..], sep)
    else
      var rest := Split(s[1..], sep);
      [[s[0]] + rest[0]] + rest[1..]
  }

  // strings.Join with a one-character separator
  function Join(parts: seq<string>, sep: char): string {
    if parts == [] then []
    else if |parts| == 1 then parts[0]
    else parts[0] + [sep] + Join(parts[1..], sep)
  }

  // strings.SplitN with a one-character separator and a positive limit
  function SplitN(s: string, sep: char, n: nat): (parts: seq<string>)
    requires n >= 1
    ensures 1 <= |parts| <= n
    decreases n
  {
    if n == 1 || sep !in s then [s]
    else [Before(s, sep)] + SplitN(After(s, sep), sep, n - 1)
  }

  // The part of s before the first sep, and the part after it.
  function Before(s: string, sep: char): (r: string)
    ensures sep !in r
  {
    if s == [] || s[0] == sep then [] else [s[0]] + Before(s[1..], sep)
  }

  function After(s: string, sep: char): string {
    if s == [] then [] else if s[0] == sep then s[1..] else After(s[1..], sep)
  }

  lemma {:induction false} SplitPartsClean(s: string, sep: char)
    ensures forall p :: p in Split(s, sep) ==> sep !in p && forall c :: c in p ==> c in s
  {
    if s != [] {
      SplitPartsClean(s[1..], sep);
      assert s == [s[0]] + s[1..];
      var rest := Split(s[1..], sep);
      assert rest[0] in rest;
      forall p | p in Split(s, sep) ensures sep !in p && forall c :: c in p ==> c in s {
        if s[0] != sep && p == [s[0]] + rest[0] {
        } else if p != [] {
          assert p in rest;
        }
      }
    }
  }

  lemma {:induction false} SplitPrefix(p: string, tail: string, sep: char)
    requires sep !in p
    ensures Split(p + [sep] + tail, sep) == [p] + Split(tail, sep)
  {
    var s := p + [sep] + tail;
    if p == [] {
      assert s[1..] == tail;
    } else {
      assert s[0] == p[0] && p[0] in p && s[1..] == p[1..] + [sep] + tail;
      SplitPrefix(p[1..], tail, sep);
      assert [p[0]] + p[1..] == p;
    }
  }

  lemma {:induction false} SplitWhole(p: string, sep: char)
    requires sep !in p
    ensures Split(p, sep) == [p]
  {
    if p != [] {
      assert p[0] in p && [p[0]] + p[1..] == p;
      SplitWhole(p[1..], sep);
    }
  }

  // Splitting undoes joining exactly when no part holds the separator.
  lemma {:induction false} SplitJoin(parts: seq<string>, sep: char)
    requires |parts| >= 1
    requires forall p :: p in parts ==> sep !in p
    ensures Split(Join(parts, sep), sep) == parts
  {
    if |parts| == 1 {
      SplitWhole(parts[0], sep);
    } else {
      SplitJoin(parts[1..], sep);
      SplitPrefix(parts[0], Join(parts[1..], sep), sep);
    }
  }

  // Joining undoes splitting.
  lemma {:induction false} JoinSplit(s: string, sep: char)
    ensures Join(Split(s, sep), sep) == s
  {
    if s != [] {
      JoinSplit(s[1..], sep);
      var rest := Split(s[1..], sep);
      if s[0] == sep {
        assert ([[]] + rest)[1..] == rest;
      } else {
        var parts := [[s[0]] + rest[0]] + rest[1..];
        assert parts[1..] == rest[1..];
      }
    }
  }

  lemma {:induction false} JoinAppend(parts: seq<string>, p: string, sep: char)
    requires parts != []
    ensures Join(parts + [p], sep) == Join(parts, sep) + [sep] + p
  {
    assert (parts + [p])[1..] == parts[1..] + [p];
    if |parts| > 1 {
      JoinAppend(parts[1..], p, sep);
    } else {
      assert parts[1..] + [p] == [p];
    }
  }

  lemma JoinCons(p: string, more: seq<string>, sep: char)
    requires more != []
    ensures Join([p] + more, sep) == p + [sep] + Join(more, sep)
  {
    assert ([p] + more)[1..] == more;
  }

  // The last part may hold separators; the others come back whole.
  lemma {:induction false} SplitJoinTail(parts: seq<string>, tail: string, sep: char)
    requires forall p :: p in parts ==> sep !in p
    ensures Split(Join(parts + [tail], sep), sep) == parts + Split(tail, sep)
  {
    if parts == [] {
      assert parts + [tail] == [tail];
    } else {
      var more := parts[1..] + [tail];
      assert parts + [tail] == [parts[0]] + more;
      JoinCons(parts[0], more, sep);
      SplitJoinTail(parts[1..], tail, sep);
      SplitPrefix(parts[0], Join(more, sep), sep);
    }
  }

  lemma {:induction false} BeforeAfter(p: string, tail: string, sep: char)
    requires sep !in p
    ensures Before(p + [sep] + tail, sep) == p && After(p + [sep] + tail, sep) == tail
  {
    var s := p + [sep] + tail;
    if p == [] {
      assert s[1..] == tail;
    } else {
      assert s[0] == p[0] && p[0] in p && s[1..] == p[1..] + [sep] + tail;
      BeforeAfter(p[1..], tail, sep);
    }
  }

  lemma {:induction false} CutRejoins(s: string, sep: char)
    requires sep in s
    ensures s == Before(s, sep) + [sep] + After(s, sep)
  {
    if s[0] != sep {
      assert s == [s[0]] + s[1..];
      CutRejoins(s[1..], sep);
    }
  }

  // A number in decimal, and back.
  function Digits(n: nat): string {
    if n < 10 then ['0' + n as char] else Digits(n / 10) + ['0' + (n % 10) as char]
  }

  function ParseDigits(s: string): Option<nat> {
    if s == "" || !('0' <= s[|s| - 1] <= '9') then None
    else
      var d := (s[|s| - 1] - '0') as nat;
      if |s| == 1 then Some(d)
      else
        match ParseDigits(s[..|s| - 1])
        case None => None
        case Some(rest) => Some(rest * 10 + d)
  }

  lemma {:induction false} DigitsParse(n: nat)
    ensures ParseDigits(Digits(n)) == Some(n) && '/' !in Digits(n) && Digits(n) != ""
  {
    if n >= 10 {
      DigitsParse(n / 10);
      var s := Digits(n);
      assert s[..|s| - 1] == Digits(n / 10);
    }
  }
}
