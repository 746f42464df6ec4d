/** The string operations the models use; whitespace is ASCII whitespace. */
module Strings {
  predicate IsSpace(c: char) {
    c == ' ' || '\t' <= c <= '\r'
  }

  function TrimStart(s: string): string {
    if s != [] && IsSpace(s[0]) then TrimStart(s[1..]) else s
  }

  function TrimEnd(s: string): string {
    if s != [] && IsSpace(s[|s| - 1]) then TrimEnd(s[..|s| - 1]) else s
  }

  function Trim(s: string): string {
    TrimEnd(TrimStart(s))
  }

  // ---- What trimming takes away.

  lemma WhiteSpaceIs(c: char)
    ensures IsSpace(c) <==> c in {' ', '\t', '\n', '\r', '\U{B}', '\U{C}'}
  {
  }

  predicate AllSpace(s: string) {
    forall c | c in s :: IsSpace(c)
  }

  /** White space neither begins nor ends it. */
  predicate IsTrimmed(s: string) {
    s != "" && !IsSpace(s[0]) && !IsSpace(s[|s| - 1])
  }

  lemma {:induction false} TrimStartTakesSpace(s: string) returns (front: string)
    ensures s == front + TrimStart(s) && AllSpace(front)
    ensures TrimStart(s) == "" || !IsSpace(TrimStart(s)[0])
  {
    if s != "" && IsSpace(s[0]) {
      front := TrimStartTakesSpace(s[1..]);
      front := [s[0]] + front;
    } else {
      front := "";
    }
  }

  lemma {:induction false} TrimEndTakesSpace(s: string) returns (back: string)
    ensures s == TrimEnd(s) + back && AllSpace(back)
    ensures TrimEnd(s) == "" || !IsSpace(TrimEnd(s)[|TrimEnd(s)| - 1])
  {
    if s != "" && IsSpace(s[|s| - 1]) {
      back := TrimEndTakesSpace(s[..|s| - 1]);
      back := back + [s[|s| - 1]];
      assert s == s[..|s| - 1] + [s[|s| - 1]];
    } else {
      back := "";
    }
  }

  /** Trimming takes white space off both ends, all of it, and nothing else. */
  lemma TrimTakesSpace(s: string) returns (front: string, back: string)
    ensures s == front + Trim(s) + back && AllSpace(front) && AllSpace(back)
    ensures Trim(s) == "" || IsTrimmed(Trim(s))
  {
    front := TrimStartTakesSpace(s);
    back := TrimEndTakesSpace(TrimStart(s));
    if Trim(s) != "" {
      assert TrimStart(s)[0] == Trim(s)[0];
    }
  }

  // ---- Slashes.

  /** The segments between slashes, empty ones included. */
  function Split(s: string): (c: seq<string>)
    ensures c != []
  {
    if s == "" then [""]
    else
      var c := Split(s[1..]);
      if s[0] == '/' then [""] + c else [[s[0]] + c[0]] + c[1..]
  }

  lemma {:induction false} NoSlashIsOne(s: string)
    requires '/' !in s
    ensures Split(s) == [s]
  {
    if s != "" {
      NoSlashIsOne(s[1..]);
      assert s == [s[0]] + s[1..];
    }
  }

  /** A slash ends the first segment. */
  lemma {:induction false} SplitAround(a: string, rest: string)
    requires '/' !in a
    ensures Split(a + "/" + rest) == [a] + Split(rest)
  {
    var s := a + "/" + rest;
    if a == "" {
      assert s[1..] == rest;
    } else {
      SplitAround(a[1..], rest);
      assert s[1..] == a[1..] + "/" + rest && a == [a[0]] + a[1..];
    }
  }
}
