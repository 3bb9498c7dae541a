/** Dotted names and numbers in them: `".".join`, `str.split(".")`, `str(int)` and the order of
    strings (launcher/cache_build.py:56-66, launcher/cli.py:88-106). */
module Names {
  import opened Common

  function Join(parts: seq<string>): string {
    if parts == [] then "" else if |parts| == 1 then parts[0] else parts[0] + "." + Join(parts[1..])
  }

  function SplitDots(s: string): (parts: seq<string>)
    ensures parts != []
  {
    if s == "" then [""] else Put(s[0], SplitDots(s[1..]))
  }

  function Put(c: char, parts: seq<string>): (more: seq<string>)
    requires parts != []
    ensures more != []
  {
    if c == '.' then [""] + parts else [[c] + parts[0]] + parts[1..]
  }

  lemma PutSum(c: char, parts: seq<string>, tail: seq<string>)
    requires parts != []
    ensures Put(c, parts + tail) == Put(c, parts) + tail
  {
    assert (parts + tail)[1..] == parts[1..] + tail;
  }

  predicate NoDot(part: string) {
    '.' !in part
  }

  predicate NoDots(parts: seq<string>) {
    forall i :: 0 <= i < |parts| ==> NoDot(parts[i])
  }

  lemma {:induction false} SplitFirst(part: string, rest: string)
    requires NoDot(part)
    ensures SplitDots(part) == [part]
    ensures SplitDots(part + "." + rest) == [part] + SplitDots(rest)
  {
    if part == "" {
      assert "" + "." + rest == "." + rest && ("." + rest)[1..] == rest;
    } else {
      SplitFirst(part[1..], rest);
      assert (part + "." + rest)[1..] == part[1..] + "." + rest;
      assert [part[0]] + part[1..] == part;
    }
  }

  /** Names without dots are told apart by what they join to. */
  lemma {:induction false} JoinThenSplit(parts: seq<string>)
    requires parts != [] && NoDots(parts)
    ensures SplitDots(Join(parts)) == parts
  {
    if |parts| == 1 {
      SplitFirst(parts[0], "");
    } else {
      JoinThenSplit(parts[1..]);
      SplitFirst(parts[0], Join(parts[1..]));
      assert [parts[0]] + parts[1..] == parts;
    }
  }

  lemma {:induction false} SplitSum(a: string, b: string)
    ensures SplitDots(a + "." + b) == SplitDots(a) + SplitDots(b)
  {
    if a == "" {
      assert "" + "." + b == "." + b && ("." + b)[1..] == b;
    } else {
      SplitSum(a[1..], b);
      assert (a + "." + b)[1..] == a[1..] + "." + b;
      hide Put;
      PutSum(a[0], SplitDots(a[1..]), SplitDots(b));
    }
  }

  lemma {:induction false} SplitThenJoin(s: string)
    ensures Join(SplitDots(s)) == s
  {
    if s != "" {
      SplitThenJoin(s[1..]);
      var rest := SplitDots(s[1..]);
      assert s == [s[0]] + s[1..];
      if s[0] == '.' {
        assert ([""] + rest)[1..] == rest;
      } else {
        assert ([[s[0]] + rest[0]] + rest[1..])[1..] == rest[1..];
      }
    }
  }

  lemma JoinCons(first: string, rest: seq<string>)
    requires rest != []
    ensures Join([first] + rest) == first + "." + Join(rest)
  {
    assert ([first] + rest)[1..] == rest;
  }

  /** Whatever dots the second name holds, the dot-free ones around it can be told from it. */
  lemma SplitAround(first: string, middle: string, tail: seq<string>)
    requires NoDot(first) && tail != [] && NoDots(tail)
    ensures SplitDots(Join([first, middle] + tail)) == [first] + SplitDots(middle) + tail
  {
    JoinCons(first, [middle] + tail);
    JoinCons(middle, tail);
    assert [first, middle] + tail == [first] + ([middle] + tail);
    hide Join, SplitDots;
    SplitFirst(first, Join([middle] + tail));
    SplitSum(middle, Join(tail));
    JoinThenSplit(tail);
    assert [first] + (SplitDots(middle) + tail) == [first] + SplitDots(middle) + tail;
  }

  // ---- decimal numbers -------------------------------------------------------------------------

  predicate IsDigit(c: char) {
    '0' <= c <= '9'
  }

  function Digit(d: nat): char
    requires d < 10
  {
    '0' + d as char
  }

  function Decimal(n: nat): string {
    if n < 10 then [Digit(n)] else Decimal(n / 10) + [Digit(n % 10)]
  }

  function Digits(s: string): Option<nat> {
    if s == "" then Some(0)
    else
      var before := Digits(s[..|s| - 1]);
      if before.Some? && IsDigit(s[|s| - 1]) then Some(10 * before.value + (s[|s| - 1] as int - '0' as int) as nat) else None
  }

  lemma {:induction false} DecimalThenDigits(n: nat)
    ensures Digits(Decimal(n)) == Some(n) && NoDot(Decimal(n))
  {
    if n >= 10 {
      DecimalThenDigits(n / 10);
      var s := Decimal(n);
      assert s[..|s| - 1] == Decimal(n / 10);
    } else {
      assert [Digit(n)][..0] == "";
    }
  }

  // ---- the order of strings ----------------------------------------------------------------------

  predicate Before(a: string, b: string) {
    b != "" && (a == "" || a[0] < b[0] || (a[0] == b[0] && Before(a[1..], b[1..])))
  }

  lemma {:induction false} BeforeIsTotal(a: string, b: string)
    ensures a == b || Before(a, b) || Before(b, a)
    ensures !(Before(a, b) && Before(b, a)) && !(Before(a, b) && a == b)
  {
    if a != "" && b != "" {
      BeforeIsTotal(a[1..], b[1..]);
      assert a == [a[0]] + a[1..] && b == [b[0]] + b[1..];
    }
  }

  lemma {:induction false} BeforeIsTransitive(a: string, b: string, c: string)
    requires Before(a, b) && Before(b, c)
    ensures Before(a, c)
  {
    if a != "" && a[0] == b[0] == c[0] {
      BeforeIsTransitive(a[1..], b[1..], c[1..]);
    }
  }
}
