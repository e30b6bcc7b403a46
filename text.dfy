/**
 * The few operations of Go's `strings` package that the query builder relies on,
 * over Dafny strings. Upper-casing is ASCII only.
 */
module Text {

  /** strings.Join: the parts, separated by `sep`. */
  function Join(parts: seq<string>, sep: string): string
  {
    if |parts| == 0 then ""
    else if |parts| == 1 then parts[0]
    else parts[0] + sep + Join(parts[1..], sep)
  }

  /** The ASCII part of unicode.ToUpper. */
  function UpperChar(c: char): char
  {
    if 'a' <= c <= 'z' then (c as int - 32) as char else c
  }

  /** strings.ToUpper, restricted to ASCII letters. */
  function ToUpper(s: string): string
  {
    seq(|s|, i requires 0 <= i < |s| => UpperChar(s[i]))
  }

  /** strings.Contains. */
  function Contains(s: string, sub: string): bool
    decreases |s|
  {
    sub <= s || (|s| > 0 && Contains(s[1..], sub))
  }

  /** strings.Replace(s, string(target), repl, 1): the first `target`, if any, becomes `repl`. */
  function ReplaceFirst(s: string, target: char, repl: string): string
  {
    if |s| == 0 then s
    else if s[0] == target then repl + s[1..]
    else [s[0]] + ReplaceFirst(s[1..], target, repl)
  }

  /** The number of occurrences of `c` in `s`. */
  function Count(c: char, s: string): nat
  {
    if |s| == 0 then 0 else (if s[0] == c then 1 else 0) + Count(c, s[1..])
  }

  /** The occurrences of `c` in all of `parts` together. */
  function CountAll(c: char, parts: seq<string>): nat
  {
    if |parts| == 0 then 0 else Count(c, parts[0]) + CountAll(c, parts[1..])
  }

  /** Contains finds `sub` exactly when `sub` starts at some position of `s`. */
  lemma {:induction false} ContainsAt(s: string, sub: string)
    ensures Contains(s, sub) <==> exists i :: 0 <= i <= |s| && sub <= s[i..]
    decreases |s|
  {
    if sub <= s {
      assert s[0..] == s;
    } else if |s| == 0 {
      forall i | 0 <= i <= |s| ensures !(sub <= s[i..]) {
        assert s[i..] == s;
      }
    } else {
      ContainsAt(s[1..], sub);
      if Contains(s[1..], sub) {
        var i :| 0 <= i <= |s[1..]| && sub <= s[1..][i..];
        assert s[1..][i..] == s[i + 1..];
      } else {
        forall i | 0 <= i <= |s| ensures !(sub <= s[i..]) {
          if i > 0 {
            assert s[i..] == s[1..][i - 1..];
          } else {
            assert s[i..] == s;
          }
        }
      }
    }
  }

  /** Upper-casing works character by character, so it distributes over concatenation. */
  lemma ToUpperAppend(a: string, b: string)
    ensures ToUpper(a + b) == ToUpper(a) + ToUpper(b)
  {
    assert |ToUpper(a + b)| == |ToUpper(a) + ToUpper(b)|;
    forall i | 0 <= i < |a + b| ensures ToUpper(a + b)[i] == (ToUpper(a) + ToUpper(b))[i] {
      if i < |a| {
        assert (a + b)[i] == a[i];
      } else {
        assert (a + b)[i] == b[i - |a|];
      }
    }
  }

  /** What occurs inside a string also occurs in any string that surrounds it. */
  lemma {:induction false} ContainsInside(pre: string, sub: string, post: string)
    ensures Contains(pre + sub + post, sub)
  {
    ContainsAt(pre + sub + post, sub);
    assert (pre + sub + post)[|pre|..] == sub + post;
  }

  /**
   * When the first `target` stands at position k, replacing the first `target`
   * keeps what precedes and what follows it and puts `repl` in its place.
   */
  lemma {:induction false} ReplaceFirstAt(s: string, target: char, repl: string, k: nat)
    requires k < |s| && s[k] == target
    requires forall j :: 0 <= j < k ==> s[j] != target
    ensures ReplaceFirst(s, target, repl) == s[..k] + repl + s[k + 1..]
  {
    if k > 0 {
      ReplaceFirstAt(s[1..], target, repl, k - 1);
      assert s[..k] == [s[0]] + s[1..][..k - 1];
      assert s[k + 1..] == s[1..][k..];
    }
  }

  /** Counting is additive over concatenation. */
  lemma {:induction false} CountAppend(c: char, a: string, b: string)
    ensures Count(c, a + b) == Count(c, a) + Count(c, b)
  {
    if |a| > 0 {
      assert (a + b)[1..] == a[1..] + b;
      CountAppend(c, a[1..], b);
    } else {
      assert a + b == b;
    }
  }

  lemma {:induction false} CountAllAppend(c: char, ps: seq<string>, qs: seq<string>)
    ensures CountAll(c, ps + qs) == CountAll(c, ps) + CountAll(c, qs)
  {
    if |ps| > 0 {
      assert (ps + qs)[1..] == ps[1..] + qs;
      CountAllAppend(c, ps[1..], qs);
    } else {
      assert ps + qs == qs;
    }
  }

  /** A join holds the parts' occurrences of `c` and none of its own when `sep` holds none. */
  lemma {:induction false} CountJoin(c: char, parts: seq<string>, sep: string)
    requires Count(c, sep) == 0
    ensures Count(c, Join(parts, sep)) == CountAll(c, parts)
  {
    if |parts| == 1 {
      assert parts[1..] == [];
    } else if |parts| > 1 {
      CountJoin(c, parts[1..], sep);
      CountAppend(c, parts[0] + sep, Join(parts[1..], sep));
      CountAppend(c, parts[0], sep);
    }
  }

  /** Replacing the first `target` by `repl` trades one `target` for the content of `repl`. */
  lemma {:induction false} CountReplaceFirst(c: char, s: string, target: char, repl: string)
    requires c != target
    ensures Count(c, ReplaceFirst(s, target, repl)) == Count(c, s) + (if target in s then Count(c, repl) else 0)
  {
    if |s| > 0 {
      if s[0] == target {
        CountAppend(c, repl, s[1..]);
      } else {
        assert target in s <==> target in s[1..] by {
          assert s == [s[0]] + s[1..];
        }
        CountReplaceFirst(c, s[1..], target, repl);
        CountAppend(c, [s[0]], ReplaceFirst(s[1..], target, repl));
      }
    }
  }
}
