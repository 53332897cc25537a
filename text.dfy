/** The string operations the handlers use: ASCII `str.upper`, `str.split(sep)`,
    the `sep.join` that undoes it, and the substring test `pat in s`. */
module Text {

  /** ASCII upper-casing of one character; every other character is left alone. */
  function UpperChar(c: char): (u: char)
  {
    if 'a' <= c <= 'z' then (c as int - 32) as char else c
  }

  /** `s.upper()` restricted to ASCII. */
  function Upper(s: string): (r: string)
    ensures |r| == |s|
  {
    seq(|s|, i requires 0 <= i < |s| => UpperChar(s[i]))
  }

  /** Upper-casing commutes with concatenation, so it can be pushed into a template. */
  lemma UpperConcat(a: string, b: string)
    ensures Upper(a + b) == Upper(a) + Upper(b)
  {
    assert |Upper(a + b)| == |Upper(a) + Upper(b)|;
    forall i | 0 <= i < |a + b|
      ensures Upper(a + b)[i] == (Upper(a) + Upper(b))[i]
    {
      if i < |a| { assert (a + b)[i] == a[i]; } else { assert (a + b)[i] == b[i - |a|]; }
    }
  }

  /** Upper-casing neither creates nor removes a character outside 'a'..'z', such as ':'. */
  lemma UpperKeepsOther(s: string, c: char)
    requires !('a' <= c <= 'z') && !('A' <= c <= 'Z')
    ensures c in Upper(s) <==> c in s
  {
    if c in Upper(s) {
      var i :| 0 <= i < |s| && Upper(s)[i] == c;
      assert s[i] == c;
    }
    if c in s {
      var i :| 0 <= i < |s| && s[i] == c;
      assert Upper(s)[i] == c;
    }
  }

  /** `s.split(sep)`: never empty ("".split(",") is [""]), and no part holds `sep`. */
  function Split(s: string, sep: char): (parts: seq<string>)
    ensures |parts| >= 1
    ensures forall k :: 0 <= k < |parts| ==> sep !in parts[k]
  {
    if s == [] then [""]
    else if s[0] == sep then [""] + Split(s[1..], sep)
    else
      var rest := Split(s[1..], sep);
      [[s[0]] + rest[0]] + rest[1..]
  }

  /** `sep.join(parts)`. */
  function Join(parts: seq<string>, sep: char): (s: string)
  {
    if parts == [] then ""
    else if |parts| == 1 then parts[0]
    else parts[0] + [sep] + Join(parts[1..], sep)
  }

  /** Joining the parts of a split gives back the string that was split. */
  lemma {:induction false} JoinSplit(s: string, sep: char)
    ensures Join(Split(s, sep), sep) == s
  {
    if s == [] {
    } else if s[0] == sep {
      JoinSplit(s[1..], sep);
      var rest := Split(s[1..], sep);
      assert Split(s, sep) == [""] + rest;
      assert ([""] + rest)[1..] == rest;
      assert Join(Split(s, sep), sep) == "" + [sep] + Join(rest, sep);
      assert s == [s[0]] + s[1..];
    } else {
      JoinSplit(s[1..], sep);
      var rest := Split(s[1..], sep);
      var parts := [[s[0]] + rest[0]] + rest[1..];
      assert Split(s, sep) == parts;
      if |rest| == 1 {
        assert Join(rest, sep) == rest[0];
        assert Join(parts, sep) == [s[0]] + rest[0];
      } else {
        assert parts[1..] == rest[1..];
        assert Join(rest, sep) == rest[0] + [sep] + Join(rest[1..], sep);
        assert Join(parts, sep) == [s[0]] + rest[0] + [sep] + Join(rest[1..], sep);
      }
      assert s == [s[0]] + s[1..];
    }
  }

  /** Splitting a join of separator-free parts gives back the parts. */
  lemma {:induction false} SplitJoin(parts: seq<string>, sep: char)
    requires |parts| >= 1
    requires forall k :: 0 <= k < |parts| ==> sep !in parts[k]
    ensures Split(Join(parts, sep), sep) == parts
  {
    if |parts| == 1 {
      SplitPlain(parts[0], sep);
    } else {
      SplitJoin(parts[1..], sep);
      SplitAfter(parts[0], Join(parts[1..], sep), sep);
      assert Join(parts, sep) == parts[0] + [sep] + Join(parts[1..], sep);
      assert [parts[0]] + parts[1..] == parts;
    }
  }

  /** A string without the separator splits into itself alone. */
  lemma {:induction false} SplitPlain(s: string, sep: char)
    requires sep !in s
    ensures Split(s, sep) == [s]
  {
    if s != [] {
      SplitPlain(s[1..], sep);
      assert [s[0]] + s[1..] == s;
    }
  }

  /** Splitting `p + sep + t`, where `p` holds no separator, puts `p` in front of the split of `t`. */
  lemma {:induction false} SplitAfter(p: string, t: string, sep: char)
    requires sep !in p
    ensures Split(p + [sep] + t, sep) == [p] + Split(t, sep)
  {
    if p == [] {
      assert p + [sep] + t == [sep] + t;
      assert ([sep] + t)[1..] == t;
    } else {
      SplitAfter(p[1..], t, sep);
      var s := p + [sep] + t;
      assert s[0] == p[0];
      assert s[1..] == p[1..] + [sep] + t;
      assert [p[0]] + p[1..] == p;
    }
  }

  /** Regrouping after a single head element; called where the solver would otherwise search
      for it. */
  lemma ConsAssoc<T>(h: T, a: seq<T>, b: seq<T>)
    ensures [h] + (a + b) == ([h] + a) + b
  {
  }

  /** Head and tail of a concatenation with a non-empty left side. */
  lemma TailConcat<T>(a: seq<T>, b: seq<T>)
    requires |a| >= 1
    ensures (a + b)[0] == a[0] && (a + b)[1..] == a[1..] + b
  {
  }

  /** Splitting at one occurrence of the separator splits each side on its own. */
  lemma {:induction false} SplitAt(x: string, y: string, sep: char)
    ensures Split(x + [sep] + y, sep) == Split(x, sep) + Split(y, sep)
  {
    var s := x + [sep] + y;
    if x == [] {
      assert s == [sep] + y;
    } else {
      SplitAt(x[1..], y, sep);
      TailConcat(x, [sep] + y);
      assert s == x + ([sep] + y);
      assert x[1..] + ([sep] + y) == x[1..] + [sep] + y;
      var r1, r2 := Split(x[1..], sep), Split(y, sep);
      if x[0] == sep {
        ConsAssoc("", r1, r2);
      } else {
        TailConcat(r1, r2);
        ConsAssoc([x[0]] + r1[0], r1[1..], r2);
      }
    }
  }

  /** `s` begins with `p`. */
  predicate StartsWith(s: string, p: string)
  {
    |p| <= |s| && s[..|p|] == p
  }

  /** The substring test `p in s`, scanning from the left. */
  predicate Contains(s: string, p: string)
    decreases |s|
  {
    StartsWith(s, p) || (s != [] && Contains(s[1..], p))
  }

  /** `p` occurs in `s` at index `i`. */
  predicate OccursAt(s: string, p: string, i: int)
  {
    0 <= i && i + |p| <= |s| && s[i..i + |p|] == p
  }

  /** The scanning test agrees with the definition by an occurrence index, both ways. */
  lemma {:induction false} ContainsIff(s: string, p: string)
    ensures Contains(s, p) <==> exists i :: OccursAt(s, p, i)
  {
    if s == [] {
      if StartsWith(s, p) {
        assert OccursAt(s, p, 0);
      }
      if exists i :: OccursAt(s, p, i) {
        var i :| OccursAt(s, p, i);
        assert StartsWith(s, p);
      }
    } else {
      ContainsIff(s[1..], p);
      if Contains(s, p) {
        if StartsWith(s, p) {
          assert OccursAt(s, p, 0);
        } else {
          var i :| OccursAt(s[1..], p, i);
          assert s[1..][i..i + |p|] == s[i + 1..i + 1 + |p|];
          assert OccursAt(s, p, i + 1);
        }
      }
      if exists i :: OccursAt(s, p, i) {
        var i :| OccursAt(s, p, i);
        if i == 0 {
          assert StartsWith(s, p);
        } else {
          assert s[1..][i - 1..i - 1 + |p|] == s[i..i + |p|];
          assert OccursAt(s[1..], p, i - 1);
        }
      }
    }
  }
}
