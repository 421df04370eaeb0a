/**
 String helpers with the meaning the plugin gives them: Python truthiness of
 optional strings, `str.replace` removal, `int()` on decimal digits, `str(n)`,
 `split(' ')[0]`, substring tests, and the POSIX `os.path.basename` and
 `os.path.splitext`.
 */
module Text {
  import opened Optional

  /** Python truthiness of an optional string: `None` and `""` are false. */
  predicate Truthy(o: Option<string>)
  {
    o.Some? && o.value != ""
  }

  // ---------------------------------------------------------------------
  // Character removal (`s.replace(ch, '')`)
  // ---------------------------------------------------------------------

  /** `s.replace(ch, '')`: every occurrence of `ch` removed, order kept. */
  function RemoveAll(s: string, ch: char): (r: string)
    ensures |r| <= |s|
  {
    if s == [] then []
    else if s[0] == ch then RemoveAll(s[1..], ch)
    else [s[0]] + RemoveAll(s[1..], ch)
  }

  /** Removal keeps exactly the other characters. */
  lemma {:induction false} RemoveAllMembers(s: string, ch: char, x: char)
    ensures x in RemoveAll(s, ch) <==> x in s && x != ch
  {
    if s != [] {
      RemoveAllMembers(s[1..], ch, x);
      assert x in s <==> x == s[0] || x in s[1..];
    }
  }

  lemma {:induction false} RemoveAllAppend(a: string, b: string, ch: char)
    ensures RemoveAll(a + b, ch) == RemoveAll(a, ch) + RemoveAll(b, ch)
  {
    if a == [] {
      assert a + b == b;
    } else {
      assert (a + b)[0] == a[0];
      assert (a + b)[1..] == a[1..] + b;
      RemoveAllAppend(a[1..], b, ch);
    }
  }

  /**
   The numeric part of a registry key: `key.replace('c', '').replace('d', '')`.
   The variant tags `c` (conformal only) and `d` (conformal and distortion)
   disappear, every other character stays in order.
   */
  function StripVariant(key: string): string
  {
    RemoveAll(RemoveAll(key, 'c'), 'd')
  }

  /** Stripping keeps exactly the characters other than the variant tags. */
  lemma StripVariantMembers(key: string, x: char)
    ensures x in StripVariant(key) <==> x in key && x != 'c' && x != 'd'
  {
    RemoveAllMembers(key, 'c', x);
    RemoveAllMembers(RemoveAll(key, 'c'), 'd', x);
  }

  /** Removing a character that does not occur changes nothing. */
  lemma {:induction false} RemoveAllAbsent(s: string, ch: char)
    requires ch !in s
    ensures RemoveAll(s, ch) == s
  {
    if s != [] {
      assert ch !in s[1..] by {
        forall i | 0 <= i < |s[1..]| ensures s[1..][i] != ch { assert s[1..][i] == s[i + 1]; }
      }
      RemoveAllAbsent(s[1..], ch);
    }
  }

  /** A key without variant tags is its own numeric part. */
  lemma StripVariantUntagged(key: string)
    requires 'c' !in key && 'd' !in key
    ensures StripVariant(key) == key
  {
    RemoveAllAbsent(key, 'c');
    RemoveAllAbsent(key, 'd');
  }

  /** A variant key collides with its plain key: `283d` and `283c` both give `283`. */
  lemma {:induction false} VariantKeysCollide(base: string, tag: char)
    requires tag == 'c' || tag == 'd'
    ensures StripVariant(base + [tag]) == StripVariant(base)
  {
    RemoveAllAppend(base, [tag], 'c');
    RemoveAllAppend(RemoveAll(base, 'c'), RemoveAll([tag], 'c'), 'd');
    if tag == 'c' {
      assert RemoveAll([tag], 'c') == [];
      assert RemoveAll(base, 'c') + [] == RemoveAll(base, 'c');
    } else {
      assert RemoveAll([tag], 'c') == [tag];
      assert RemoveAll([tag], 'd') == [];
      assert RemoveAll(RemoveAll(base, 'c'), 'd') + [] == RemoveAll(RemoveAll(base, 'c'), 'd');
    }
  }

  // ---------------------------------------------------------------------
  // Decimal numbers (`int(s)` and `str(n)`)
  // ---------------------------------------------------------------------

  predicate IsDigit(ch: char)
  {
    '0' <= ch <= '9'
  }

  predicate IsDigits(s: string)
  {
    forall i :: 0 <= i < |s| ==> IsDigit(s[i])
  }

  /** A numeric EPSG code as the source writes it: a non-empty run of decimal digits. */
  predicate IsCode(s: string)
  {
    |s| > 0 && IsDigits(s)
  }

  function DigitValue(ch: char): nat
    requires IsDigit(ch)
  {
    (ch - '0') as nat
  }

  function DigitChar(d: nat): (ch: char)
    requires d < 10
    ensures IsDigit(ch) && DigitValue(ch) == d
  {
    ('0' as int + d) as char
  }

  /** `int(s)` for a string of decimal digits. */
  function DigitsValue(s: string): nat
    requires IsDigits(s)
  {
    if s == [] then 0 else DigitsValue(s[..|s| - 1]) * 10 + DigitValue(s[|s| - 1])
  }

  /** `int()` of a two-digit string. */
  lemma DigitsValueOfTwo(s: string)
    requires |s| == 2 && IsDigits(s)
    ensures DigitsValue(s) == DigitValue(s[0]) * 10 + DigitValue(s[1])
  {
    var one := s[..1];
    assert one[..0] == [] && one[0] == s[0];
    assert DigitsValue(one) == DigitValue(s[0]);
  }

  /** `int()` of a three-digit string. */
  lemma DigitsValueOfThree(s: string)
    requires |s| == 3 && IsDigits(s)
    ensures DigitsValue(s) == DigitValue(s[0]) * 100 + DigitValue(s[1]) * 10 + DigitValue(s[2])
  {
    DigitsValueOfTwo(s[..2]);
  }

  function Pow10(n: nat): (r: nat)
    ensures r >= 1
  {
    if n == 0 then 1 else 10 * Pow10(n - 1)
  }

  /** Appending digits shifts the value left: `int(a + b) == int(a) * 10^len(b) + int(b)`. */
  lemma {:induction false} DigitsValueAppend(a: string, b: string)
    requires IsDigits(a) && IsDigits(b)
    ensures IsDigits(a + b)
    ensures DigitsValue(a + b) == DigitsValue(a) * Pow10(|b|) + DigitsValue(b)
  {
    assert IsDigits(a + b) by {
      forall i | 0 <= i < |a + b| ensures IsDigit((a + b)[i]) {
        if i < |a| { assert (a + b)[i] == a[i]; } else { assert (a + b)[i] == b[i - |a|]; }
      }
    }
    if b == [] {
      assert a + b == a;
    } else {
      var b' := b[..|b| - 1];
      assert (a + b)[..|a + b| - 1] == a + b';
      assert (a + b)[|a + b| - 1] == b[|b| - 1];
      assert IsDigits(b');
      DigitsValueAppend(a, b');
      var x, p, y, d := DigitsValue(a), Pow10(|b'|), DigitsValue(b'), DigitValue(b[|b| - 1]);
      assert DigitsValue(a + b) == DigitsValue(a + b') * 10 + d;
      assert DigitsValue(b) == y * 10 + d;
      assert Pow10(|b|) == 10 * p;
      ShiftLeft(x, p, y, d);
    }
  }

  lemma ShiftLeft(x: int, p: int, y: int, d: int)
    ensures (x * p + y) * 10 + d == x * (10 * p) + (y * 10 + d)
  {
  }

  /** `str(n)` for a natural number: its shortest decimal spelling. */
  function DecimalString(n: nat): (r: string)
    ensures IsCode(r)
    ensures DigitsValue(r) == n
    ensures n < 10 ==> |r| == 1
    ensures 10 <= n < 100 ==> |r| == 2
  {
    if n < 10 then [DigitChar(n)]
    else
      var prefix := DecimalString(n / 10);
      var r := prefix + [DigitChar(n % 10)];
      assert r[..|r| - 1] == prefix;
      r
  }

  // ---------------------------------------------------------------------
  // Words and substrings
  // ---------------------------------------------------------------------

  /** `s.split(' ')[0]`: the text before the first space, or all of `s`. */
  function FirstWord(s: string): (r: string)
    ensures ' ' !in r
    ensures r <= s
    ensures |r| < |s| ==> s[|r|] == ' '
  {
    if s == [] || s[0] == ' ' then []
    else [s[0]] + FirstWord(s[1..])
  }

  /** The first word of a space-free word followed by a space and more text is that word. */
  lemma FirstWordOf(word: string, rest: string)
    requires ' ' !in word && rest != [] && rest[0] == ' '
    ensures FirstWord(word + rest) == word
  {
    var s := word + rest;
    assert s[..|word|] == word;
    assert s[|word|] == ' ';
  }

  /** Python's `sub in s`. */
  predicate Contains(s: string, sub: string)
  {
    exists i :: 0 <= i <= |s| - |sub| && OccursAt(s, sub, i)
  }

  /** `sub` occurs in `s` starting at index `i`. */
  predicate OccursAt(s: string, sub: string, i: int)
  {
    0 <= i && i + |sub| <= |s| && s[i..i + |sub|] == sub
  }

  lemma ContainsSuffix(s: string, sub: string)
    ensures Contains(s + sub, sub)
  {
    assert (s + sub)[|s|..|s| + |sub|] == sub;
    assert OccursAt(s + sub, sub, |s|);
  }

  lemma ContainsAfter(pre: string, s: string, sub: string)
    requires Contains(s, sub)
    ensures Contains(pre + s, sub)
  {
    var i :| 0 <= i <= |s| - |sub| && OccursAt(s, sub, i);
    assert (pre + s)[|pre| + i..|pre| + i + |sub|] == s[i..i + |sub|];
    assert OccursAt(pre + s, sub, |pre| + i);
  }

  lemma ContainsPrefixOf(s: string, sub: string, rest: string)
    requires Contains(s, sub)
    ensures Contains(s + rest, sub)
  {
    var i :| 0 <= i <= |s| - |sub| && OccursAt(s, sub, i);
    assert (s + rest)[..|s|] == s;
    assert (s + rest)[i..i + |sub|] == s[i..i + |sub|];
    assert OccursAt(s + rest, sub, i);
  }

  // ---------------------------------------------------------------------
  // Paths (POSIX `os.path`)
  // ---------------------------------------------------------------------

  /** `s.rfind(ch)`: the last index of `ch` in `s`, or -1. */
  function LastIndexOf(s: string, ch: char): (r: int)
    ensures -1 <= r < |s|
    ensures r >= 0 ==> s[r] == ch
    ensures forall j :: r < j < |s| ==> s[j] != ch
  {
    if s == [] then -1
    else if s[|s| - 1] == ch then |s| - 1
    else LastIndexOf(s[..|s| - 1], ch)
  }

  lemma {:induction false} LastIndexOfAppendHit(a: string, b: string, ch: char)
    requires ch in b
    ensures LastIndexOf(a + b, ch) == |a| + LastIndexOf(b, ch)
  {
    var s := a + b;
    assert s[|s| - 1] == b[|b| - 1];
    if b[|b| - 1] != ch {
      var b' := b[..|b| - 1];
      assert s[..|s| - 1] == a + b';
      assert ch in b' by {
        var k :| 0 <= k < |b| && b[k] == ch;
        assert b'[k] == ch;
      }
      LastIndexOfAppendHit(a, b', ch);
    }
  }

  lemma {:induction false} LastIndexOfAppendMiss(a: string, b: string, ch: char)
    requires ch !in b
    ensures LastIndexOf(a + b, ch) == LastIndexOf(a, ch)
  {
    if b == [] {
      assert a + b == a;
    } else {
      var s := a + b;
      var b' := b[..|b| - 1];
      assert s[|s| - 1] == b[|b| - 1];
      assert s[..|s| - 1] == a + b';
      assert ch !in b' by {
        forall k | 0 <= k < |b'| ensures b'[k] != ch { assert b'[k] == b[k]; }
      }
      LastIndexOfAppendMiss(a, b', ch);
    }
  }

  /** `os.path.basename(p)`: the text after the last `/`. */
  function Basename(p: string): (r: string)
    ensures |r| <= |p| && r == p[|p| - |r|..]
    ensures '/' !in r
    ensures |r| < |p| ==> p[|p| - |r| - 1] == '/'
  {
    LastIndexOfTail(p, '/');
    p[LastIndexOf(p, '/') + 1..]
  }

  /** Nothing after the last `ch` is `ch`. */
  lemma LastIndexOfTail(s: string, ch: char)
    ensures ch !in s[LastIndexOf(s, ch) + 1..]
  {
    var i := LastIndexOf(s, ch);
    var tail := s[i + 1..];
    forall k | 0 <= k < |tail|
      ensures tail[k] != ch
    {
      assert tail[k] == s[i + 1 + k];
    }
  }

  /** A grid path `dir + "/grids/" + name` has `name` as its basename. */
  lemma BasenameOfGridPath(dir: string, name: string)
    requires '/' !in name
    ensures Basename(dir + "/grids/" + name) == name
  {
    var p := dir + "/grids/" + name;
    assert p == (dir + "/grids") + ("/" + name);
    LastIndexOfAppendHit(dir + "/grids", "/" + name, '/');
    LastIndexOfAppendMiss("/", name, '/');
    assert ("/" + name)[0] == '/';
    assert LastIndexOf("/", '/') == 0;
    assert p[|dir + "/grids"| + 1..] == name;
  }

  /** POSIX `os.path.join(a, b)`: an absolute `b` replaces `a`, otherwise one `/` separates them. */
  function PathJoin(a: string, b: string): (r: string)
    ensures |b| <= |r| && r[|r| - |b|..] == b
    ensures (|b| > 0 && b[0] == '/') || a <= r
  {
    if |b| > 0 && b[0] == '/' then b
    else if a == [] || a[|a| - 1] == '/' then a + b
    else a + "/" + b
  }

  /** Some character of `p[from..to]` is not a dot. */
  predicate HasNonDot(p: string, from: int, to: int)
    requires 0 <= from && to <= |p|
  {
    exists j :: from <= j < to && p[j] != '.'
  }

  /**
   POSIX `os.path.splitext(p)`: the extension starts at the last dot of the
   last path component, unless every character before that dot in the
   component is itself a dot (as in `.profile`).
   */
  function SplitExt(p: string): (r: (string, string))
    ensures r.0 + r.1 == p
    ensures r.1 == [] || (r.1[0] == '.' && '.' !in r.1[1..] && '/' !in r.1)
  {
    var sep := LastIndexOf(p, '/');
    var dot := LastIndexOf(p, '.');
    if dot > sep && HasNonDot(p, sep + 1, dot) then
      var ext := p[dot..];
      assert forall k :: 1 <= k < |ext| ==> ext[k] == p[dot + k];
      (p[..dot], ext)
    else
      (p, [])
  }

  /** In `<word>.<ext>` the last dot is the extension's, and there is no `/`. */
  lemma {:induction false} WordExtDots(word: string, ext: string)
    requires '/' !in word && '.' !in word
    requires |ext| > 0 && ext[0] == '.' && '.' !in ext[1..] && '/' !in ext
    ensures '/' !in word + ext && '.' in word + ext
    ensures LastIndexOf(word + ext, '.') == |word|
  {
    var tail := word + ext;
    forall k | 0 <= k < |tail| ensures tail[k] != '/' {
      if k < |word| { assert tail[k] == word[k]; } else { assert tail[k] == ext[k - |word|]; }
    }
    assert tail[|word|] == '.';
    LastIndexOfAppendHit(word, ext, '.');
    assert ext == [ext[0]] + ext[1..];
    LastIndexOfAppendMiss([ext[0]], ext[1..], '.');
    assert LastIndexOf([ext[0]], '.') == 0;
  }

  /** The extension of `stem + tail` is found in `tail` when `tail` is `<word>.<ext>`. */
  lemma {:induction false} SplitExtOfSuffix(stem: string, word: string, ext: string)
    requires |word| > 0 && word[|word| - 1] != '.'
    requires '/' !in word && '.' !in word
    requires |ext| > 0 && ext[0] == '.' && '.' !in ext[1..] && '/' !in ext
    ensures SplitExt(stem + word + ext) == (stem + word, ext)
  {
    var p := stem + word + ext;
    var tail := word + ext;
    assert p == stem + tail;
    WordExtDots(word, ext);
    LastIndexOfAppendMiss(stem, tail, '/');
    LastIndexOfAppendHit(stem, tail, '.');
    var sep := LastIndexOf(p, '/');
    assert sep == LastIndexOf(stem, '/') < |stem|;
    var dot := LastIndexOf(p, '.');
    assert dot == |stem| + |word|;
    assert p[dot - 1] == word[|word| - 1];
    assert HasNonDot(p, sep + 1, dot);
    assert p[..dot] == stem + word;
    assert p[dot..] == ext;
  }
}
