/** The string operations of Python that the modelled code leans on, and what they undo. */
module Text {
  import opened Wrappers

  // ----- split and join ---------------------------------------------------------------

  /** s.split(sep) for a one-character separator. */
  function Split(s: string, sep: char): (parts: seq<string>)
    ensures |parts| > 0
  {
    if s == "" then [""]
    else
      var rest := Split(s[1..], sep);
      if s[0] == sep then [""] + rest else [[s[0]] + rest[0]] + rest[1..]
  }

  lemma {:induction false} SplitWithout(s: string, sep: char)
    requires sep !in s
    ensures Split(s, sep) == [s]
  {
    if s != "" {
      SplitWithout(s[1..], sep);
      assert [s[0]] + s[1..] == s;
    }
  }

  function Prepend(c: char, sep: char, rest: seq<string>): seq<string>
    requires rest != []
  {
    if c == sep then [""] + rest else [[c] + rest[0]] + rest[1..]
  }

  lemma {:induction false} SplitCons(c: char, s: string, sep: char)
    ensures Split([c] + s, sep) == Prepend(c, sep, Split(s, sep))
  {
    assert ([c] + s)[1..] == s;
  }

  lemma PrependAppend(c: char, sep: char, rest: seq<string>, tail: seq<string>)
    requires rest != []
    ensures Prepend(c, sep, rest + tail) == Prepend(c, sep, rest) + tail
  {
    assert (rest + tail)[1..] == rest[1..] + tail;
  }

  lemma {:induction false} SplitAt(a: string, sep: char, b: string)
    ensures Split(a + [sep] + b, sep) == Split(a, sep) + Split(b, sep)
  {
    if a == "" {
      assert a + [sep] + b == [sep] + b;
      SplitCons(sep, b, sep);
    } else {
      SplitAt(a[1..], sep, b);
      SplitCons(a[0], a[1..] + [sep] + b, sep);
      SplitCons(a[0], a[1..], sep);
      assert [a[0]] + (a[1..] + [sep] + b) == a + [sep] + b;
      assert [a[0]] + a[1..] == a;
      PrependAppend(a[0], sep, Split(a[1..], sep), Split(b, sep));
    }
  }

  /** sep.join(parts). */
  function Join(parts: seq<string>, sep: char): string {
    if parts == [] then ""
    else if |parts| == 1 then parts[0]
    else parts[0] + [sep] + Join(parts[1..], sep)
  }

  lemma {:induction false} SplitJoin(parts: seq<string>, sep: char)
    requires parts != [] && forall p :: p in parts ==> sep !in p
    ensures Split(Join(parts, sep), sep) == parts
  {
    SplitWithout(parts[0], sep);
    if |parts| > 1 {
      SplitJoin(parts[1..], sep);
      SplitAt(parts[0], sep, Join(parts[1..], sep));
    }
  }

  /** Splitting loses nothing but the separators. */
  lemma {:induction false} SplitParts(s: string, sep: char)
    ensures Join(Split(s, sep), sep) == s
    ensures forall p :: p in Split(s, sep) ==> sep !in p
  {
    if s != "" {
      SplitParts(s[1..], sep);
      var rest := Split(s[1..], sep);
      assert s == [s[0]] + s[1..];
      if s[0] == sep {
        assert ([""] + rest)[1..] == rest;
      } else {
        assert rest[0] in rest;
        assert ([[s[0]] + rest[0]] + rest[1..])[1..] == rest[1..];
      }
    }
  }

  /** The index of the first c in s, or |s|. */
  function Find(s: string, c: char): (i: nat)
    ensures i <= |s| && c !in s[..i] && (i < |s| ==> s[i] == c)
  {
    if s == "" || s[0] == c then 0
    else
      var i := 1 + Find(s[1..], c);
      assert s[..i] == [s[0]] + s[1..][..i - 1];
      i
  }

  lemma FindFirst(key: string, c: char, value: string)
    requires c !in key
    ensures Find(key + [c] + value, c) == |key|
  {
    var s := key + [c] + value;
    var i := Find(s, c);
    assert s[|key|] == c;
    assert forall j :: 0 <= j < |key| ==> s[j] == key[j] && key[j] in key;
    assert forall j :: 0 <= j < i ==> s[j] == s[..i][j] && s[..i][j] in s[..i];
  }

  // ----- decimal numbers --------------------------------------------------------------

  function DigitChar(d: nat): (c: char)
    requires d < 10
    ensures IsDigit(c)
  {
    '0' + d as char
  }

  predicate IsDigit(c: char) {
    '0' <= c <= '9'
  }

  /** str(n). */
  function Decimal(n: nat): (s: string)
    ensures s != "" && forall c :: c in s ==> IsDigit(c)
  {
    if n < 10 then [DigitChar(n)] else Decimal(n / 10) + [DigitChar(n % 10)]
  }

  /** int(s) for a run of ASCII digits; anything else is a ValueError. */
  function ParseDecimal(s: string): Result<nat> {
    if s == "" || exists i :: 0 <= i < |s| && !IsDigit(s[i]) then Err else Ok(Value(s))
  }

  function Value(s: string): nat
    requires forall i :: 0 <= i < |s| ==> IsDigit(s[i])
  {
    if s == "" then 0
    else
      assert IsDigit(s[|s| - 1]);
      10 * Value(s[..|s| - 1]) + (s[|s| - 1] as nat - '0' as nat)
  }

  lemma {:induction false} ParseOfDecimal(n: nat)
    ensures ParseDecimal(Decimal(n)) == Ok(n)
  {
    var s := Decimal(n);
    if n >= 10 {
      ParseOfDecimal(n / 10);
      assert s[..|s| - 1] == Decimal(n / 10);
    } else {
      var s1 := [DigitChar(n)];
      assert s1[..0] == "" && Value(s1[..0]) == 0;
      assert Value(s1) == 10 * Value(s1[..|s1| - 1]) + n;
    }
  }

  // ----- white space ------------------------------------------------------------------

  /** str.isspace for one character. */
  predicate IsSpace(c: char) {
    || c == ' ' || '\t' <= c <= '\r' || '\U{1c}' <= c <= '\U{1f}' || c == '\U{85}' || c == '\U{a0}'
    || c == '\U{1680}' || '\U{2000}' <= c <= '\U{200a}' || c == '\U{2028}' || c == '\U{2029}'
    || c == '\U{202f}' || c == '\U{205f}' || c == '\U{3000}'
  }

  /** s.strip(). */
  function Strip(s: string): string {
    if s == "" then ""
    else if IsSpace(s[0]) then Strip(s[1..])
    else if IsSpace(s[|s| - 1]) then Strip(s[..|s| - 1])
    else s
  }

  predicate Word(w: string) {
    w != "" && forall i :: 0 <= i < |w| ==> !IsSpace(w[i])
  }

  /** s.split(): the maximal runs of non-space characters. */
  function Words(s: string): (words: seq<string>)
    ensures forall w :: w in words ==> Word(w)
  {
    if s == "" then []
    else
      var rest := Words(s[1..]);
      if IsSpace(s[0]) then rest
      else if |s| == 1 || IsSpace(s[1]) then [[s[0]]] + rest
      else if rest == [] then [[s[0]]]
      else
        assert Word(rest[0]);
        [[s[0]] + rest[0]] + rest[1..]
  }

  /** " ".join(s.split()). */
  function Collapse(s: string): string {
    Join(Words(s), ' ')
  }

  /** Non-empty, no space but ' ', none at either end and no two together. */
  predicate Normal(s: string) {
    && s != "" && !IsSpace(s[0]) && !IsSpace(s[|s| - 1])
    && (forall i :: 0 <= i < |s| && IsSpace(s[i]) ==> s[i] == ' ')
    && (forall i :: 0 <= i < |s| - 1 ==> !(IsSpace(s[i]) && IsSpace(s[i + 1])))
  }

  lemma {:induction false} JoinedIsNormal(words: seq<string>)
    requires words != [] && forall w :: w in words ==> Word(w)
    ensures Normal(Join(words, ' '))
  {
    var w := words[0];
    assert Word(w);
    if |words| > 1 {
      JoinedIsNormal(words[1..]);
      NormalAfterSpace(w, Join(words[1..], ' '));
    }
  }

  lemma NormalAfterSpace(w: string, t: string)
    requires Word(w) && Normal(t)
    ensures Normal(w + [' '] + t)
  {
    var s := w + [' '] + t;
    assert s[|s| - 1] == t[|t| - 1];
    forall i | 0 <= i < |s| ensures s[i] == if i < |w| then w[i] else if i == |w| then ' ' else t[i - |w| - 1] {
    }
    forall i | 0 <= i < |s| - 1 ensures !(IsSpace(s[i]) && IsSpace(s[i + 1])) {
      if i > |w| {
        assert !(IsSpace(t[i - |w| - 1]) && IsSpace(t[i - |w|]));
      }
    }
  }

  lemma {:induction false} CollapsedIsNormal(s: string)
    ensures Collapse(s) == "" || Normal(Collapse(s))
  {
    if Words(s) != [] {
      JoinedIsNormal(Words(s));
    }
  }

  /** A suffix of a normal string, which may begin with its one space. */
  predicate Tail(s: string) {
    && s != "" && !IsSpace(s[|s| - 1])
    && (forall i :: 0 <= i < |s| && IsSpace(s[i]) ==> s[i] == ' ')
    && (forall i :: 0 <= i < |s| - 1 ==> !(IsSpace(s[i]) && IsSpace(s[i + 1])))
  }

  lemma {:induction false} CollapseKeepsTail(s: string)
    requires Tail(s)
    ensures Words(s) != [] && Collapse(s) == if s[0] == ' ' then s[1..] else s
  {
    if |s| == 1 {
      assert s == [s[0]];
    } else {
      CollapseKeepsTail(s[1..]);
      var rest := Words(s[1..]);
      if s[0] != ' ' {
        if s[1] == ' ' {
          assert Join([[s[0]]] + rest, ' ') == [s[0]] + [' '] + Join(rest, ' ') by {
            assert ([[s[0]]] + rest)[1..] == rest;
          }
          assert s == [s[0]] + [' '] + s[2..];
          assert s[1..][1..] == s[2..];
        } else {
          var words := [[s[0]] + rest[0]] + rest[1..];
          assert words[1..] == rest[1..];
          assert Join(words, ' ') == [s[0]] + Join(rest, ' ');
          assert s == [s[0]] + s[1..];
        }
      }
    }
  }

  lemma {:induction false} CollapseKeepsNormal(s: string)
    requires Normal(s)
    ensures Collapse(s) == s
  {
    CollapseKeepsTail(s);
  }

  /** What is left of s without its white space. */
  function Ink(s: string): string {
    if s == "" then "" else (if IsSpace(s[0]) then "" else [s[0]]) + Ink(s[1..])
  }

  lemma {:induction false} InkAppend(a: string, b: string)
    ensures Ink(a + b) == Ink(a) + Ink(b)
  {
    if a == "" {
      assert a + b == b;
    } else {
      assert (a + b)[1..] == a[1..] + b;
      InkAppend(a[1..], b);
    }
  }

  lemma OneInk(c: char)
    ensures Ink([c]) == if IsSpace(c) then "" else [c]
    ensures IsSpace(' ')
  {
    assert [c][1..] == "";
  }

  /** Collapsing loses nothing but white space. */
  lemma {:induction false} CollapseKeepsInk(s: string)
    ensures Ink(Collapse(s)) == Ink(s)
  {
    hide IsSpace;
    if s != "" {
      CollapseKeepsInk(s[1..]);
      var rest := Words(s[1..]);
      if !IsSpace(s[0]) {
        if |s| == 1 || IsSpace(s[1]) {
          assert ([[s[0]]] + rest)[1..] == rest;
          if rest != [] {
            InkAppend([s[0]], [' '] + Join(rest, ' '));
            InkAppend([' '], Join(rest, ' '));
            assert Join([[s[0]]] + rest, ' ') == [s[0]] + ([' '] + Join(rest, ' '));
            OneInk(s[0]);
            OneInk(' ');
          }
        } else if rest != [] {
          var words := [[s[0]] + rest[0]] + rest[1..];
          assert words[1..] == rest[1..];
          assert Join(words, ' ') == [s[0]] + Join(rest, ' ');
          OneInk(s[0]);
          InkAppend([s[0]], Join(rest, ' '));
        }
      }
    }
  }

  lemma {:induction false} StripKeeps(s: string)
    requires s != "" && !IsSpace(s[0]) && !IsSpace(s[|s| - 1])
    ensures Strip(s) == s
  {
  }

  // ----- order ------------------------------------------------------------------------

  /** a < b as Python compares strings. */
  predicate Less(a: string, b: string) {
    if b == "" then false
    else if a == "" then true
    else if a[0] != b[0] then a[0] < b[0]
    else Less(a[1..], b[1..])
  }

  lemma {:induction false} LessTrans(a: string, b: string, c: string)
    requires Less(a, b) && Less(b, c)
    ensures Less(a, c)
  {
    if a != "" && a[0] == b[0] == c[0] {
      LessTrans(a[1..], b[1..], c[1..]);
    }
  }

  lemma {:induction false} LessAsym(a: string, b: string)
    requires Less(a, b)
    ensures !Less(b, a) && a != b
  {
    if a != "" && a[0] == b[0] {
      LessAsym(a[1..], b[1..]);
    }
  }
}
